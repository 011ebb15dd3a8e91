/** The string functions of the host language that the sources lean on, and the fence trimmer. */
module Text {

  predicate StartsWith(s: string, prefix: string) {
    |prefix| <= |s| && s[..|prefix|] == prefix
  }

  lemma {:induction false} SuffixOfSuffix(s: string, n: nat, m: nat)
    requires n + m <= |s|
    ensures s[n..][m..] == s[n + m..]
  {
  }

  // ---------- trim ----------

  /** White space and line terminators, as String.prototype.trim removes them. */
  predicate IsBlank(c: char) {
    || c == ' ' || '\t' <= c <= '\r' || c == '\U{A0}' || c == '\U{1680}' || '\U{2000}' <= c <= '\U{200A}'
    || c == '\U{2028}' || c == '\U{2029}' || c == '\U{202F}' || c == '\U{205F}' || c == '\U{3000}' || c == '\U{FEFF}'
  }

  /** Tab, the two vertical feeds, the spaces, the byte order mark and the four line terminators. */
  lemma {:induction false} BlanksAre(c: char)
    ensures IsBlank(c) <==>
            c in {'\t', '\U{B}', '\U{C}', ' ', '\U{A0}', '\U{1680}', '\U{2000}', '\U{2001}', '\U{2002}', '\U{2003}',
                  '\U{2004}', '\U{2005}', '\U{2006}', '\U{2007}', '\U{2008}', '\U{2009}', '\U{200A}', '\U{202F}',
                  '\U{205F}', '\U{3000}', '\U{FEFF}', '\n', '\r', '\U{2028}', '\U{2029}'}
  {
  }

  /** The first position from i on that holds no blank. */
  function SkipBlanks(s: string, i: nat): (k: nat)
    requires i <= |s|
    ensures i <= k <= |s|
    decreases |s| - i
  {
    if i == |s| || !IsBlank(s[i]) then i else SkipBlanks(s, i + 1)
  }

  /** The end of s[i..j] without the blanks at its end. */
  function DropBlanks(s: string, i: nat, j: nat): (k: nat)
    requires i <= j <= |s|
    ensures i <= k <= j
  {
    if j == i || !IsBlank(s[j - 1]) then j else DropBlanks(s, i, j - 1)
  }

  function Trim(s: string): (r: string)
    ensures |r| <= |s|
  {
    var i := SkipBlanks(s, 0);
    s[i..DropBlanks(s, i, |s|)]
  }

  predicate AllBlank(s: string) {
    forall i :: 0 <= i < |s| ==> IsBlank(s[i])
  }

  lemma {:induction false} SkipBlanksIs(s: string, i: nat)
    requires i <= |s|
    ensures var k := SkipBlanks(s, i); AllBlank(s[i..k]) && (k < |s| ==> !IsBlank(s[k]))
    decreases |s| - i
  {
    if i == |s| || !IsBlank(s[i]) {
    } else {
      SkipBlanksIs(s, i + 1);
      assert s[i..SkipBlanks(s, i)] == [s[i]] + s[i + 1..SkipBlanks(s, i)];
    }
  }

  lemma {:induction false} DropBlanksIs(s: string, i: nat, j: nat)
    requires i <= j <= |s|
    ensures var k := DropBlanks(s, i, j); AllBlank(s[k..j]) && (i < k ==> !IsBlank(s[k - 1]))
  {
    if i == j || !IsBlank(s[j - 1]) {
    } else {
      DropBlanksIs(s, i, j - 1);
      assert s[DropBlanks(s, i, j)..j] == s[DropBlanks(s, i, j)..j - 1] + [s[j - 1]];
    }
  }

  /** trim cuts blanks off both ends, and all of them. */
  lemma {:induction false} TrimIs(s: string) returns (before: string, after: string)
    ensures s == before + Trim(s) + after && AllBlank(before) && AllBlank(after)
    ensures Trim(s) != "" ==> !IsBlank(Trim(s)[0]) && !IsBlank(Trim(s)[|Trim(s)| - 1])
  {
    var i := SkipBlanks(s, 0);
    var j := DropBlanks(s, i, |s|);
    SkipBlanksIs(s, 0);
    DropBlanksIs(s, i, |s|);
    before, after := s[..i], s[j..];
    InThree(s, i, j);
  }

  lemma {:induction false} InThree(s: string, i: nat, j: nat)
    requires i <= j <= |s|
    ensures s == s[..i] + s[i..j] + s[j..] && s[0..i] == s[..i] && s[j..|s|] == s[j..]
  {
  }

  lemma {:induction false} TrimEmptyIff(s: string)
    ensures Trim(s) == "" <==> AllBlank(s)
  {
    var before, after := TrimIs(s);
    if Trim(s) == "" {
      assert s == before + after;
    } else {
      assert s[|before|] == Trim(s)[0];
    }
  }

  // ---------- split and join ----------

  /** s.split(sep) for a one-character separator; never empty. */
  function Split(s: string, sep: char): (parts: seq<string>)
    ensures |parts| >= 1
    ensures forall p :: p in parts ==> sep !in p
  {
    if s == "" then [""]
    else
      var rest := Split(s[1..], sep);
      if s[0] == sep then [""] + rest else [[s[0]] + rest[0]] + rest[1..]
  }

  function Join(parts: seq<string>, sep: char): string {
    if parts == [] then ""
    else if |parts| == 1 then parts[0]
    else parts[0] + [sep] + Join(parts[1..], sep)
  }

  lemma {:induction false} JoinCons(first: string, rest: seq<string>, sep: char)
    requires rest != []
    ensures Join([first] + rest, sep) == first + [sep] + Join(rest, sep)
  {
    assert ([first] + rest)[1..] == rest;
  }

  lemma {:induction false} JoinGrow(c: char, parts: seq<string>, sep: char)
    requires parts != []
    ensures Join([[c] + parts[0]] + parts[1..], sep) == [c] + Join(parts, sep)
  {
    assert ([[c] + parts[0]] + parts[1..])[1..] == parts[1..];
    if |parts| > 1 {
      assert ([c] + parts[0]) + [sep] + Join(parts[1..], sep) == [c] + (parts[0] + [sep] + Join(parts[1..], sep));
    }
  }

  lemma {:induction false} JoinSplit(s: string, sep: char)
    ensures Join(Split(s, sep), sep) == s
  {
    if s == "" {
    } else {
      JoinSplit(s[1..], sep);
      var rest := Split(s[1..], sep);
      assert s == [s[0]] + s[1..];
      if s[0] == sep {
        JoinCons("", rest, sep);
        assert Join([""] + rest, sep) == [sep] + s[1..];
      } else {
        JoinGrow(s[0], rest, sep);
        assert Join([[s[0]] + rest[0]] + rest[1..], sep) == [s[0]] + s[1..];
      }
    }
  }

  lemma {:induction false} SplitFirst(p: string, tail: string, sep: char)
    requires sep !in p
    ensures Split(p + [sep] + tail, sep) == [p] + Split(tail, sep)
  {
    if p == "" {
      assert (p + [sep] + tail)[1..] == tail;
    } else {
      SplitFirst(p[1..], tail, sep);
      assert p == [p[0]] + p[1..];
      assert (p + [sep] + tail)[1..] == p[1..] + [sep] + tail;
    }
  }

  lemma {:induction false} SplitOnePart(p: string, sep: char)
    requires sep !in p
    ensures Split(p, sep) == [p]
  {
    if p == "" {
    } else {
      SplitOnePart(p[1..], sep);
      assert p == [p[0]] + p[1..];
    }
  }

  /** Split undoes join on any non-empty list of separator-free parts. */
  lemma {:induction false} SplitJoin(parts: seq<string>, sep: char)
    requires parts != [] && forall p :: p in parts ==> sep !in p
    ensures Split(Join(parts, sep), sep) == parts
  {
    if |parts| == 1 {
      SplitOnePart(parts[0], sep);
    } else {
      SplitJoin(parts[1..], sep);
      SplitFirst(parts[0], Join(parts[1..], sep), sep);
    }
  }

  // ---------- the code-fence trimmer ----------

  /** Three backquotes at position i. */
  predicate Ticks(s: string, i: nat) {
    i + 3 <= |s| && s[i] == s[i + 1] == s[i + 2] == '`'
  }

  predicate JsonTicks(s: string, i: nat) {
    Ticks(s, i) && i + 7 <= |s| && s[i + 3] == 'j' && s[i + 4] == 's' && s[i + 5] == 'o' && s[i + 6] == 'n'
  }

  /** The length of a match of /```json\n?|\n?```/ at position i, first alternative first. */
  function FenceMatch(s: string, i: nat): (n: nat)
    requires i <= |s|
    ensures i + n <= |s|
    ensures n > 0 <==> Ticks(s, i) || (i < |s| && s[i] == '\n' && Ticks(s, i + 1))
  {
    if JsonTicks(s, i) then (if i + 7 < |s| && s[i + 7] == '\n' then 8 else 7)
    else if i < |s| && s[i] == '\n' && Ticks(s, i + 1) then 4
    else if Ticks(s, i) then 3
    else 0
  }

  /** raw.replace(/```json\n?|\n?```/g, ''), from position i on. */
  function StripFrom(s: string, i: nat): (r: string)
    requires i <= |s|
    ensures |r| <= |s| - i
    decreases |s| - i
  {
    var n := FenceMatch(s, i);
    if i == |s| then "" else if n > 0 then StripFrom(s, i + n) else [s[i]] + StripFrom(s, i + 1)
  }

  function StripFences(s: string): (r: string)
    ensures |r| <= |s|
  {
    StripFrom(s, 0)
  }

  function TrimFences(raw: string): string {
    Trim(StripFences(raw))
  }

  predicate HasFence(s: string) {
    exists i :: 0 <= i < |s| && Ticks(s, i)
  }

  lemma {:induction false} StripFromShortensIff(s: string, i: nat)
    requires i <= |s|
    ensures if exists k :: i <= k < |s| && Ticks(s, k) then |StripFrom(s, i)| < |s| - i else StripFrom(s, i) == s[i..]
    decreases |s| - i
  {
    if i == |s| {
    } else {
      var n := FenceMatch(s, i);
      if n > 0 {
        assert Ticks(s, i) || Ticks(s, i + 1);
      } else {
        StripFromShortensIff(s, i + 1);
        assert s[i..] == [s[i]] + s[i + 1..];
      }
    }
  }

  lemma {:induction false} StripShortensIff(s: string)
    ensures if HasFence(s) then |StripFences(s)| < |s| else StripFences(s) == s
  {
    StripFromShortensIff(s, 0);
    assert s[0..] == s;
  }

  lemma {:induction false} TrimmedIsFixed(s: string)
    requires s != "" ==> !IsBlank(s[0]) && !IsBlank(s[|s| - 1])
    ensures Trim(s) == s
  {
    assert s[0..|s|] == s;
  }

  // ---------- What the fence trimmer is for ----------

  predicate NoBackquote(s: string) {
    forall i :: 0 <= i < |s| ==> s[i] != '`'
  }

  lemma {:induction false} StripPlain(before: string, body: string, after: string)
    requires NoBackquote(body) && (after == "" || (|after| == 4 && after[0] == '\n' && Ticks(after, 1)))
    ensures StripFrom(before + body + after, |before|) == body
    decreases |body|
  {
    var s, i := before + body + after, |before|;
    if body == "" {
      if after != "" {
        assert s[i] == '\n' && Ticks(s, i + 1) && FenceMatch(s, i) == 4;
        assert StripFrom(s, i + 4) == "";
      }
    } else {
      assert s[i] == body[0] && s == (before + [body[0]]) + body[1..] + after;
      NoFenceAt(before, body, after);
      StripPlain(before + [body[0]], body[1..], after);
    }
  }

  lemma {:induction false} NoFenceAt(before: string, body: string, after: string)
    requires body != "" && NoBackquote(body) && (after == "" || (|after| == 4 && after[0] == '\n' && Ticks(after, 1)))
    ensures FenceMatch(before + body + after, |before|) == 0
  {
    var s, i := before + body + after, |before|;
    assert s[i] == body[0];
    if i + 1 < |s| {
      assert s[i + 1] == if |body| > 1 then body[1] else after[0];
    }
  }

  /** A text without backquotes is only trimmed; put into a fence, of JSON or of anything else, it comes out again. */
  lemma {:induction false} TrimFencesUnwraps(body: string)
    requires NoBackquote(body)
    ensures TrimFences(body) == Trim(body)
    ensures TrimFences("```json\n" + body + "\n```") == Trim(body)
    ensures !StartsWith(body, "json") ==> TrimFences("```" + body + "\n```") == Trim(body)
  {
    assert "" + body + "" == body;
    StripPlain("", body, "");
    var json, plain := "```json\n" + body + "\n```", "```" + body + "\n```";
    assert JsonTicks(json, 0) && json[7] == '\n' && FenceMatch(json, 0) == 8;
    StripPlain("```json\n", body, "\n```");
    if !StartsWith(body, "json") {
      OpeningTicks(body);
      StripPlain("```", body, "\n```");
    }
  }

  lemma {:induction false} OpeningTicks(body: string)
    requires NoBackquote(body) && !StartsWith(body, "json")
    ensures FenceMatch("```" + body + "\n```", 0) == 3
  {
    var plain := "```" + body + "\n```";
    assert Ticks(plain, 0);
    if |body| >= 4 {
      assert body[..4] == plain[3..7];
    } else {
      assert plain[3 + |body|] == '\n';
    }
  }

  // ---------- When trimming twice is trimming once ----------

  /**
    One pass over the raw text from position i on, n backquotes of what is kept standing right before
    it: three backquotes in a row are kept.
    */
  predicate Leaves(s: string, i: nat, n: nat)
    requires i <= |s|
    decreases |s| - i
  {
    n >= 3 || (i < |s| && (if FenceMatch(s, i) > 0 then Leaves(s, i + FenceMatch(s, i), n)
                           else Leaves(s, i + 1, if s[i] == '`' then n + 1 else 0)))
  }

  function Backquotes(n: nat): (s: string)
    ensures |s| == n
  {
    seq(n, _ => '`')
  }

  /** A character that is no backquote separates what stands before it from what follows. */
  lemma {:induction false} FenceAfter(n: nat, c: char, rest: string)
    requires n < 3 && c != '`'
    ensures HasFence(Backquotes(n) + [c] + rest) <==> HasFence(rest)
  {
    var s := Backquotes(n) + [c] + rest;
    assert forall k :: 0 <= k < |rest| ==> s[n + 1 + k] == rest[k];
    assert s[n] == c;
    if k :| 0 <= k < |s| && Ticks(s, k) {
      assert k > n;
      assert Ticks(rest, k - n - 1);
    }
    if k :| 0 <= k < |rest| && Ticks(rest, k) {
      assert Ticks(s, n + 1 + k);
    }
  }

  lemma {:induction false} LeavesIff(s: string, i: nat, n: nat)
    requires i <= |s|
    ensures Leaves(s, i, n) <==> HasFence(Backquotes(n) + StripFrom(s, i))
    decreases |s| - i
  {
    var kept := Backquotes(n) + StripFrom(s, i);
    if n >= 3 {
      assert Ticks(kept, 0);
    } else if i == |s| {
    } else if FenceMatch(s, i) > 0 {
      LeavesIff(s, i + FenceMatch(s, i), n);
    } else if s[i] == '`' {
      LeavesIff(s, i + 1, n + 1);
      assert kept == Backquotes(n + 1) + StripFrom(s, i + 1);
    } else {
      LeavesIff(s, i + 1, 0);
      assert kept == Backquotes(n) + [s[i]] + StripFrom(s, i + 1);
      FenceAfter(n, s[i], StripFrom(s, i + 1));
      assert Backquotes(0) + StripFrom(s, i + 1) == StripFrom(s, i + 1);
    }
  }

  /** A fence has no blanks, so trimming neither makes nor breaks one. */
  lemma {:induction false} TrimKeepsFences(s: string)
    ensures HasFence(Trim(s)) <==> HasFence(s)
  {
    var before, after := TrimIs(s);
    FenceBetween(before, Trim(s), after);
  }

  lemma {:induction false} FenceBetween(before: string, body: string, after: string)
    requires AllBlank(before) && AllBlank(after)
    ensures HasFence(body) <==> HasFence(before + body + after)
  {
    var s, n, m := before + body + after, |before|, |body|;
    assert forall k :: 0 <= k < n ==> s[k] == before[k];
    assert forall k :: 0 <= k < m ==> s[n + k] == body[k];
    assert forall k :: n + m <= k < |s| ==> s[k] == after[k - n - m];
    if k :| 0 <= k < |s| && Ticks(s, k) {
      assert n <= k && k + 2 < n + m;
      assert Ticks(body, k - n);
    }
    if k :| 0 <= k < m && Ticks(body, k) {
      assert Ticks(s, n + k);
    }
  }

  lemma {:induction false} SecondTrimIff(raw: string)
    ensures TrimFences(TrimFences(raw)) == TrimFences(raw) <==> !HasFence(TrimFences(raw))
  {
    var r := TrimFences(raw);
    StripShortensIff(r);
    var before, after := TrimIs(StripFences(raw));
    if !HasFence(r) {
      TrimmedIsFixed(r);
    } else {
      assert |Trim(StripFences(r))| <= |StripFences(r)|;
    }
  }

  /** A second trim changes nothing exactly when a pass over the raw text keeps no three backquotes in a row. */
  lemma {:induction false} TrimFencesIdempotentIff(raw: string)
    ensures TrimFences(TrimFences(raw)) == TrimFences(raw) <==> !Leaves(raw, 0, 0)
  {
    SecondTrimIff(raw);
    TrimKeepsFences(StripFences(raw));
    LeavesIff(raw, 0, 0);
    assert Backquotes(0) + StripFrom(raw, 0) == StripFences(raw);
  }

  /** Removing one fence can bring another together. */
  lemma {:induction false} TrimFencesLeavesAFence()
    ensures TrimFences("``\n````") == "```" && HasFence("```")
  {
    var s := "``\n````";
    assert StripFrom(s, 7) == "";
    assert StripFrom(s, 6) == "`";
    assert Ticks(s, 3) && StripFrom(s, 2) == StripFrom(s, 6);
    assert !Ticks(s, 1) && StripFrom(s, 1) == ['`'] + "`";
    assert !Ticks(s, 0) && StripFrom(s, 0) == ['`'] + (['`'] + "`");
    assert StripFences(s) == "```";
    TrimmedIsFixed("```");
    assert Ticks("```", 0);
  }
}
