/** The .env file that is completed with generated secrets. */
module Secrets {
  import opened Prelude
  import opened Text

  /** A key of the table and the value its generator would hand out. */
  datatype Secret = Secret(key: string, value: string) {
    function Prefix(): string { key + "=" }

    function Line(): string { Prefix() + value }
  }

  /** What a dot does not match. */
  predicate IsLineEnd(c: char) {
    c == '\n' || c == '\r' || c == '\U{2028}' || c == '\U{2029}'
  }

  predicate OneLine(s: string) {
    forall i :: 0 <= i < |s| ==> !IsLineEnd(s[i])
  }

  /** The table: distinct keys without an equals sign, values on one line and not blank. */
  ghost predicate WellFormed(secrets: seq<Secret>) {
    && (forall i :: 0 <= i < |secrets| ==> GoodSecret(secrets[i]))
    && forall i, j :: 0 <= i < j < |secrets| ==> secrets[i].key != secrets[j].key
  }

  predicate GoodSecret(s: Secret) {
    '=' !in s.key && OneLine(s.Line()) && Trim(s.value) != ""
  }

  const KEYS: seq<string> := ["POSTGRES_PASSWORD", "BETTER_AUTH_SECRET", "ENCRYPTION_KEY", "INTERNAL_API_SECRET"]

  /** The characters of hexadecimal and of base64url texts. */
  predicate IsTokenChar(c: char) {
    '0' <= c <= '9' || 'A' <= c <= 'Z' || 'a' <= c <= 'z' || c == '-' || c == '_'
  }

  predicate IsToken(s: string) {
    s != "" && forall i :: 0 <= i < |s| ==> IsTokenChar(s[i])
  }

  /** The script's table, with what its generators hand out in this run. */
  function Table(values: seq<string>): (secrets: seq<Secret>)
    requires |values| == |KEYS|
    ensures |secrets| == |KEYS|
  {
    seq(|KEYS|, i requires 0 <= i < |KEYS| => Secret(KEYS[i], values[i]))
  }

  lemma {:induction false} TokenSecretIsGood(s: Secret)
    requires IsToken(s.key) && IsToken(s.value)
    ensures GoodSecret(s)
  {
    var line := s.Line();
    forall i | 0 <= i < |line| ensures !IsLineEnd(line[i]) {
      assert i < |s.key| ==> IsTokenChar(s.key[i]);
      assert i > |s.key| ==> IsTokenChar(s.value[i - |s.key| - 1]);
    }
    assert IsTokenChar(s.value[0]);
    TrimEmptyIff(s.value);
  }

  /** Whatever the generators hand out, the table is well formed. */
  lemma {:induction false} TableIsWellFormed(values: seq<string>)
    requires |values| == |KEYS| && forall i :: 0 <= i < |values| ==> IsToken(values[i])
    ensures WellFormed(Table(values))
  {
    forall i | 0 <= i < |KEYS| ensures GoodSecret(Table(values)[i]) {
      TokenSecretIsGood(Table(values)[i]);
    }
    DistinctKeys();
  }

  lemma {:induction false} DistinctKeys()
    ensures forall i, j :: 0 <= i < j < |KEYS| ==> KEYS[i] != KEYS[j]
  {
    assert KEYS[0][0] == 'P' && KEYS[1][0] == 'B' && KEYS[2][0] == 'E' && KEYS[3][0] == 'I';
  }

  // ---------- Looking a key up ----------

  /** The group of /^KEY=(.*)$/ on one line. */
  function Match(line: string, prefix: string): Option<string> {
    if StartsWith(line, prefix) && OneLine(line[|prefix|..]) then Some(line[|prefix|..]) else None
  }

  function GetVal(lines: seq<string>, prefix: string): Option<string> {
    if lines == [] then None
    else if Match(lines[0], prefix).Some? then Match(lines[0], prefix)
    else GetVal(lines[1..], prefix)
  }

  /** The first line that starts with the prefix, or |lines|. */
  function FindIndex(lines: seq<string>, prefix: string): (k: nat)
    ensures k <= |lines|
    ensures forall i :: 0 <= i < k ==> !StartsWith(lines[i], prefix)
    ensures k < |lines| ==> StartsWith(lines[k], prefix)
  {
    if lines == [] || StartsWith(lines[0], prefix) then 0 else 1 + FindIndex(lines[1..], prefix)
  }

  predicate Missing(lines: seq<string>, s: Secret) {
    Trim(GetVal(lines, s.Prefix()).GetOr("")) == ""
  }

  // ---------- Completing the lines ----------

  function Put(lines: seq<string>, s: Secret): seq<string> {
    var k := FindIndex(lines, s.Prefix());
    if k < |lines| then lines[k := s.Line()]
    else (if lines != [] && lines[|lines| - 1] != "" then lines + [""] else lines) + [s.Line()]
  }

  function Completed(lines: seq<string>, secrets: seq<Secret>): seq<string> {
    if secrets == [] then lines
    else
      var before, s := Completed(lines, secrets[..|secrets| - 1]), secrets[|secrets| - 1];
      if Missing(before, s) then Put(before, s) else before
  }

  /** The secrets that a run generates: those whose key the file lacks at the start. */
  function Generated(lines: seq<string>, secrets: seq<Secret>): seq<Secret> {
    if secrets == [] then []
    else
      var s := secrets[|secrets| - 1];
      Generated(lines, secrets[..|secrets| - 1]) + (if Missing(lines, s) then [s] else [])
  }

  function Lines(file: Option<string>): seq<string> {
    if file.GetOr("") == "" then [] else Split(file.value, '\n')
  }

  function FileAfter(file: Option<string>, secrets: seq<Secret>): Option<string> {
    if Generated(Lines(file), secrets) == [] then file else Some(Join(Completed(Lines(file), secrets), '\n'))
  }

  // ---------- The script ----------

  /** The line is the prefix and this value, and no line terminator stands in the value. */
  ghost predicate Assigns(line: string, prefix: string, value: string) {
    line == prefix + value && forall c :: c in value ==> c !in {'\n', '\r', '\U{2028}', '\U{2029}'}
  }

  /** What is found is the value of the first line that assigns one. */
  ghost predicate LookUpLaw(lines: seq<string>, prefix: string, found: Option<string>) {
    && (found.None? ==> forall i, v :: 0 <= i < |lines| ==> !Assigns(lines[i], prefix, v))
    && (found.Some? ==>
          exists i :: 0 <= i < |lines| && Assigns(lines[i], prefix, found.value) &&
            forall j, v :: 0 <= j < i ==> !Assigns(lines[j], prefix, v))
  }

  lemma {:induction false} MatchIs(line: string, prefix: string, v: string)
    ensures Match(line, prefix) == Some(v) <==> Assigns(line, prefix, v)
  {
    if Match(line, prefix) == Some(v) {
      assert line == line[..|prefix|] + line[|prefix|..];
    }
    if Assigns(line, prefix, v) {
      assert line[..|prefix|] == prefix && line[|prefix|..] == v;
      assert forall i :: 0 <= i < |v| ==> v[i] in v;
    }
  }

  lemma {:induction false} GetValIs(lines: seq<string>, prefix: string)
    ensures LookUpLaw(lines, prefix, GetVal(lines, prefix))
  {
    if lines == [] {
    } else {
      forall v ensures Match(lines[0], prefix) == Some(v) <==> Assigns(lines[0], prefix, v) {
        MatchIs(lines[0], prefix, v);
      }
      GetValIs(lines[1..], prefix);
      if Match(lines[0], prefix).None? {
        FoundLater(lines, prefix, GetVal(lines, prefix));
      }
    }
  }

  lemma {:induction false} FoundLater(lines: seq<string>, prefix: string, found: Option<string>)
    requires lines != [] && LookUpLaw(lines[1..], prefix, found) && forall v :: !Assigns(lines[0], prefix, v)
    ensures LookUpLaw(lines, prefix, found)
  {
    assert forall i :: 0 < i < |lines| ==> lines[i] == lines[1..][i - 1];
    if found.Some? {
      var i :| 0 <= i < |lines[1..]| && Assigns(lines[1..][i], prefix, found.value) &&
               forall j, v :: 0 <= j < i ==> !Assigns(lines[1..][j], prefix, v);
      assert Assigns(lines[i + 1], prefix, found.value);
    }
  }

  /** A key is lacking if no line assigns it a value, or the first one that does assigns it blanks. */
  ghost predicate Lacks(lines: seq<string>, s: Secret) {
    exists found: Option<string> :: LookUpLaw(lines, s.key + "=", found) && (found.Some? ==> AllBlank(found.value))
  }

  lemma {:induction false} OneLookUp(lines: seq<string>, prefix: string, a: Option<string>, b: Option<string>)
    requires LookUpLaw(lines, prefix, a) && LookUpLaw(lines, prefix, b)
    ensures a == b
  {
    if a.Some? && b.Some? {
      var i :| 0 <= i < |lines| && Assigns(lines[i], prefix, a.value) &&
               forall j, v :: 0 <= j < i ==> !Assigns(lines[j], prefix, v);
      var k :| 0 <= k < |lines| && Assigns(lines[k], prefix, b.value) &&
               forall j, v :: 0 <= j < k ==> !Assigns(lines[j], prefix, v);
      assert i == k;
      assert a.value == lines[i][|prefix|..] == b.value;
    }
  }

  lemma {:induction false} MissingIs(lines: seq<string>, s: Secret)
    ensures Missing(lines, s) <==> Lacks(lines, s)
  {
    var found := GetVal(lines, s.Prefix());
    GetValIs(lines, s.Prefix());
    TrimEmptyIff(found.GetOr(""));
    if Lacks(lines, s) {
      var other: Option<string> :| LookUpLaw(lines, s.key + "=", other) && (other.Some? ==> AllBlank(other.value));
      OneLookUp(lines, s.Prefix(), found, other);
    }
  }

  /** The generated secrets are those of the table that the file lacks, in the order of the table. */
  ghost predicate GeneratedLaw(lines: seq<string>, secrets: seq<Secret>, generated: seq<Secret>, at: seq<nat>) {
    && |at| == |generated| && (forall j :: 0 <= j < |at| ==> at[j] < |secrets| && generated[j] == secrets[at[j]])
    && (forall j, l :: 0 <= j < l < |at| ==> at[j] < at[l])
    && forall i: nat :: i in at <==> i < |secrets| && Lacks(lines, secrets[i])
  }

  lemma {:induction false} GeneratedNext(lines: seq<string>, secrets: seq<Secret>, s: Secret, generated: seq<Secret>, at: seq<nat>)
    requires GeneratedLaw(lines, secrets, generated, at)
    ensures Lacks(lines, s) ==> GeneratedLaw(lines, secrets + [s], generated + [s], at + [|secrets|])
    ensures !Lacks(lines, s) ==> GeneratedLaw(lines, secrets + [s], generated, at)
  {
    assert forall i: nat :: i < |secrets| ==> (secrets + [s])[i] == secrets[i];
    assert forall i: nat :: i in at + [|secrets|] <==> i in at || i == |secrets|;
  }

  lemma {:induction false} GeneratedIs(lines: seq<string>, secrets: seq<Secret>) returns (at: seq<nat>)
    ensures GeneratedLaw(lines, secrets, Generated(lines, secrets), at)
  {
    if secrets == [] {
      at := [];
    } else {
      var init, s := secrets[..|secrets| - 1], secrets[|secrets| - 1];
      at := GeneratedIs(lines, init);
      assert secrets == init + [s];
      GeneratedNext(lines, init, s, Generated(lines, init), at);
      MissingIs(lines, s);
      if Missing(lines, s) {
        at := at + [|init|];
      }
    }
  }

  method LookUp(lines: seq<string>, prefix: string) returns (found: Option<string>)
    ensures found == GetVal(lines, prefix)
    ensures LookUpLaw(lines, prefix, found)
  {
    GetValIs(lines, prefix);
    for i := 0 to |lines|
      invariant GetVal(lines, prefix) == GetVal(lines[i..], prefix)
    {
      var m := Match(lines[i], prefix);
      if m.Some? {
        return m;
      }
    }
    return None;
  }

  method SetLine(lines: seq<string>, s: Secret) returns (next: seq<string>)
    ensures next == Put(lines, s)
  {
    next := lines;
    var idx := FindIndex(next, s.Prefix());
    if idx < |next| {
      next := next[idx := s.Line()];
    } else {
      if |next| > 0 && next[|next| - 1] != "" {
        next := next + [""];
      }
      next := next + [s.Line()];
    }
  }

  /** written is the new file, or None when nothing is written. */
  method EnsureSecrets(file: Option<string>, secrets: seq<Secret>)
    returns (generated: seq<Secret>, written: Option<string>)
    requires WellFormed(secrets)
    ensures generated == Generated(Lines(file), secrets)
    ensures exists at :: GeneratedLaw(Lines(file), secrets, generated, at)
    ensures written == if generated == [] then None else FileAfter(file, secrets)
  {
    ghost var at := GeneratedIs(Lines(file), secrets);
    var contents := file.GetOr("");
    var lines := if |contents| == 0 then [] else Split(contents, '\n');
    generated := [];
    assert secrets[..0] == [];
    for n := 0 to |secrets|
      invariant lines == Completed(Lines(file), secrets[..n])
      invariant generated == Generated(Lines(file), secrets[..n])
    {
      assert secrets[..n + 1][..n] == secrets[..n];
      LaterKeysUntouched(Lines(file), secrets, n);
      var s := secrets[n];
      var existing := LookUp(lines, s.Prefix());
      if existing.Some? && Trim(existing.value) != "" {
        continue;
      }
      lines := SetLine(lines, s);
      generated := generated + [s];
    }
    assert secrets[..|secrets|] == secrets;
    written := if |generated| > 0 then Some(Join(lines, '\n')) else None;
  }

  // ---------- One put ----------

  lemma {:induction false} GetValSkips(a: seq<string>, b: seq<string>, prefix: string)
    requires forall i :: 0 <= i < |a| ==> Match(a[i], prefix).None?
    ensures GetVal(a + b, prefix) == GetVal(b, prefix)
  {
    if a == [] {
      assert a + b == b;
    } else {
      assert (a + b)[1..] == a[1..] + b;
      GetValSkips(a[1..], b, prefix);
    }
  }

  /** Only the lines that match decide what is looked up. */
  lemma {:induction false} GetValSame(a: seq<string>, b: seq<string>, prefix: string)
    requires |a| == |b| && forall i :: 0 <= i < |a| ==> Match(a[i], prefix) == Match(b[i], prefix)
    ensures GetVal(a, prefix) == GetVal(b, prefix)
  {
    if a == [] {
    } else {
      GetValSame(a[1..], b[1..], prefix);
    }
  }

  lemma {:induction false} MatchOwn(s: Secret)
    requires GoodSecret(s)
    ensures Match(s.Line(), s.Prefix()) == Some(s.value)
  {
    var n := |s.Prefix()|;
    assert s.Line()[n..] == s.value && s.Line()[..n] == s.Prefix();
    assert forall i :: 0 <= i < |s.value| ==> s.value[i] == s.Line()[n + i];
  }

  /** A line cannot start with two different keys. */
  lemma {:induction false} OneKeyALine(line: string, s: Secret, other: Secret)
    requires StartsWith(line, s.Prefix()) && StartsWith(line, other.Prefix())
    requires '=' !in s.key && '=' !in other.key
    ensures s.key == other.key
  {
    assert line[|s.key|] == s.Prefix()[|s.key|] == '=';
    assert line[|other.key|] == other.Prefix()[|other.key|] == '=';
    assert s.key == s.Prefix()[..|s.key|] == line[..|s.key|];
    assert other.key == other.Prefix()[..|other.key|] == line[..|other.key|];
  }

  lemma {:induction false} PutGives(lines: seq<string>, s: Secret)
    requires GoodSecret(s)
    ensures GetVal(Put(lines, s), s.Prefix()) == Some(s.value) && !Missing(Put(lines, s), s)
  {
    var k := FindIndex(lines, s.Prefix());
    if k < |lines| {
      assert Put(lines, s) == lines[..k] + ([s.Line()] + lines[k + 1..]);
      FirstLineGives(lines[..k], s, lines[k + 1..]);
    } else {
      var padded := if lines != [] && lines[|lines| - 1] != "" then lines + [""] else lines;
      assert Put(lines, s) == padded + ([s.Line()] + []);
      FirstLineGives(padded, s, []);
    }
  }

  lemma {:induction false} FirstLineGives(before: seq<string>, s: Secret, after: seq<string>)
    requires GoodSecret(s) && forall i :: 0 <= i < |before| ==> Match(before[i], s.Prefix()).None?
    ensures var lines := before + ([s.Line()] + after); GetVal(lines, s.Prefix()) == Some(s.value) && !Missing(lines, s)
  {
    GetValSkips(before, [s.Line()] + after, s.Prefix());
    MatchOwn(s);
  }

  /** The line that a put writes, and the one it overwrites, are no lines of another key. */
  lemma {:induction false} PutTouchesOwnLines(lines: seq<string>, s: Secret, other: Secret)
    requires GoodSecret(s) && GoodSecret(other) && s.key != other.key
    ensures !StartsWith(s.Line(), other.Prefix())
    ensures var k := FindIndex(lines, s.Prefix()); k < |lines| ==> !StartsWith(lines[k], other.Prefix())
  {
    var k, prefix := FindIndex(lines, s.Prefix()), other.Prefix();
    assert s.Line()[..|s.Prefix()|] == s.Prefix();
    if StartsWith(s.Line(), prefix) {
      OneKeyALine(s.Line(), s, other);
    }
    if k < |lines| && StartsWith(lines[k], prefix) {
      OneKeyALine(lines[k], s, other);
    }
  }

  lemma {:induction false} PutKeepsOthers(lines: seq<string>, s: Secret, other: Secret)
    requires GoodSecret(s) && GoodSecret(other) && s.key != other.key
    ensures GetVal(Put(lines, s), other.Prefix()) == GetVal(lines, other.Prefix())
  {
    PutTouchesOwnLines(lines, s, other);
    if FindIndex(lines, s.Prefix()) < |lines| {
      GetValSame(lines, Put(lines, s), other.Prefix());
    } else {
      PutAppends(lines, s, other.Prefix());
    }
  }

  lemma {:induction false} PutAppends(lines: seq<string>, s: Secret, prefix: string)
    requires FindIndex(lines, s.Prefix()) == |lines| && !StartsWith(s.Line(), prefix) && prefix != ""
    ensures GetVal(Put(lines, s), prefix) == GetVal(lines, prefix)
  {
    if lines != [] && lines[|lines| - 1] != "" {
      assert Put(lines, s) == lines + ["", s.Line()];
      NothingFound(lines, ["", s.Line()], prefix);
    } else {
      NothingFound(lines, [s.Line()], prefix);
    }
  }

  lemma {:induction false} NothingFound(lines: seq<string>, added: seq<string>, prefix: string)
    requires forall i :: 0 <= i < |added| ==> Match(added[i], prefix).None?
    ensures GetVal(lines + added, prefix) == GetVal(lines, prefix)
  {
    if lines == [] {
      assert lines + added == added == added + [];
      GetValSkips(added, [], prefix);
    } else {
      assert (lines + added)[1..] == lines[1..] + added;
      NothingFound(lines[1..], added, prefix);
    }
  }

  // ---------- A whole run ----------

  /** Keys that are still to come are looked up as in the file that was read. */
  lemma {:induction false} LaterKeysUntouched(lines: seq<string>, secrets: seq<Secret>, n: nat)
    requires WellFormed(secrets) && n <= |secrets|
    ensures forall j :: n <= j < |secrets| ==>
              GetVal(Completed(lines, secrets[..n]), secrets[j].Prefix()) == GetVal(lines, secrets[j].Prefix())
  {
    if n == 0 {
    } else {
      LaterKeysUntouched(lines, secrets, n - 1);
      assert secrets[..n][..n - 1] == secrets[..n - 1];
      forall j | n <= j < |secrets|
        ensures GetVal(Completed(lines, secrets[..n]), secrets[j].Prefix()) == GetVal(lines, secrets[j].Prefix())
      {
        PutKeepsOthers(Completed(lines, secrets[..n - 1]), secrets[n - 1], secrets[j]);
      }
    }
  }

  /**
    After a run every key has a value that is not blank: the one it had, or the generated one where
    it had none.
    */
  lemma {:induction false} EveryKeyHasAValue(lines: seq<string>, secrets: seq<Secret>, n: nat, j: nat)
    requires WellFormed(secrets) && j < n <= |secrets|
    ensures GetVal(Completed(lines, secrets[..n]), secrets[j].Prefix()) ==
            if Missing(lines, secrets[j]) then Some(secrets[j].value) else GetVal(lines, secrets[j].Prefix())
    ensures !Missing(Completed(lines, secrets[..n]), secrets[j])
  {
    var before := Completed(lines, secrets[..n - 1]);
    assert secrets[..n][..n - 1] == secrets[..n - 1];
    if j == n - 1 {
      LaterKeysUntouched(lines, secrets, n - 1);
      PutGives(before, secrets[j]);
    } else {
      EveryKeyHasAValue(lines, secrets, n - 1, j);
      PutKeepsOthers(before, secrets[n - 1], secrets[j]);
    }
  }

  lemma {:induction false} NothingMissing(lines: seq<string>, secrets: seq<Secret>)
    requires forall j :: 0 <= j < |secrets| ==> !Missing(lines, secrets[j])
    ensures Generated(lines, secrets) == [] && Completed(lines, secrets) == lines
  {
    if secrets == [] {
    } else {
      NothingMissing(lines, secrets[..|secrets| - 1]);
    }
  }

  lemma {:induction false} LinesStayLines(lines: seq<string>, secrets: seq<Secret>)
    requires forall i :: 0 <= i < |secrets| ==> GoodSecret(secrets[i])
    requires forall i :: 0 <= i < |lines| ==> '\n' !in lines[i]
    ensures forall i :: 0 <= i < |Completed(lines, secrets)| ==> '\n' !in Completed(lines, secrets)[i]
  {
    if secrets == [] {
    } else {
      var n := |secrets| - 1;
      LinesStayLines(lines, secrets[..n]);
      PutStaysLines(Completed(lines, secrets[..n]), secrets[n]);
    }
  }

  lemma {:induction false} PutStaysLines(lines: seq<string>, s: Secret)
    requires GoodSecret(s) && forall i :: 0 <= i < |lines| ==> '\n' !in lines[i]
    ensures forall i :: 0 <= i < |Put(lines, s)| ==> '\n' !in Put(lines, s)[i]
  {
    assert '\n' !in s.Line();
  }

  lemma {:induction false} NothingGenerated(lines: seq<string>, secrets: seq<Secret>)
    requires Generated(lines, secrets) == []
    ensures Completed(lines, secrets) == lines
  {
    if secrets == [] {
    } else {
      NothingGenerated(lines, secrets[..|secrets| - 1]);
    }
  }

  lemma {:induction false} WrittenFileIsNotEmpty(lines: seq<string>, secrets: seq<Secret>)
    requires WellFormed(secrets) && Generated(lines, secrets) != []
    requires forall i :: 0 <= i < |lines| ==> '\n' !in lines[i]
    ensures Completed(lines, secrets) != [] && Join(Completed(lines, secrets), '\n') != ""
  {
    var done := Completed(lines, secrets);
    assert secrets[..|secrets|] == secrets;
    EveryKeyHasAValue(lines, secrets, |secrets|, 0);
    LinesStayLines(lines, secrets);
    if done != [] && Join(done, '\n') == "" {
      SplitJoin(done, '\n');
    }
  }

  /** The new file is read back as the lines that were written. */
  lemma {:induction false} ReadBack(file: Option<string>, secrets: seq<Secret>)
    requires WellFormed(secrets)
    ensures Lines(FileAfter(file, secrets)) == Completed(Lines(file), secrets)
  {
    var lines := Lines(file);
    var done := Completed(lines, secrets);
    if Generated(lines, secrets) == [] {
      NothingGenerated(lines, secrets);
    } else {
      LinesStayLines(lines, secrets);
      WrittenFileIsNotEmpty(lines, secrets);
      SplitJoin(done, '\n');
    }
  }

  /** A second run generates nothing and leaves the file alone. */
  lemma {:induction false} SecondRunDoesNothing(file: Option<string>, secrets: seq<Secret>, again: seq<Secret>)
    requires WellFormed(secrets) && WellFormed(again)
    requires |again| == |secrets| && forall j :: 0 <= j < |secrets| ==> again[j].key == secrets[j].key
    ensures Generated(Lines(FileAfter(file, secrets)), again) == []
    ensures FileAfter(FileAfter(file, secrets), again) == FileAfter(file, secrets)
  {
    ReadBack(file, secrets);
    var done := Completed(Lines(file), secrets);
    assert secrets[..|secrets|] == secrets;
    forall j | 0 <= j < |again| ensures !Missing(done, again[j]) {
      EveryKeyHasAValue(Lines(file), secrets, |secrets|, j);
    }
    NothingMissing(done, again);
  }

  // ---------- What happens to each line ----------

  lemma {:induction false} FindIndexIs(lines: seq<string>, prefix: string, k: nat)
    requires k <= |lines| && (k < |lines| ==> StartsWith(lines[k], prefix))
    requires forall i :: 0 <= i < k ==> !StartsWith(lines[i], prefix)
    ensures FindIndex(lines, prefix) == k
  {
  }

  /** Where the first line of another key stands does not change. */
  lemma {:induction false} PutKeepsIndex(lines: seq<string>, s: Secret, other: Secret)
    requires GoodSecret(s) && GoodSecret(other) && s.key != other.key
    ensures FindIndex(Put(lines, s), other.Prefix()) ==
            if FindIndex(lines, other.Prefix()) < |lines| then FindIndex(lines, other.Prefix()) else |Put(lines, s)|
  {
    var prefix, put := other.Prefix(), Put(lines, s);
    PutTouchesOwnLines(lines, s, other);
    FindIndexIs(put, prefix, if FindIndex(lines, prefix) < |lines| then FindIndex(lines, prefix) else |put|);
  }

  lemma {:induction false} LaterIndexesKept(lines: seq<string>, secrets: seq<Secret>, n: nat, j: nat)
    requires WellFormed(secrets) && n <= j < |secrets|
    ensures |lines| <= |Completed(lines, secrets[..n])|
    ensures var k := FindIndex(lines, secrets[j].Prefix());
            FindIndex(Completed(lines, secrets[..n]), secrets[j].Prefix()) ==
            if k < |lines| then k else |Completed(lines, secrets[..n])|
  {
    if n == 0 {
    } else {
      LaterIndexesKept(lines, secrets, n - 1, j);
      assert secrets[..n][..n - 1] == secrets[..n - 1];
      PutKeepsIndex(Completed(lines, secrets[..n - 1]), secrets[n - 1], secrets[j]);
    }
  }

  /** Key j is generated and its first line is line i. */
  predicate Replaces(lines: seq<string>, s: Secret, i: nat) {
    Missing(lines, s) && FindIndex(lines, s.Prefix()) == i
  }

  lemma {:induction false} OneReplacer(lines: seq<string>, s: Secret, other: Secret, i: nat)
    requires GoodSecret(s) && GoodSecret(other) && s.key != other.key && i < |lines| && Replaces(lines, s, i)
    ensures !Replaces(lines, other, i)
  {
    if Replaces(lines, other, i) {
      OneKeyALine(lines[i], s, other);
    }
  }

  lemma {:induction false} LineAfterPut(lines: seq<string>, s: Secret, i: nat)
    requires i < |lines|
    ensures |lines| <= |Put(lines, s)|
    ensures Put(lines, s)[i] == if FindIndex(lines, s.Prefix()) == i then s.Line() else lines[i]
  {
  }

  /**
    Every line keeps its place, and keeps its text unless it is the first line of a key that is
    generated; then it becomes that key's new line.
    */
  lemma {:induction false} EveryLineAfter(lines: seq<string>, secrets: seq<Secret>, n: nat, i: nat)
    requires WellFormed(secrets) && n <= |secrets| && i < |lines|
    ensures |lines| <= |Completed(lines, secrets[..n])|
    ensures forall j :: 0 <= j < n && Replaces(lines, secrets[j], i) ==> Completed(lines, secrets[..n])[i] == secrets[j].Line()
    ensures (forall j :: 0 <= j < n ==> !Replaces(lines, secrets[j], i)) ==> Completed(lines, secrets[..n])[i] == lines[i]
  {
    if n == 0 {
    } else {
      EveryLineAfter(lines, secrets, n - 1, i);
      NextLineAfter(lines, secrets, n - 1, i);
      forall j | 0 <= j < n - 1 && Replaces(lines, secrets[j], i) ensures !Replaces(lines, secrets[n - 1], i) {
        OneReplacer(lines, secrets[j], secrets[n - 1], i);
      }
    }
  }

  /** What the next secret does to a line of the file that was read. */
  lemma {:induction false} NextLineAfter(lines: seq<string>, secrets: seq<Secret>, n: nat, i: nat)
    requires WellFormed(secrets) && n < |secrets| && i < |lines|
    ensures |lines| <= |Completed(lines, secrets[..n])| && |lines| <= |Completed(lines, secrets[..n + 1])|
    ensures Completed(lines, secrets[..n + 1])[i] ==
            if Replaces(lines, secrets[n], i) then secrets[n].Line() else Completed(lines, secrets[..n])[i]
  {
    assert secrets[..n + 1][..n] == secrets[..n];
    LaterKeysUntouched(lines, secrets, n);
    LaterIndexesKept(lines, secrets, n, n);
    LineAfterPut(Completed(lines, secrets[..n]), secrets[n], i);
  }

  /**
    A value that stands in the file is lost exactly when its line is the key's first and no line of
    the key matches with a value, as when a carriage return ends the line.
    */
  lemma {:induction false} ValueLostIff(lines: seq<string>, secrets: seq<Secret>, i: nat, j: nat)
    requires WellFormed(secrets) && i < |lines| && j < |secrets|
    requires StartsWith(lines[i], secrets[j].Prefix()) && Trim(lines[i][|secrets[j].Prefix()|..]) != ""
    ensures |lines| <= |Completed(lines, secrets)|
    ensures Completed(lines, secrets)[i] != lines[i] <==> Replaces(lines, secrets[j], i)
  {
    var n, s := |secrets|, secrets[j];
    assert secrets[..n] == secrets;
    EveryLineAfter(lines, secrets, n, i);
    if Replaces(lines, s, i) {
      MatchOwn(s);
      if lines[i] == s.Line() {
        FirstMatch(lines, s.Prefix(), i);
      }
    }
    forall m | 0 <= m < n && Replaces(lines, secrets[m], i) ensures m == j {
      OneKeyALine(lines[i], secrets[m], s);
    }
  }

  lemma {:induction false} FirstMatch(lines: seq<string>, prefix: string, i: nat)
    requires i < |lines| && FindIndex(lines, prefix) == i && Match(lines[i], prefix).Some?
    ensures GetVal(lines, prefix) == Match(lines[i], prefix)
  {
    assert lines == lines[..i] + lines[i..];
    GetValSkips(lines[..i], lines[i..], prefix);
  }

  /** In a file without carriage returns and the like no value is ever lost. */
  lemma {:induction false} CleanFileKeepsValues(lines: seq<string>, secrets: seq<Secret>, i: nat, j: nat)
    requires WellFormed(secrets) && i < |lines| && j < |secrets|
    requires OneLine(lines[i])
    requires StartsWith(lines[i], secrets[j].Prefix()) && Trim(lines[i][|secrets[j].Prefix()|..]) != ""
    ensures |lines| <= |Completed(lines, secrets)| && Completed(lines, secrets)[i] == lines[i]
  {
    ValueLostIff(lines, secrets, i, j);
    var n := |secrets[j].Prefix()|;
    assert forall k :: 0 <= k < |lines[i][n..]| ==> lines[i][n..][k] == lines[i][n + k];
    if Replaces(lines, secrets[j], i) {
      FirstMatch(lines, secrets[j].Prefix(), i);
    }
  }

  /** A spacer, or the line of one of the first n secrets that is generated and had no line. */
  ghost predicate AppendedText(lines: seq<string>, secrets: seq<Secret>, n: nat, text: string)
    requires n <= |secrets|
  {
    text == "" || exists j :: 0 <= j < n && Replaces(lines, secrets[j], |lines|) && text == secrets[j].Line()
  }

  ghost predicate AppendedUpTo(lines: seq<string>, secrets: seq<Secret>, n: nat, i: nat)
    requires n <= |secrets|
  {
    i < |Completed(lines, secrets[..n])| ==> AppendedText(lines, secrets, n, Completed(lines, secrets[..n])[i])
  }

  /** What a run appends is nothing but spacer lines and the lines of generated keys that had none. */
  lemma {:induction false} AppendedLine(lines: seq<string>, secrets: seq<Secret>, n: nat, i: nat)
    requires WellFormed(secrets) && n <= |secrets|
    requires |lines| <= i < |Completed(lines, secrets[..n])|
    ensures AppendedText(lines, secrets, n, Completed(lines, secrets[..n])[i])
  {
    var k := 0;
    assert secrets[..0] == [];
    while k < n
      invariant k <= n && AppendedUpTo(lines, secrets, k, i)
    {
      if i < |Completed(lines, secrets[..k + 1])| {
        NextAppended(lines, secrets, k, i);
      }
      k := k + 1;
    }
  }

  lemma {:induction false} NextAppended(lines: seq<string>, secrets: seq<Secret>, n: nat, i: nat)
    requires WellFormed(secrets) && n < |secrets|
    requires |lines| <= i < |Completed(lines, secrets[..n + 1])|
    requires AppendedUpTo(lines, secrets, n, i)
    ensures AppendedText(lines, secrets, n + 1, Completed(lines, secrets[..n + 1])[i])
  {
    var before, s := Completed(lines, secrets[..n]), secrets[n];
    assert secrets[..n + 1][..n] == secrets[..n];
    LaterKeysUntouched(lines, secrets, n);
    LaterIndexesKept(lines, secrets, n, n);
    if i >= |before| {
      PutBeyond(before, s, i);
      assert Replaces(lines, s, |lines|);
    } else {
      LineAfterPut(before, s, i);
    }
  }

  lemma {:induction false} PutBeyond(lines: seq<string>, s: Secret, i: nat)
    requires |lines| <= i < |Put(lines, s)|
    ensures FindIndex(lines, s.Prefix()) == |lines| && Put(lines, s)[i] in ["", s.Line()]
  {
  }

  // ---------- A fresh file ----------

  /** One line for each secret, in the order of the table, with an empty line between any two. */
  ghost predicate Spaced(lines: seq<string>, secrets: seq<Secret>) {
    && |lines| == (if secrets == [] then 0 else 2 * |secrets| - 1)
    && (forall j :: 0 <= j < |secrets| ==> lines[2 * j] == secrets[j].key + "=" + secrets[j].value)
    && forall j :: 0 <= j < |secrets| - 1 ==> lines[2 * j + 1] == ""
  }

  /** Nothing assigns the key of a secret that is still to come. */
  lemma {:induction false} SpacedLacks(lines: seq<string>, secrets: seq<Secret>, n: nat)
    requires WellFormed(secrets) && n < |secrets| && Spaced(lines, secrets[..n])
    ensures FindIndex(lines, secrets[n].Prefix()) == |lines| && Missing(lines, secrets[n])
  {
    var s := secrets[n];
    forall i | 0 <= i < |lines| ensures !StartsWith(lines[i], s.Prefix()) {
      if i % 2 == 0 {
        assert lines[2 * (i / 2)] == secrets[i / 2].Line();
        PutTouchesOwnLines([], secrets[i / 2], s);
      } else {
        assert lines[2 * (i / 2) + 1] == "";
      }
    }
    GetValSkips(lines, [], s.Prefix());
    assert lines + [] == lines;
  }

  lemma {:induction false} SpacedGrows(lines: seq<string>, secrets: seq<Secret>, s: Secret)
    requires Spaced(lines, secrets) && FindIndex(lines, s.Prefix()) == |lines|
    requires forall i :: 0 <= i < |secrets| ==> secrets[i].Line() != ""
    ensures Spaced(Put(lines, s), secrets + [s])
  {
    if secrets != [] {
      var n := |secrets| - 1;
      assert lines[2 * n] == secrets[n].Line() && Put(lines, s) == lines + ["", s.Line()];
    }
  }

  /** A run on no file, or an empty one, writes exactly those lines. */
  lemma {:induction false} FreshFile(file: Option<string>, secrets: seq<Secret>, n: nat)
    requires file.GetOr("") == "" && WellFormed(secrets) && n <= |secrets|
    ensures Spaced(Completed(Lines(file), secrets[..n]), secrets[..n])
  {
    if n == 0 {
    } else {
      FreshFile(file, secrets, n - 1);
      var before := Completed(Lines(file), secrets[..n - 1]);
      assert secrets[..n][..n - 1] == secrets[..n - 1] && secrets[..n - 1] + [secrets[n - 1]] == secrets[..n];
      SpacedLacks(before, secrets, n - 1);
      SpacedGrows(before, secrets[..n - 1], secrets[n - 1]);
    }
  }
}
