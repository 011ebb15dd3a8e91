/** How far the interpolation loop is a substitution: exactly which values and templates break it. */
module InterpolationLimits {
  import opened Prelude
  import opened Text
  import opened Interpolation

  lemma {:induction false} ReplaceFills(text: string, x: Var)
    requires Literal(x.value)
    ensures Replace(text, x) == Fill(text, x)
  {
    ReplaceIsFill(text, 0, x);
    assert text[0..] == text;
  }

  lemma {:induction false} ReplaceTwo(text: string, x: Var, y: Var)
    ensures ReplaceAll(text, [x, y]) == Replace(Replace(text, x), y)
  {
    assert [x, y][..1] == [x] && [x][..0] == [];
    assert ReplaceAll(text, [x]) == Replace(ReplaceAll(text, []), x);
  }

  // ---------- Names and values of a length ----------

  function Word(n: nat): (w: string)
    ensures |w| == n
  {
    seq(n, _ => 'a')
  }

  lemma {:induction false} WordIsPlain(n: nat)
    ensures BraceFree(Word(n)) && Literal(Word(n))
  {
    if n == 0 {
    } else {
      WordIsPlain(n - 1);
      assert Word(n)[1..] == Word(n - 1);
    }
  }

  // ---------- Dollars in a value ----------

  /** Alone in its template, a match longer than the value either shows or is lost with its dollar sequence. */
  lemma {:induction false} ExpandedLength(v: string, matched: string)
    requires |matched| > |v|
    ensures |Expand(v, "", matched, "")| <= |v| || |Expand(v, "", matched, "")| >= |matched|
    ensures !Literal(v) ==> |Expand(v, "", matched, "")| != |v|
  {
    if v == "" {
    } else {
      ExpandedLength(v[1..], matched);
      if |v| >= 2 {
        ExpandedLength(v[2..], matched);
      }
    }
  }

  /** A variable whose placeholder, as the whole template, gives the dollar sequence in v away. */
  function Revealing(v: string): (x: Var)
    ensures BraceFree(x.key) && x.value == v && |x.Placeholder()| > |v|
  {
    WordIsPlain(|v|);
    Var(Word(|v|), v)
  }

  lemma {:induction false} PlaceholderAlone(x: Var)
    ensures Replace(x.Placeholder(), x) == Expand(x.value, "", x.Placeholder(), "")
    ensures Fill(x.Placeholder(), x) == x.value
    ensures x.Placeholder() == Placed(x.key, "")
  {
    var p := x.Placeholder();
    assert p[0..] == p && p[..0] == "" && p[|p|..] == "";
    assert StartsWith(p[0..], p) && ReplaceFrom(p, |p|, x) == "";
    assert Replace(p, x) == Expand(x.value, p[..0], p, p[0 + |p|..]) + ReplaceFrom(p, 0 + |p|, x);
    assert x.value + "" == x.value;
  }

  lemma {:induction false} NotLiteralShows(v: string)
    requires !Literal(v)
    ensures var x := Revealing(v); Replace(x.Placeholder(), x) != Fill(x.Placeholder(), x)
  {
    var x := Revealing(v);
    PlaceholderAlone(x);
    ExpandedLength(v, x.Placeholder());
  }

  /** A value goes in as it is, into every template and under every key, exactly when it is literal. */
  lemma {:induction false} LiteralIff(v: string)
    ensures Literal(v) <==>
            forall key: string, text: string :: BraceFree(key) ==> Replace(text, Var(key, v)) == Fill(text, Var(key, v))
  {
    if Literal(v) {
      forall key: string, text: string ensures Replace(text, Var(key, v)) == Fill(text, Var(key, v)) {
        ReplaceFills(text, Var(key, v));
      }
    } else {
      NotLiteralShows(v);
      var x := Revealing(v);
      assert x == Var(x.key, v);
    }
  }

  /** A dollar sequence in a value is expanded: the placeholder puts itself back. */
  lemma {:induction false} DollarsInAValue()
    ensures Replace("{a}", Var("a", "$&")) == "{a}"
  {
    var x := Var("a", "$&");
    assert x.Placeholder() == "{a}" && "{a}"[0..] == "{a}";
    assert Expand("$&"[2..], "", "{a}", "") == "";
    assert Expand("$&", "", "{a}", "") == "{a}" + "";
    assert "{a}"[..0] == "" && "{a}"[3..] == "";
  }

  // ---------- A long value shows ----------

  /** A placeholder that starts before an opening brace ends before it. */
  lemma {:induction false} PlaceholderEndsBefore(a: string, s: string, x: Var)
    requires BraceFree(x.key) && a != "" && s != "" && s[0] == '{' && StartsWith(a + s, x.Placeholder())
    ensures StartsWith(a, x.Placeholder())
  {
    var p := x.Placeholder();
    assert (a + s)[|a|] == '{';
    assert forall k :: 0 <= k < |p| ==> (a + s)[k] == p[k];
    assert forall k :: 0 < k < |p| ==> p[k] != '{';
    assert a[..|p|] == (a + s)[..|p|];
  }

  lemma {:induction false} StaysAPrefix(a: string, s: string, p: string)
    ensures StartsWith(a, p) ==> StartsWith(a + s, p)
  {
    if |p| <= |a| {
      assert (a + s)[..|p|] == a[..|p|];
    }
  }

  lemma {:induction false} FillAtBrace(a: string, s: string, x: Var)
    requires BraceFree(x.key) && s != "" && s[0] == '{'
    ensures Fill(a + s, x) == Fill(a, x) + Fill(s, x)
  {
    var p := x.Placeholder();
    if a == "" {
      assert a + s == s;
    } else if StartsWith(a + s, p) {
      PlaceholderEndsBefore(a, s, x);
      assert (a + s)[|p|..] == a[|p|..] + s;
      FillAtBrace(a[|p|..], s, x);
    } else {
      StaysAPrefix(a, s, p);
      assert (a + s)[1..] == a[1..] + s;
      FillAtBrace(a[1..], s, x);
    }
  }

  /** Filling in a variable whose placeholder stands somewhere makes the text as long as the value. */
  lemma {:induction false} LongFill(a: string, rest: string, y: Var)
    requires BraceFree(y.key)
    ensures |Fill(a + Placed(y.key, rest), y)| >= |y.value|
  {
    FillAtBrace(a, Placed(y.key, rest), y);
    FillPlaced(y.key, rest, y);
  }

  lemma {:induction false} FillHole(h: string, name: string, rest: string, x: Var)
    requires BraceFree(h) && BraceFree(name) && BraceFree(x.key)
    ensures Fill(h + Placed(name, rest), x) ==
            h + (if name == x.key then x.value + Fill(rest, x) else Placed(name, Fill(rest, x)))
  {
    FillConcat(h, Placed(name, rest), x);
    FillPlaced(name, rest, x);
  }

  lemma {:induction false} FillEnd(h: string, rest: string, x: Var)
    requires BraceFree(h)
    ensures Fill(h + (['}'] + rest), x) == h + (['}'] + Fill(rest, x))
  {
    FillConcat(h, ['}'] + rest, x);
    assert x.Placeholder()[0] == '{' && (['}'] + rest)[1..] == rest;
  }

  // ---------- Braces in a value ----------

  /** With this value the loop is a substitution in every template, under every key, beside every plain variable. */
  ghost predicate SafeValue(v: string) {
    forall key: string, y: Var, text: string :: BraceFree(key) && Plain(y) && y.key != key && NoNesting(text) ==>
      ReplaceAll(text, [Var(key, v), y]) == Substitute(text, Bindings([Var(key, v), y]))
  }

  ghost predicate Breaks(v: string, key: string, y: Var, text: string) {
    && BraceFree(key) && Plain(y) && y.key != key && NoNesting(text)
    && ReplaceAll(text, [Var(key, v), y]) != Substitute(text, Bindings([Var(key, v), y]))
  }

  lemma {:induction false} BindingsOfTwo(x: Var, y: Var)
    ensures Bindings([x, y]) == map[][x.key := x.value][y.key := y.value]
  {
    assert [x, y][..1] == [x] && [x][..0] == [];
    assert Bindings([x]) == Bindings([])[x.key := x.value];
  }

  /** Filled in, the two variables make the text longer than any substitution of it. */
  lemma {:induction false} LongerThanSubstituted(text: string, x: Var, y: Var, a: string, rest: string)
    requires Literal(x.value) && BraceFree(x.key) && Plain(y) && y.key != x.key && NoNesting(text)
    requires Fill(text, x) == a + Placed(y.key, rest)
    requires |y.value| > |Substitute(text, map[][x.key := x.value][y.key := y.value])|
    ensures Breaks(x.value, x.key, y, text)
  {
    BindingsOfTwo(x, y);
    assert [Var(x.key, x.value), y] == [x, y];
    ReplaceTwo(text, x, y);
    ReplaceFills(text, x);
    ReplaceFills(a + Placed(y.key, rest), y);
    LongFill(a, rest, y);
  }

  /** A plain variable with this name and a value of this length. */
  lemma {:induction false} LongVar(name: string, n: nat) returns (y: Var)
    requires BraceFree(name)
    ensures Plain(y) && y.key == name && |y.value| == n
  {
    y := Var(name, Word(n));
    WordIsPlain(n);
  }

  lemma {:induction false} NothingAfter(name: string)
    requires BraceFree(name)
    ensures NoNesting(Placed(name, ""))
  {
    NoNestingPlaced(name, "");
  }

  /** A value with a whole placeholder in it: another variable of that name fills it. */
  lemma {:induction false} WholePlaceholder(v: string, p: string, name: string, rest: string)
    returns (key: string, y: Var, text: string)
    requires Literal(v) && BraceFree(name) && v == p + Placed(name, rest)
    ensures Breaks(v, key, y, text)
  {
    key := if name == "a" then "b" else "a";
    text := Placed(key, "");
    y := LongVar(name, |v| + 1);
    NothingAfter(key);
    FillPlaced(key, "", Var(key, v));
    assert v + "" == v && Fill("", Var(key, v)) == "";
    SubstitutePlaced(key, "", map[][key := v][y.key := y.value]);
    LongerThanSubstituted(text, Var(key, v), y, p, rest);
  }

  /** What the template of OpenEnd substitutes to. */
  lemma {:induction false} OpenEndSubstituted(key: string, v: string, bound: map<string, string>)
    requires BraceFree(key) && key in bound && bound[key] == v
    ensures |Substitute(Placed(key, "aa" + (['}'] + "")), bound)| == |v| + 3
  {
    SubstitutePlaced(key, "aa" + (['}'] + ""), bound);
    SubstituteConcat("aa", ['}'] + "", bound);
    SubstituteNoPlaceholder('}', "", bound);
  }

  lemma {:induction false} OpenEndNests(key: string)
    requires BraceFree(key)
    ensures NoNesting(Placed(key, "aa" + (['}'] + "")))
  {
    assert (['}'] + "")[1..] == "" && NoNesting("");
    NoNestingConcat("aa", ['}'] + "");
    NoNestingPlaced(key, "aa" + (['}'] + ""));
  }

  lemma {:induction false} OpenEndFilled(x: Var, p: string, t: string)
    requires BraceFree(x.key) && BraceFree(t) && x.value == p + (['{'] + t)
    ensures Fill(Placed(x.key, "aa" + (['}'] + "")), x) == p + Placed(t + "aa", "")
  {
    FillPlaced(x.key, "aa" + (['}'] + ""), x);
    FillEnd("aa", "", x);
    assert Fill("", x) == "";
    OpenEndAround(p, t);
  }

  lemma {:induction false} OpenEndAround(p: string, t: string)
    ensures p + (['{'] + t) + ("aa" + (['}'] + "")) == p + Placed(t + "aa", "")
  {
  }

  /** A value that ends inside an opening brace: the template closes it. */
  lemma {:induction false} OpenEnd(v: string, p: string, t: string) returns (key: string, y: Var, text: string)
    requires Literal(v) && BraceFree(t) && v == p + (['{'] + t)
    ensures Breaks(v, key, y, text)
  {
    key, text := "a", Placed("a", "aa" + (['}'] + ""));
    y := LongVar(t + "aa", |v| + 4);
    assert |y.key| > |key|;
    OpenEndNests(key);
    OpenEndFilled(Var(key, v), p, t);
    OpenEndSubstituted(key, v, map[][key := v][y.key := y.value]);
    LongerThanSubstituted(text, Var(key, v), y, p, "");
  }

  /** A template that opens a brace before the placeholder of a key. */
  function Opened(key: string): string {
    ['{'] + ("aa" + Placed(key, ""))
  }

  lemma {:induction false} OpenedStartsNone(key: string)
    requires BraceFree(key)
    ensures Name(Opened(key)).None? && NoNesting(Opened(key))
  {
    HeadConcat("aa", Placed(key, ""));
    assert Head(Placed(key, "")) == "" && Opened(key)[1..] == "aa" + Placed(key, "");
    NothingAfter(key);
    NoNestingConcat("aa", Placed(key, ""));
    ClosesConcat("aa", Placed(key, ""));
    ClosesPlaced(key, "");
    assert !Closes("");
  }

  lemma {:induction false} OpenedSubstituted(key: string, v: string, bound: map<string, string>)
    requires BraceFree(key) && key in bound && bound[key] == v
    ensures |Substitute(Opened(key), bound)| == |v| + 3
  {
    OpenedStartsNone(key);
    SubstituteNoPlaceholder('{', "aa" + Placed(key, ""), bound);
    SubstituteConcat("aa", Placed(key, ""), bound);
    SubstitutePlaced(key, "", bound);
  }

  lemma {:induction false} OpenedAround(h: string, rest: string)
    ensures ['{'] + ("aa" + (h + (['}'] + rest))) == "" + Placed("aa" + h, rest)
  {
  }

  lemma {:induction false} OpenedFilled(x: Var, h: string, rest: string)
    requires BraceFree(x.key) && BraceFree(h) && x.value == h + (['}'] + rest)
    ensures Fill(Opened(x.key), x) == "" + Placed("aa" + h, rest)
  {
    OpenedStartsNone(x.key);
    FillKeepsStart("aa" + Placed(x.key, ""), x);
    FillHole("aa", x.key, "", x);
    OpenedAround(h, rest);
    assert Fill("", x) == "" && x.value + "" == x.value;
  }

  /** A value whose first brace closes: the template opens it. */
  lemma {:induction false} OpenStart(v: string, h: string, rest: string) returns (key: string, y: Var, text: string)
    requires Literal(v) && BraceFree(h) && v == h + (['}'] + rest)
    ensures Breaks(v, key, y, text)
  {
    key, text := "a", Opened("a");
    y := LongVar("aa" + h, |v| + 4);
    assert |y.key| > |key|;
    OpenedStartsNone(key);
    OpenedFilled(Var(key, v), h, rest);
    OpenedSubstituted(key, v, map[][key := v][y.key := y.value]);
    LongerThanSubstituted(text, Var(key, v), y, "", rest);
  }

  lemma {:induction false} FillKeepsStart(tail: string, x: Var)
    requires Name(['{'] + tail).None? && BraceFree(x.key)
    ensures Fill(['{'] + tail, x) == ['{'] + Fill(tail, x)
  {
    StartsWithIff(['{'] + tail, x);
    assert (['{'] + tail)[1..] == tail;
  }

  lemma {:induction false} LastOpening(v: string) returns (p: string, t: string)
    requires '{' in v
    ensures |p| < |v| && v == p + (['{'] + t) && '{' !in t
    decreases |v|
  {
    if v[|v| - 1] == '{' {
      p, t := v[..|v| - 1], "";
    } else {
      p, t := LastOpening(v[..|v| - 1]);
      t := t + [v[|v| - 1]];
      assert v == p + (['{'] + t);
    }
  }

  lemma {:induction false} BreakingValue(v: string) returns (key: string, y: Var, text: string)
    requires Literal(v) && !BraceFree(v)
    ensures Breaks(v, key, y, text)
  {
    if '{' in v {
      var p, t := LastOpening(v);
      var h := Head(t);
      HeadIs(t);
      if h == t {
        key, y, text := OpenEnd(v, p, t);
      } else {
        assert t == h + (['}'] + t[|h| + 1..]);
        assert v == p + Placed(h, t[|h| + 1..]);
        key, y, text := WholePlaceholder(v, p, h, t[|h| + 1..]);
      }
    } else {
      var h := Head(v);
      HeadIs(v);
      assert v == h + (['}'] + v[|h| + 1..]);
      key, y, text := OpenStart(v, h, v[|h| + 1..]);
    }
  }

  /** A variable whose placeholder is longer than the text leaves it alone. */
  lemma {:induction false} LongKey(text: string, key: string) returns (y: Var)
    ensures Plain(y) && y.key != key && Replace(text, y) == text
  {
    y := Var(Word(|text| + |key| + 1), "");
    WordIsPlain(|y.key|);
    ReplaceFills(text, y);
    Short(text, y);
  }

  /** A value with a dollar sequence: any plain variable stands beside it in vain. */
  lemma {:induction false} DollarBreaks(v: string) returns (key: string, y: Var, text: string)
    requires !Literal(v)
    ensures Breaks(v, key, y, text)
  {
    var x := Revealing(v);
    key, text := x.key, x.Placeholder();
    y := LongKey(Replace(text, x), key);
    PlaceholderAlone(x);
    NotLiteralShows(v);
    NothingAfter(key);
    ReplaceTwo(text, x, y);
    BindingsOfTwo(x, y);
    SubstitutePlaced(key, "", Bindings([x, y]));
    assert x == Var(key, v) && v + "" == v;
  }

  /** A value is safe in every template, under every key and beside every variable exactly without either. */
  lemma {:induction false} SafeValueIff(v: string)
    ensures SafeValue(v) <==> Literal(v) && BraceFree(v)
  {
    if !Literal(v) {
      var key, y, text := DollarBreaks(v);
    } else if BraceFree(v) {
      forall key: string, y: Var, text: string | BraceFree(key) && Plain(y) && y.key != key && NoNesting(text)
        ensures ReplaceAll(text, [Var(key, v), y]) == Substitute(text, Bindings([Var(key, v), y]))
      {
        LoopIsSubstitution(text, [Var(key, v), y]);
      }
    } else {
      var key, y, text := BreakingValue(v);
    }
  }

  /** A value with braces: the second variable rewrites what the first one put in. */
  lemma {:induction false} BracesInAValue()
    ensures var a, b := Var("a", "{b}"), Var("b", "x");
            ReplaceAll("{a}", [a, b]) == "x" && ReplaceAll("{a}", [b, a]) == "{b}"
  {
    var a, b := Var("a", "{b}"), Var("b", "x");
    assert a.Placeholder() == "{a}" && b.Placeholder() == "{b}";
    ReplaceTwo("{a}", a, b);
    ReplaceTwo("{a}", b, a);
    Whole("{a}", a);
    Whole("{b}", b);
    NotThere("{a}", b);
  }

  lemma {:induction false} Whole(text: string, x: Var)
    requires text == x.Placeholder() && Literal(x.value)
    ensures Replace(text, x) == x.value
  {
    ReplaceFills(text, x);
    assert text[|x.key| + 2..] == "";
    assert x.value + "" == x.value;
  }

  lemma {:induction false} NotThere(text: string, x: Var)
    requires Literal(x.value) && |text| == |x.Placeholder()| && text != x.Placeholder()
    ensures Replace(text, x) == text
  {
    ReplaceFills(text, x);
    Short(text[1..], x);
  }

  lemma {:induction false} Short(s: string, x: Var)
    requires |s| < |x.Placeholder()|
    ensures Fill(s, x) == s
  {
    if s != "" {
      Short(s[1..], x);
    }
  }

  // ---------- Nested braces in a template ----------

  /** The names of the placeholders between an opening brace and the one that closes it. */
  function Inner(s: string): set<string> {
    match FirstPart(s)
    case Hole(_, name, rest) => {name} + Inner(rest)
    case _ => {}
  }

  /** The name that stands there once each of them is replaced by v. */
  function Flattened(s: string, v: string): string {
    match FirstPart(s)
    case End(h, _) => h
    case Hole(h, _, rest) => h + v + Flattened(rest, v)
    case Broken => ""
  }

  lemma {:induction false} HoleAt(s: string, n: nat, name: string)
    requires n <= |s| && Name(s[n..]) == Some(name)
    ensures n + |name| + 2 <= |s| && BraceFree(name) && s == s[..n] + Placed(name, s[n + |name| + 2..])
  {
    NameReads(s[n..]);
    SplitAt(s, n);
    SuffixOfSuffix(s, n, |name| + 2);
  }

  lemma {:induction false} EndAt(s: string, n: nat)
    requires n < |s| && s[n] == '}'
    ensures s == s[..n] + (['}'] + s[n + 1..])
  {
  }

  lemma {:induction false} PartAtReads(s: string, n: nat)
    requires n <= |s|
    ensures match PartAt(s, n)
            case End(h, rest) => h == s[..n] && s == h + (['}'] + rest)
            case Hole(h, name, rest) => h == s[..n] && BraceFree(name) && s == h + Placed(name, rest)
            case Broken => true
  {
    if n == |s| {
    } else if s[n] == '}' {
      EndAt(s, n);
    } else if Name(s[n..]).Some? {
      HoleAt(s, n, Name(s[n..]).value);
    }
  }

  /** The text is made of its first part and the rest. */
  lemma {:induction false} PartReads(s: string)
    ensures match FirstPart(s)
            case End(h, rest) => BraceFree(h) && s == h + (['}'] + rest)
            case Hole(h, name, rest) => BraceFree(h) && BraceFree(name) && s == h + Placed(name, rest)
            case Broken => true
  {
    PartAtReads(s, |Head(s)|);
    HeadIs(s);
  }

  lemma {:induction false} SplitAt(s: string, n: nat)
    requires n <= |s|
    ensures s == s[..n] + s[n..]
    ensures n == 1 ==> s[..n] == [s[0]]
  {
  }

  lemma {:induction false} HoleAfter(h: string, name: string, rest: string)
    requires BraceFree(h) && BraceFree(name)
    ensures FirstPart(h + Placed(name, rest)) == Hole(h, name, rest)
  {
    HoleIs(name, rest);
    PartConcat(h, Placed(name, rest));
    assert h + "" == h;
  }

  lemma {:induction false} EndAfter(h: string, rest: string)
    requires BraceFree(h)
    ensures FirstPart(h + (['}'] + rest)) == End(h, rest)
  {
    EndIs(rest);
    PartConcat(h, ['}'] + rest);
    assert h + "" == h;
  }

  /** Text in front of a nest joins its flattened name. */
  lemma {:induction false} PlainInFront(h: string, s: string, v: string)
    requires BraceFree(h) && Closes(s)
    ensures Closes(h + s) && Inner(h + s) == Inner(s) && Flattened(h + s, v) == h + Flattened(s, v)
  {
    PartConcat(h, s);
    if FirstPart(s).Hole? {
      AppendFour(h, FirstPart(s).h, v, Flattened(FirstPart(s).rest, v));
    }
  }

  lemma {:induction false} AppendFour(a: string, b: string, c: string, d: string)
    ensures (a + b) + c + d == a + (b + c + d)
  {
  }

  lemma {:induction false} OwnHoleFilled(h: string, filled: string, v: string)
    requires BraceFree(h) && BraceFree(v) && Closes(filled)
    ensures var s := h + (v + filled);
            Closes(s) && Inner(s) == Inner(filled) && Flattened(s, v) == h + v + Flattened(filled, v)
  {
    PlainInFront(h + v, filled, v);
    assert h + (v + filled) == (h + v) + filled;
  }

  lemma {:induction false} HoleNests(h: string, name: string, rest: string, v: string)
    requires BraceFree(h) && BraceFree(name)
    ensures var s := h + Placed(name, rest);
            (Closes(s) <==> Closes(rest)) && Inner(s) == {name} + Inner(rest) && Flattened(s, v) == h + v + Flattened(rest, v)
  {
    HoleAfter(h, name, rest);
  }

  lemma {:induction false} NameTakenOut(name: string, key: string, names: set<string>)
    ensures ({name} + names) - {key} == if name == key then names - {key} else {name} + (names - {key})
  {
  }

  /** What filling x in makes of a nest: its name is out, and the flattened name is the same. */
  ghost predicate NestAfter(s: string, filled: string, x: Var) {
    Closes(filled) && Inner(filled) == Inner(s) - {x.key} && Flattened(filled, x.value) == Flattened(s, x.value)
  }

  lemma {:induction false} EndNest(h: string, rest: string, filled: string, x: Var)
    requires BraceFree(h)
    ensures NestAfter(h + (['}'] + rest), h + (['}'] + filled), x)
  {
    EndAfter(h, rest);
    EndAfter(h, filled);
  }

  lemma {:induction false} HoleNest(h: string, name: string, rest: string, filled: string, x: Var)
    requires BraceFree(h) && BraceFree(name) && BraceFree(x.value) && NestAfter(rest, filled, x)
    ensures NestAfter(h + Placed(name, rest), h + (if name == x.key then x.value + filled else Placed(name, filled)), x)
  {
    NameTakenOut(name, x.key, Inner(rest));
    HoleNests(h, name, rest, x.value);
    if name == x.key {
      OwnHoleFilled(h, filled, x.value);
    } else {
      HoleNests(h, name, filled, x.value);
    }
  }

  lemma {:induction false} FillNest(s: string, x: Var)
    requires Closes(s) && Plain(x)
    ensures NestAfter(s, Fill(s, x), x)
    decreases |s|
  {
    PartReads(s);
    match FirstPart(s) {
      case End(h, rest) =>
        FillEnd(h, rest, x);
        EndNest(h, rest, Fill(rest, x), x);
      case Hole(h, name, rest) =>
        FillNest(rest, x);
        FillHole(h, name, rest, x);
        HoleNest(h, name, rest, Fill(rest, x), x);
      case Broken =>
    }
  }

  lemma {:induction false} ReplaceAllFrom(text: string, x: Var, vars: seq<Var>)
    ensures ReplaceAll(text, [x] + vars) == ReplaceAll(Replace(text, x), vars)
  {
    if vars == [] {
      assert [x] + vars == [x] && [x][..0] == [];
      assert ReplaceAll(text, [x][..0]) == text;
    } else {
      var n := |vars| - 1;
      assert ([x] + vars)[..n + 1] == [x] + vars[..n];
      ReplaceAllFrom(text, x, vars[..n]);
    }
  }

  ghost predicate AllValued(vars: seq<Var>, names: set<string>, v: string) {
    AllPlain(vars) && forall i :: 0 <= i < |vars| ==> vars[i].value == v && vars[i].key in names
  }

  lemma {:induction false} ConsPlain(x: Var, vars: seq<Var>, names: set<string>, v: string)
    requires Plain(x) && x.value == v && x.key in names && AllValued(vars, names - {x.key}, v)
    ensures AllValued([x] + vars, names, v)
  {
  }

  /** The variables that flatten a nest, each with the value v, and what is then left of it. */
  lemma {:induction false} FlattenNest(a: string, body: string, v: string) returns (vars: seq<Var>, before: string, rest: string)
    requires Closes(body) && BraceFree(v) && Literal(v)
    ensures AllValued(vars, Inner(body), v)
    ensures ReplaceAll(a + (['{'] + body), vars) == before + Placed(Flattened(body, v), rest)
    ensures BraceFree(Flattened(body, v))
    decreases |Inner(body)|
  {
    PartReads(body);
    match FirstPart(body) {
      case End(h, tail) =>
        vars, before, rest := [], a, tail;
        assert a + (['{'] + body) == before + Placed(h, rest);
      case Hole(h, name, tail) =>
        var x := Var(name, v);
        FillNest(body, x);
        assert |Inner(body) - {x.key}| < |Inner(body)|;
        NestIsNoPlaceholder(h, name, tail);
        FillInNest(a, body, x);
        vars, before, rest := FlattenNest(Fill(a, x), Fill(body, x), v);
        ConsPlain(x, vars, Inner(body), v);
        ReplaceAllFrom(a + (['{'] + body), x, vars);
        vars := [x] + vars;
      case Broken =>
    }
  }

  lemma {:induction false} FillInNest(a: string, body: string, x: Var)
    requires Plain(x) && Name(['{'] + body).None?
    ensures Replace(a + (['{'] + body), x) == Fill(a, x) + (['{'] + Fill(body, x))
  {
    ReplaceFills(a + (['{'] + body), x);
    FillAtBrace(a, ['{'] + body, x);
    FillKeepsStart(body, x);
  }

  lemma {:induction false} NestIsNoPlaceholder(h: string, name: string, rest: string)
    requires BraceFree(h)
    ensures Name(['{'] + (h + Placed(name, rest))).None?
  {
    HeadConcat(h, Placed(name, rest));
    assert Head(Placed(name, rest)) == "" && h + "" == h;
    assert (['{'] + (h + Placed(name, rest)))[1..] == h + Placed(name, rest);
  }

  lemma {:induction false} InnerNames(s: string)
    requires Closes(s)
    ensures forall n :: n in Inner(s) ==> BraceFree(n) && |n| < |s|
    decreases |s|
  {
    PartReads(s);
    if !FirstPart(s).Hole? {
    } else {
      InnerNames(FirstPart(s).rest);
    }
  }

  lemma {:induction false} FlattenedIsLong(s: string, v: string)
    requires Closes(s) && Inner(s) != {}
    ensures |Flattened(s, v)| >= |v|
  {
  }

  /** A name longer than the text is none of its placeholders. */
  lemma {:induction false} SubstituteUnused(s: string, bound: map<string, string>, k: string, w: string)
    requires |k| >= |s|
    ensures Substitute(s, bound[k := w]) == Substitute(s, bound)
  {
    if s == "" {
    } else {
      var name := Name(s);
      if name.Some? && name.value in bound {
        SubstituteUnused(s[|name.value| + 2..], bound, k, w);
      } else {
        SubstituteUnused(s[1..], bound, k, w);
      }
    }
  }

  /** The first nest of a text. */
  lemma {:induction false} FindNest(text: string) returns (a: string, body: string)
    requires !NoNesting(text)
    ensures text == a + (['{'] + body) && Name(['{'] + body).None? && Closes(body)
  {
    if text[0] == '{' && Name(text).None? && Closes(text[1..]) {
      a, body := "", text[1..];
      assert text == ['{'] + body;
    } else {
      a, body := FindNest(text[1..]);
      a := [text[0]] + a;
      assert text == [text[0]] + text[1..];
    }
  }

  /** A nest with something in it, or it would be a placeholder. */
  lemma {:induction false} NestHasInner(body: string)
    requires Closes(body) && Name(['{'] + body).None?
    ensures Inner(body) != {}
  {
    PartReads(body);
    if FirstPart(body).End? {
      assert ['{'] + body == Placed(FirstPart(body).h, FirstPart(body).rest);
      NameIs(FirstPart(body).h, FirstPart(body).rest);
    }
  }

  /** The variables that break a template: they flatten a nest, and one more fills it. */
  lemma {:induction false} BreakingVars(text: string) returns (vars: seq<Var>)
    requires !NoNesting(text)
    ensures AllPlain(vars) && ReplaceAll(text, vars) != Substitute(text, Bindings(vars))
  {
    var a, body := FindNest(text);
    WordIsPlain(|text| + 1);
    NestHasInner(body);
    vars := BreakNest(text, a, body, Word(|text| + 1));
  }

  lemma {:induction false} BreakNest(text: string, a: string, body: string, v: string) returns (vars: seq<Var>)
    requires text == a + (['{'] + body) && Closes(body) && Inner(body) != {}
    requires BraceFree(v) && Literal(v) && |v| > |text|
    ensures AllPlain(vars) && ReplaceAll(text, vars) != Substitute(text, Bindings(vars))
  {
    FlattenedIsLong(body, v);
    var inner, before, rest := FlattenNest(a, body, v);
    ShortKeys(body, inner, v);
    vars := OneMore(text, inner, Flattened(body, v), before, rest);
  }

  lemma {:induction false} ShortKeys(body: string, vars: seq<Var>, v: string)
    requires Closes(body) && AllValued(vars, Inner(body), v)
    ensures forall i :: 0 <= i < |vars| ==> |vars[i].key| < |body|
  {
    InnerNames(body);
  }

  lemma {:induction false} OneMore(text: string, inner: seq<Var>, key: string, before: string, rest: string)
    returns (vars: seq<Var>)
    requires AllPlain(inner) && (forall i :: 0 <= i < |inner| ==> |inner[i].key| < |text|)
    requires BraceFree(key) && |key| >= |text| && ReplaceAll(text, inner) == before + Placed(key, rest)
    ensures AllPlain(vars) && ReplaceAll(text, vars) != Substitute(text, Bindings(vars))
  {
    var n := |Substitute(text, Bindings(inner))| + 1;
    var y := Var(key, Word(n));
    WordIsPlain(n);
    vars := inner + [y];
    SnocPlain(inner, y);
    FilledByOneMore(text, inner, y, before, rest);
  }

  lemma {:induction false} FilledByOneMore(text: string, inner: seq<Var>, y: Var, before: string, rest: string)
    requires ReplaceAll(text, inner) == before + Placed(y.key, rest)
    requires Plain(y) && |y.key| >= |text| && |y.value| > |Substitute(text, Bindings(inner))|
    ensures ReplaceAll(text, inner + [y]) != Substitute(text, Bindings(inner + [y]))
  {
    assert (inner + [y])[..|inner|] == inner;
    ReplaceFills(before + Placed(y.key, rest), y);
    LongFill(before, rest, y);
    SubstituteUnused(text, Bindings(inner), y.key, y.value);
  }

  lemma {:induction false} SnocPlain(vars: seq<Var>, y: Var)
    requires AllPlain(vars) && Plain(y) && forall i :: 0 <= i < |vars| ==> vars[i].key != y.key
    ensures AllPlain(vars + [y])
  {
  }

  /** The loop is a substitution for all plain variables exactly in the templates without nested braces. */
  lemma {:induction false} NoNestingIff(text: string)
    ensures NoNesting(text) <==> forall vars :: AllPlain(vars) ==> ReplaceAll(text, vars) == Substitute(text, Bindings(vars))
  {
    if NoNesting(text) {
      forall vars | AllPlain(vars) ensures ReplaceAll(text, vars) == Substitute(text, Bindings(vars)) {
        LoopIsSubstitution(text, vars);
      }
    } else {
      var vars := BreakingVars(text);
    }
  }

  /** Nested braces: filling the inner variable in first makes a new placeholder. */
  lemma {:induction false} NestedBraces()
    ensures var outer, inner := Var("ab", "x"), Var("b", "b");
            ReplaceAll("{a{b}}", [inner, outer]) == "x" && Substitute("{a{b}}", Bindings([inner, outer])) == "{ab}"
  {
    var outer, inner := Var("ab", "x"), Var("b", "b");
    ReplaceTwo("{a{b}}", inner, outer);
    NestedFill(inner);
    assert outer.Placeholder() == "{ab}";
    Whole("{ab}", outer);
    BindingOf([inner, outer], 0);
    NestedSubstitute(Bindings([inner, outer]));
  }

  lemma {:induction false} NestedFill(inner: Var)
    requires inner == Var("b", "b")
    ensures Replace("{a{b}}", inner) == "{ab}"
  {
    var text, tail := "{a{b}}", "{b}}";
    ReplaceFills(text, inner);
    assert inner.Placeholder() == "{b}" && tail[3..] == "}" && text[1..] == "a" + tail;
    Short("}", inner);
    assert Fill(tail, inner) == "b" + "}";
    FillConcat("a", tail, inner);
  }

  lemma {:induction false} NestedSubstitute(bound: map<string, string>)
    requires "b" in bound && bound["b"] == "b"
    ensures Substitute("{a{b}}", bound) == "{ab}"
  {
    var text, tail := "{a{b}}", "{b}}";
    NameIs("b", "}");
    assert Placed("b", "}") == tail && tail[3..] == "}" && text[1..] == "a" + tail;
    assert "}"[1..] == "";
    assert Substitute("}", bound) == "}";
    assert Substitute(tail, bound) == "b" + "}";
    SubstituteConcat("a", tail, bound);
    HeadConcat("a", tail);
    assert Head(tail) == "";
    assert Name(text).None?;
  }
}
