/** Looking a message up by its dotted key and filling in its placeholders one variable at a time. */
module Interpolation {
  import opened Prelude
  import opened Text

  // ---------- Looking a message up ----------

  /** A messages object; Other is any value that is neither an object nor a text. */
  datatype Tree = Leaf(text: string) | Node(fields: map<string, Tree>) | Other

  /** The reduce over the path's keys; None is undefined. */
  function Follow(tree: Option<Tree>, keys: seq<string>): Option<Tree>
    decreases |keys|
  {
    if keys == [] then tree
    else
      var inner := if tree.Some? && tree.value.Node? && keys[0] in tree.value.fields
                   then Some(tree.value.fields[keys[0]]) else None;
      Follow(inner, keys[1..])
  }

  function GetNestedValue(tree: Tree, path: string): string {
    match Follow(Some(tree), Split(path, '.'))
    case Some(Leaf(text)) => text
    case _ => path
  }

  // ---------- Where a text is found ----------

  /** inner under these keys, one level after the other; each level has fields of its own beside it. */
  function Under(keys: seq<string>, beside: seq<map<string, Tree>>, inner: Tree): Tree
    requires |beside| == |keys|
  {
    if keys == [] then inner else Node(beside[0][keys[0] := Under(keys[1..], beside[1..], inner)])
  }

  lemma {:induction false} FollowUnder(keys: seq<string>, beside: seq<map<string, Tree>>, inner: Tree, rest: seq<string>)
    requires |beside| == |keys|
    ensures Follow(Some(Under(keys, beside, inner)), keys + rest) == Follow(Some(inner), rest)
  {
    if keys == [] {
      assert keys + rest == rest;
    } else {
      assert (keys + rest)[1..] == keys[1..] + rest;
      FollowUnder(keys[1..], beside[1..], inner, rest);
    }
  }

  ghost predicate DotFree(keys: seq<string>) {
    forall k :: k in keys ==> '.' !in k
  }

  /** A text that stands under some keys, however many and whatever stands beside them, is found under their joined path. */
  lemma {:induction false} TextIsFound(keys: seq<string>, beside: seq<map<string, Tree>>, text: string)
    requires keys != [] && DotFree(keys) && |beside| == |keys|
    ensures GetNestedValue(Under(keys, beside, Leaf(text)), Join(keys, '.')) == text
  {
    SplitJoin(keys, '.');
    assert keys + [] == keys;
    FollowUnder(keys, beside, Leaf(text), []);
  }

  /** This value leads no further along the rest of a path: it is no text at its end, or has no such field. */
  predicate LeadsNowhere(inner: Tree, rest: seq<string>) {
    if rest == [] then !inner.Leaf? else inner.Node? ==> rest[0] !in inner.fields
  }

  lemma {:induction false} FollowNothing(keys: seq<string>)
    ensures Follow(None, keys) == None
  {
    if keys == [] {
    } else {
      FollowNothing(keys[1..]);
    }
  }

  /** A path that meets a missing key, runs through a value that is no object, or ends at one that is no text answers itself. */
  lemma {:induction false} ElseThePath(keys: seq<string>, beside: seq<map<string, Tree>>, inner: Tree, rest: seq<string>)
    requires keys + rest != [] && DotFree(keys + rest) && |beside| == |keys| && LeadsNowhere(inner, rest)
    ensures GetNestedValue(Under(keys, beside, inner), Join(keys + rest, '.')) == Join(keys + rest, '.')
  {
    SplitJoin(keys + rest, '.');
    FollowUnder(keys, beside, inner, rest);
    if rest != [] {
      FollowNothing(rest[1..]);
    }
  }

  /** There is no third case: every path either finds a text or leads nowhere somewhere on its way. */
  lemma {:induction false} EveryPathIsOne(tree: Tree, path: seq<string>)
    returns (keys: seq<string>, beside: seq<map<string, Tree>>, inner: Tree, rest: seq<string>)
    ensures keys + rest == path && |beside| == |keys| && tree == Under(keys, beside, inner)
    ensures LeadsNowhere(inner, rest) || (rest == [] && inner.Leaf?)
  {
    if path == [] || LeadsNowhere(tree, path) {
      keys, beside, inner, rest := [], [], tree, path;
    } else {
      keys, beside, inner, rest := EveryPathIsOne(tree.fields[path[0]], path[1..]);
      assert tree.fields[path[0] := tree.fields[path[0]]] == tree.fields;
      keys, beside := [path[0]] + keys, [tree.fields] + beside;
      assert keys[1..] + rest == path[1..] && keys + rest == path;
    }
  }

  // ---------- Replacing one variable ----------

  datatype Var = Var(key: string, value: string) {
    function Placeholder(): string { "{" + key + "}" }
  }

  /** How a replacement text expands at one match: $$, $&, $` and $' are special. */
  function Expand(v: string, before: string, matched: string, after: string): string {
    if v == "" then ""
    else if v[0] != '$' || |v| == 1 then [v[0]] + Expand(v[1..], before, matched, after)
    else if v[1] == '$' then "$" + Expand(v[2..], before, matched, after)
    else if v[1] == '&' then matched + Expand(v[2..], before, matched, after)
    else if v[1] == '`' then before + Expand(v[2..], before, matched, after)
    else if v[1] == '\'' then after + Expand(v[2..], before, matched, after)
    else [v[0]] + Expand(v[1..], before, matched, after)
  }

  /** text.replace of every placeholder of one variable, from position i on. */
  function ReplaceFrom(text: string, i: nat, x: Var): string
    requires i <= |text|
    decreases |text| - i
  {
    var p := x.Placeholder();
    if i == |text| then ""
    else if StartsWith(text[i..], p) then Expand(x.value, text[..i], p, text[i + |p|..]) + ReplaceFrom(text, i + |p|, x)
    else [text[i]] + ReplaceFrom(text, i + 1, x)
  }

  function Replace(text: string, x: Var): string {
    ReplaceFrom(text, 0, x)
  }

  function ReplaceAll(text: string, vars: seq<Var>): string {
    if vars == [] then text else Replace(ReplaceAll(text, vars[..|vars| - 1]), vars[|vars| - 1])
  }

  /** t(key, vars). */
  method Translate(messages: Tree, key: string, vars: Option<seq<Var>>) returns (text: string)
    ensures text == ReplaceAll(GetNestedValue(messages, key), vars.GetOr([]))
  {
    text := GetNestedValue(messages, key);
    if vars.Some? {
      assert vars.value[..0] == [];
      for i := 0 to |vars.value|
        invariant text == ReplaceAll(GetNestedValue(messages, key), vars.value[..i])
      {
        assert vars.value[..i + 1][..i] == vars.value[..i];
        text := Replace(text, vars.value[i]);
      }
      assert vars.value[..|vars.value|] == vars.value;
    }
  }

  // ---------- What a dollar sequence stands for ----------

  /** The character itself, the match, or the text before or after it. */
  ghost predicate StandsFor(c: char, before: string, matched: string, after: string, meaning: string) {
    && (c == '$' ==> meaning == "$") && (c == '&' ==> meaning == matched)
    && (c == '`' ==> meaning == before) && (c == '\'' ==> meaning == after)
  }

  lemma {:induction false} ExpandAfter(u: string, rest: string, before: string, matched: string, after: string)
    requires Literal(u) && (u != "" ==> u[|u| - 1] != '$')
    ensures Expand(u + rest, before, matched, after) == u + Expand(rest, before, matched, after)
  {
    if u == "" {
      assert u + rest == rest;
    } else {
      var v := u + rest;
      assert v[1..] == u[1..] + rest && v[0] == u[0];
      if |u| >= 2 {
        assert v[1] == u[1] && u[1..][|u[1..]| - 1] == u[|u| - 1];
      }
      ExpandAfter(u[1..], rest, before, matched, after);
      assert u == [u[0]] + u[1..];
    }
  }

  lemma {:induction false} ExpandSequence(u: string, c: char, w: string, before: string, matched: string, after: string,
                                          meaning: string)
    requires Literal(u) && Literal(w) && (u != "" ==> u[|u| - 1] != '$')
    requires c in {'$', '&', '`', '\''} && StandsFor(c, before, matched, after, meaning)
    ensures Expand(u + (['$', c] + w), before, matched, after) == u + (meaning + w)
  {
    ExpandAfter(u, ['$', c] + w, before, matched, after);
    SequenceMeans(c, w, before, matched, after, meaning);
  }

  lemma {:induction false} SequenceMeans(c: char, w: string, before: string, matched: string, after: string, meaning: string)
    requires Literal(w) && c in {'$', '&', '`', '\''} && StandsFor(c, before, matched, after, meaning)
    ensures Expand(['$', c] + w, before, matched, after) == meaning + w
  {
    var v := ['$', c] + w;
    assert v[0] == '$' && v[1] == c && v[2..] == w;
    ExpandLiteral(w, before, matched, after);
  }

  lemma {:induction false} SliceGrows(text: string, i: nat, j: nat, rest: string)
    requires i < j <= |text|
    ensures [text[i]] + (text[i + 1..j] + rest) == text[i..j] + rest
  {
    assert text[i..j] == [text[i]] + text[i + 1..j];
  }

  /** Text without an opening brace stays. */
  lemma {:induction false} ReplaceUpTo(text: string, i: nat, j: nat, x: Var)
    requires i <= j <= |text| && forall k :: i <= k < j ==> text[k] != '{'
    ensures ReplaceFrom(text, i, x) == text[i..j] + ReplaceFrom(text, j, x)
    decreases j - i
  {
    if i == j {
      assert text[i..j] == "";
    } else {
      ReplaceSkips(text, i, x);
      ReplaceUpTo(text, i + 1, j, x);
      SliceGrows(text, i, j, ReplaceFrom(text, j, x));
    }
  }

  lemma {:induction false} MatchStands(done: string, p: string, post: string)
    ensures var text := done + p + post;
            && StartsWith(text[|done|..], p) && text[..|done|] == done && text[|done| + |p|..] == post
            && |done + p| == |done| + |p|
  {
    assert (done + p + post)[|done|..] == p + post && (p + post)[..|p|] == p;
  }

  lemma {:induction false} ReplaceMatch(text: string, i: nat, x: Var)
    requires i <= |text| && StartsWith(text[i..], x.Placeholder())
    ensures i + |x.Placeholder()| <= |text|
    ensures var k := i + |x.Placeholder()|;
            ReplaceFrom(text, i, x) == Expand(x.value, text[..i], x.Placeholder(), text[k..]) + ReplaceFrom(text, k, x)
  {
  }

  lemma {:induction false} ReplaceSkips(text: string, i: nat, x: Var)
    requires i < |text| && text[i] != '{'
    ensures ReplaceFrom(text, i, x) == [text[i]] + ReplaceFrom(text, i + 1, x)
  {
    StartsOtherwise(text[i..], x.Placeholder());
  }

  lemma {:induction false} StartsOtherwise(s: string, p: string)
    requires s != "" && p != "" && s[0] != p[0]
    ensures !StartsWith(s, p)
  {
    if |p| <= |s| {
      assert s[..|p|][0] == s[0];
    }
  }

  lemma {:induction false} Around(pre: string, p: string, post: string)
    requires BraceFree(pre) && BraceFree(post)
    ensures var text, n := pre + p + post, |pre + p|;
            && text[0..|pre|] == pre && text[n..|text|] == post && n == |pre| + |p| <= |text|
            && (forall k :: 0 <= k < |pre| ==> text[k] != '{') && forall k :: n <= k < |text| ==> text[k] != '{'
  {
    var text, n := pre + p + post, |pre + p|;
    forall k | n <= k < |text| ensures text[k] == post[k - n] {
    }
  }

  lemma {:induction false} OneMatch(pre: string, post: string, x: Var)
    requires BraceFree(pre) && BraceFree(post)
    ensures var p := x.Placeholder(); Replace(pre + p + post, x) == pre + (Expand(x.value, pre, p, post) + post)
  {
    var p := x.Placeholder();
    var text, n := pre + p + post, |pre + p|;
    Around(pre, p, post);
    ReplaceUpTo(text, 0, |pre|, x);
    MatchIsExpanded(pre, post, x);
    PlainTail(text, n, x);
  }

  lemma {:induction false} MatchIsExpanded(pre: string, post: string, x: Var)
    ensures var p := x.Placeholder();
            var text := pre + p + post;
            ReplaceFrom(text, |pre|, x) == Expand(x.value, pre, p, post) + ReplaceFrom(text, |pre + p|, x)
  {
    MatchStands(pre, x.Placeholder(), post);
    ReplaceMatch(pre + x.Placeholder() + post, |pre|, x);
  }

  lemma {:induction false} PlainTail(text: string, n: nat, x: Var)
    requires n <= |text| && forall k :: n <= k < |text| ==> text[k] != '{'
    ensures ReplaceFrom(text, n, x) == text[n..]
  {
    ReplaceUpTo(text, n, |text|, x);
    assert text[n..|text|] == text[n..];
  }

  /** In a template with one placeholder a dollar sequence of the value becomes what it stands for. */
  lemma {:induction false} SequenceStandsFor(pre: string, post: string, key: string, u: string, c: char, w: string,
                                             meaning: string)
    requires BraceFree(pre) && BraceFree(post)
    requires Literal(u) && Literal(w) && (u != "" ==> u[|u| - 1] != '$')
    requires c in {'$', '&', '`', '\''} && StandsFor(c, pre, "{" + key + "}", post, meaning)
    ensures Replace(pre + ("{" + key + "}") + post, Var(key, u + (['$', c] + w))) == pre + ((u + (meaning + w)) + post)
  {
    var x := Var(key, u + (['$', c] + w));
    var p := x.Placeholder();
    OneMatch(pre, post, x);
    ExpandSequence(u, c, w, pre, p, post, meaning);
  }

  // ---------- All variables at once ----------

  predicate IsBrace(c: char) {
    c == '{' || c == '}'
  }

  predicate BraceFree(s: string) {
    forall i :: 0 <= i < |s| ==> !IsBrace(s[i])
  }

  /** The part of s before its first brace. */
  function Head(s: string): (h: string)
    ensures |h| <= |s|
  {
    if s == "" || IsBrace(s[0]) then "" else [s[0]] + Head(s[1..])
  }

  /** The name of the placeholder at the start of s. */
  function Name(s: string): (name: Option<string>)
    ensures name.Some? ==> |name.value| + 2 <= |s|
  {
    if s != "" && s[0] == '{' && |Head(s[1..])| < |s| - 1 && s[1..][|Head(s[1..])|] == '}' then Some(Head(s[1..])) else None
  }

  /** Every placeholder whose name is bound is replaced by its value, all in one pass over the template. */
  function Substitute(s: string, bound: map<string, string>): string {
    if s == "" then ""
    else
      var name := Name(s);
      if name.Some? && name.value in bound then bound[name.value] + Substitute(s[|name.value| + 2..], bound)
      else [s[0]] + Substitute(s[1..], bound)
  }

  /** What s has first after some plain text h: a closing brace, a placeholder, or neither. */
  datatype Part = End(h: string, rest: string) | Hole(h: string, name: string, rest: string) | Broken

  function PartAt(s: string, n: nat): (part: Part)
    requires n <= |s|
    ensures !part.Broken? ==> |part.rest| < |s|
  {
    if n == |s| then Broken
    else if s[n] == '}' then End(s[..n], s[n + 1..])
    else
      var name := Name(s[n..]);
      if name.None? then Broken else Hole(s[..n], name.value, s[n + |name.value| + 2..])
  }

  function FirstPart(s: string): (part: Part)
    ensures !part.Broken? ==> |part.rest| < |s|
  {
    PartAt(s, |Head(s)|)
  }

  /** After an opening brace: plain text and whole placeholders, in any mix, lead up to a closing brace. */
  predicate Closes(s: string) {
    match FirstPart(s)
    case End(_, _) => true
    case Hole(_, _, rest) => Closes(rest)
    case Broken => false
  }

  /** No pair of braces has placeholders between it. */
  predicate NoNesting(s: string) {
    s != "" ==> NoNesting(s[1..]) && (s[0] == '{' && Name(s).None? ==> !Closes(s[1..]))
  }

  /** No dollar in v starts a sequence that a replacement expands. */
  predicate Literal(v: string) {
    |v| >= 2 ==> Literal(v[1..]) && !(v[0] == '$' && v[1] in {'$', '&', '`', '\''})
  }

  /** A key and a value without braces, and the value without a dollar sequence. */
  predicate Plain(x: Var) {
    BraceFree(x.key) && BraceFree(x.value) && Literal(x.value)
  }

  ghost predicate AllPlain(vars: seq<Var>) {
    (forall i :: 0 <= i < |vars| ==> Plain(vars[i])) &&
    forall i, j :: 0 <= i < j < |vars| ==> vars[i].key != vars[j].key
  }

  function Bindings(vars: seq<Var>): map<string, string> {
    if vars == [] then map[] else Bindings(vars[..|vars| - 1])[vars[|vars| - 1].key := vars[|vars| - 1].value]
  }

  // ---------- One plain replacement ----------

  /** Replace for a value in which nothing is special. */
  function Fill(s: string, x: Var): string {
    if s == "" then ""
    else if StartsWith(s, x.Placeholder()) then x.value + Fill(s[|x.key| + 2..], x)
    else [s[0]] + Fill(s[1..], x)
  }

  lemma {:induction false} ExpandLiteral(v: string, before: string, matched: string, after: string)
    requires Literal(v)
    ensures Expand(v, before, matched, after) == v
  {
    if v == "" {
    } else {
      ExpandLiteral(v[1..], before, matched, after);
    }
  }

  lemma {:induction false} FillAtMatch(s: string, x: Var)
    requires StartsWith(s, x.Placeholder())
    ensures Fill(s, x) == x.value + Fill(s[|x.key| + 2..], x)
  {
  }

  lemma {:induction false} ReplaceAtMatch(text: string, i: nat, x: Var)
    requires i < |text| && Literal(x.value) && StartsWith(text[i..], x.Placeholder())
    ensures i + |x.key| + 2 <= |text|
    ensures ReplaceFrom(text, i, x) == x.value + ReplaceFrom(text, i + |x.key| + 2, x)
    ensures Fill(text[i..], x) == x.value + Fill(text[i + |x.key| + 2..], x)
  {
    var p := x.Placeholder();
    ReplaceMatch(text, i, x);
    ExpandLiteral(x.value, text[..i], p, text[i + |p|..]);
    FillAtMatch(text[i..], x);
    SuffixOfSuffix(text, i, |p|);
  }

  lemma {:induction false} ReplaceElsewhere(text: string, i: nat, x: Var)
    requires i < |text| && !StartsWith(text[i..], x.Placeholder())
    ensures ReplaceFrom(text, i, x) == [text[i]] + ReplaceFrom(text, i + 1, x)
    ensures Fill(text[i..], x) == [text[i]] + Fill(text[i + 1..], x)
  {
    SuffixOfSuffix(text, i, 1);
  }

  lemma {:induction false} ReplaceIsFill(text: string, i: nat, x: Var)
    requires i <= |text| && Literal(x.value)
    ensures ReplaceFrom(text, i, x) == Fill(text[i..], x)
    decreases |text| - i
  {
    if i == |text| {
      assert text[i..] == "";
    } else if StartsWith(text[i..], x.Placeholder()) {
      var k := i + |x.key| + 2;
      ReplaceAtMatch(text, i, x);
      ReplaceIsFill(text, k, x);
      assert ReplaceFrom(text, i, x) == x.value + Fill(text[k..], x) == Fill(text[i..], x);
    } else {
      ReplaceElsewhere(text, i, x);
      ReplaceIsFill(text, i + 1, x);
      assert ReplaceFrom(text, i, x) == [text[i]] + Fill(text[i + 1..], x) == Fill(text[i..], x);
    }
  }

  lemma {:induction false} HeadIs(s: string)
    ensures s[..|Head(s)|] == Head(s) && BraceFree(Head(s)) && (|Head(s)| < |s| ==> IsBrace(s[|Head(s)|]))
  {
    if s == "" || IsBrace(s[0]) {
    } else {
      HeadIs(s[1..]);
      assert s[..|Head(s)|] == [s[0]] + s[1..][..|Head(s[1..])|];
    }
  }

  lemma {:induction false} HeadConcat(h: string, rest: string)
    requires BraceFree(h)
    ensures Head(h + rest) == h + Head(rest)
  {
    if h == "" {
      assert h + rest == rest;
    } else {
      assert (h + rest)[1..] == h[1..] + rest;
      HeadConcat(h[1..], rest);
    }
  }

  lemma {:induction false} FillConcat(h: string, rest: string, x: Var)
    requires BraceFree(h)
    ensures Fill(h + rest, x) == h + Fill(rest, x)
  {
    if h == "" {
      assert h + rest == rest;
    } else {
      assert (h + rest)[1..] == h[1..] + rest && (h + rest)[0] == h[0];
      assert x.Placeholder()[0] == '{';
      FillConcat(h[1..], rest, x);
    }
  }

  lemma {:induction false} SubstituteConcat(h: string, rest: string, bound: map<string, string>)
    requires BraceFree(h)
    ensures Substitute(h + rest, bound) == h + Substitute(rest, bound)
  {
    if h == "" {
      assert h + rest == rest;
    } else {
      assert (h + rest)[1..] == h[1..] + rest;
      SubstituteConcat(h[1..], rest, bound);
    }
  }

  /** Plain text in front joins the plain text of the first part. */
  function Joined(h: string, part: Part): Part {
    if part.Broken? then part else part.(h := h + part.h)
  }

  lemma {:induction false} PartAtConcat(h: string, rest: string, n: nat)
    requires n <= |rest|
    ensures PartAt(h + rest, |h| + n) == Joined(h, PartAt(rest, n))
  {
    SuffixConcat(h, rest, n);
    assert (h + rest)[..|h| + n] == h + rest[..n];
    if n == |rest| {
    } else if rest[n] == '}' {
      SuffixConcat(h, rest, n + 1);
    } else if Name(rest[n..]).Some? {
      SuffixConcat(h, rest, n + |Name(rest[n..]).value| + 2);
    }
  }

  lemma {:induction false} PartConcat(h: string, rest: string)
    requires BraceFree(h)
    ensures FirstPart(h + rest) == Joined(h, FirstPart(rest))
  {
    HeadConcat(h, rest);
    PartAtConcat(h, rest, |Head(rest)|);
  }

  lemma {:induction false} SuffixConcat(h: string, rest: string, m: nat)
    requires m <= |rest|
    ensures (h + rest)[|h| + m..] == rest[m..]
  {
  }

  lemma {:induction false} ClosesConcat(h: string, rest: string)
    requires BraceFree(h)
    ensures Closes(h + rest) <==> Closes(rest)
  {
    PartConcat(h, rest);
  }

  lemma {:induction false} NoNestingConcat(h: string, rest: string)
    requires BraceFree(h)
    ensures NoNesting(h + rest) <==> NoNesting(rest)
  {
    if h == "" {
      assert h + rest == rest;
    } else {
      assert (h + rest)[1..] == h[1..] + rest;
      NoNestingConcat(h[1..], rest);
    }
  }

  /** The text that starts with the placeholder of a name. */
  function Placed(name: string, rest: string): (s: string)
    ensures |s| == |name| + 2 + |rest| && s[0] == '{' && s[1..] == name + (['}'] + rest) && s[|name| + 2..] == rest
  {
    ['{'] + (name + (['}'] + rest))
  }

  /** The name of a placeholder is read off the text; there is no other way to read it. */
  lemma {:induction false} NameIs(name: string, rest: string)
    requires BraceFree(name)
    ensures Name(Placed(name, rest)) == Some(name)
  {
    HeadConcat(name, ['}'] + rest);
    assert name + Head(['}'] + rest) == name;
  }

  lemma {:induction false} NameReads(s: string)
    requires Name(s).Some?
    ensures BraceFree(Name(s).value) && s == Placed(Name(s).value, s[|Name(s).value| + 2..])
  {
    var name := Name(s).value;
    HeadIs(s[1..]);
    assert s[1..] == name + s[1..][|name|..];
  }

  /** An identifier's placeholder starts s exactly when that is the name read there. */
  lemma {:induction false} StartsWithIff(s: string, x: Var)
    requires BraceFree(x.key)
    ensures StartsWith(s, x.Placeholder()) <==> Name(s) == Some(x.key)
  {
    if StartsWith(s, x.Placeholder()) {
      assert s == Placed(x.key, s[|x.key| + 2..]);
      NameIs(x.key, s[|x.key| + 2..]);
    }
    if Name(s) == Some(x.key) {
      NameReads(s);
    }
  }

  /** A placeholder of another name is copied whole. */
  lemma {:induction false} FillKeepsPlaceholder(s: string, x: Var)
    requires BraceFree(x.key) && Name(s).Some? && Name(s).value != x.key
    ensures var name := Name(s).value;
            Fill(s, x) == Placed(name, Fill(s[|name| + 2..], x)) && Fill(s, x) == ['{'] + Fill(s[1..], x)
  {
    var name := Name(s).value;
    var rest := s[|name| + 2..];
    NameReads(s);
    StartsWithIff(s, x);
    assert s[1..] == name + (['}'] + rest);
    FillConcat(name, ['}'] + rest, x);
    assert (['}'] + rest)[1..] == rest && x.Placeholder()[0] == '{';
  }

  lemma {:induction false} HoleIs(name: string, rest: string)
    requires BraceFree(name)
    ensures FirstPart(Placed(name, rest)) == Hole("", name, rest)
  {
    NameIs(name, rest);
    var s := Placed(name, rest);
    assert Head(s) == "" && s[0..] == s;
  }

  lemma {:induction false} EndIs(rest: string)
    ensures FirstPart(['}'] + rest) == End("", rest)
  {
    assert Head(['}'] + rest) == "" && (['}'] + rest)[1..] == rest;
  }

  lemma {:induction false} ClosesPlaced(name: string, rest: string)
    requires BraceFree(name)
    ensures Closes(Placed(name, rest)) <==> Closes(rest)
  {
    HoleIs(name, rest);
  }

  lemma {:induction false} NoNestingPlaced(name: string, rest: string)
    requires BraceFree(name)
    ensures NoNesting(Placed(name, rest)) <==> NoNesting(rest)
  {
    NameIs(name, rest);
    NoNestingConcat(name, ['}'] + rest);
    assert (['}'] + rest)[1..] == rest;
  }

  lemma {:induction false} NoNestingSuffix(s: string, n: nat)
    requires NoNesting(s) && n <= |s|
    ensures NoNesting(s[n..])
  {
    if n == 0 {
      assert s[0..] == s;
    } else {
      NoNestingSuffix(s[1..], n - 1);
      assert s[1..][n - 1..] == s[n..];
    }
  }

  lemma {:induction false} FillPlaced(name: string, rest: string, x: Var)
    requires BraceFree(x.key) && BraceFree(name)
    ensures Fill(Placed(name, rest), x) == if name == x.key then x.value + Fill(rest, x) else Placed(name, Fill(rest, x))
  {
    NameIs(name, rest);
    StartsWithIff(Placed(name, rest), x);
    if name != x.key {
      FillKeepsPlaceholder(Placed(name, rest), x);
    }
  }

  lemma {:induction false} SubstitutePlaced(name: string, rest: string, bound: map<string, string>)
    requires BraceFree(name)
    ensures Substitute(Placed(name, rest), bound) ==
            if name in bound then bound[name] + Substitute(rest, bound) else Placed(name, Substitute(rest, bound))
  {
    NameIs(name, rest);
    if name !in bound {
      SubstituteConcat(name, ['}'] + rest, bound);
      assert (['}'] + rest)[1..] == rest;
    }
  }

  /** Filling a plain variable in opens and closes nothing. */
  lemma {:induction false} FillKeepsNesting(s: string, x: Var)
    requires NoNesting(s) && Plain(x)
    ensures NoNesting(Fill(s, x)) && (Closes(Fill(s, x)) <==> Closes(s))
  {
    if s == "" {
    } else if Name(s).Some? {
      var name := Name(s).value;
      var rest := s[|name| + 2..];
      NameReads(s);
      NoNestingSuffix(s, |name| + 2);
      FillKeepsNesting(rest, x);
      FillPlaced(name, rest, x);
      ClosesPlaced(name, rest);
      FilledPlaceKeepsNesting(name, Fill(rest, x), x);
    } else {
      FillKeepsNesting(s[1..], x);
      StartsWithIff(s, x);
      assert s == [s[0]] + s[1..];
      FilledCharKeepsNesting(s[0], s[1..], Fill(s[1..], x));
    }
  }

  lemma {:induction false} FilledPlaceKeepsNesting(name: string, filled: string, x: Var)
    requires BraceFree(name) && Plain(x) && NoNesting(filled)
    ensures var s := if name == x.key then x.value + filled else Placed(name, filled);
            NoNesting(s) && (Closes(s) <==> Closes(filled))
  {
    if name == x.key {
      ClosesConcat(x.value, filled);
      NoNestingConcat(x.value, filled);
    } else {
      ClosesPlaced(name, filled);
      NoNestingPlaced(name, filled);
    }
  }

  lemma {:induction false} FilledCharKeepsNesting(c: char, rest: string, filled: string)
    requires Name([c] + rest).None? && NoNesting([c] + rest) && NoNesting(filled) && (Closes(filled) <==> Closes(rest))
    ensures NoNesting([c] + filled) && (Closes([c] + filled) <==> Closes([c] + rest)) && Name([c] + filled).None?
  {
    assert ([c] + rest)[1..] == rest && ([c] + filled)[1..] == filled;
    if c == '{' {
      StillOpen(filled);
      StillOpen(rest);
    } else if c == '}' {
      EndIs(rest);
      EndIs(filled);
    } else {
      ClosesConcat([c], rest);
      ClosesConcat([c], filled);
    }
  }

  /** An opening brace that nothing closes starts no placeholder and is none of the parts of a nest. */
  lemma {:induction false} StillOpen(rest: string)
    requires !Closes(rest)
    ensures Name(['{'] + rest).None? && !Closes(['{'] + rest)
  {
    assert (['{'] + rest)[1..] == rest && Head(['{'] + rest) == "" && (['{'] + rest)[0..] == ['{'] + rest;
  }

  /** A text that starts no placeholder, and still starts none after the filling. */
  lemma {:induction false} FillNoPlaceholder(s: string, x: Var)
    requires NoNesting(s) && Plain(x) && s != "" && Name(s).None?
    ensures Fill(s, x) == [s[0]] + Fill(s[1..], x) && Name(Fill(s, x)).None?
  {
    StartsWithIff(s, x);
    FillKeepsNesting(s[1..], x);
    assert s == [s[0]] + s[1..];
    FilledCharKeepsNesting(s[0], s[1..], Fill(s[1..], x));
  }

  lemma {:induction false} SubstituteNoPlaceholder(c: char, rest: string, bound: map<string, string>)
    requires Name([c] + rest).None?
    ensures Substitute([c] + rest, bound) == [c] + Substitute(rest, bound)
  {
    assert ([c] + rest)[1..] == rest;
  }

  /** One step of the loop: filling one variable in first does not change what the others do. */
  lemma {:induction false} FillThenSubstitute(s: string, x: Var, bound: map<string, string>)
    requires NoNesting(s) && Plain(x) && x.key !in bound
    ensures Substitute(Fill(s, x), bound) == Substitute(s, bound[x.key := x.value])
  {
    if Name(s).Some? {
      var name := Name(s).value;
      var rest := s[|name| + 2..];
      NameReads(s);
      NoNestingSuffix(s, |name| + 2);
      FillThenSubstitute(rest, x, bound);
      FillPlaced(name, rest, x);
      PlacedThenSubstitute(name, rest, Fill(rest, x), x, bound);
    } else if s != "" {
      FillThenSubstitute(s[1..], x, bound);
      FillNoPlaceholder(s, x);
      SubstituteNoPlaceholder(s[0], Fill(s[1..], x), bound);
      assert s == [s[0]] + s[1..];
      SubstituteNoPlaceholder(s[0], s[1..], bound[x.key := x.value]);
    }
  }

  /** filled is what filling in x makes of the rest. */
  lemma {:induction false} PlacedThenSubstitute(name: string, rest: string, filled: string, x: Var, bound: map<string, string>)
    requires BraceFree(name) && Plain(x) && x.key !in bound
    requires Substitute(filled, bound) == Substitute(rest, bound[x.key := x.value])
    ensures Substitute(if name == x.key then x.value + filled else Placed(name, filled), bound) ==
            Substitute(Placed(name, rest), bound[x.key := x.value])
  {
    SubstitutePlaced(name, rest, bound[x.key := x.value]);
    if name == x.key {
      SubstituteConcat(x.value, filled, bound);
    } else {
      SubstitutePlaced(name, filled, bound);
    }
  }

  // ---------- The whole loop ----------

  lemma {:induction false} NothingBound(s: string)
    ensures Substitute(s, map[]) == s
  {
    if s == "" {
    } else {
      NothingBound(s[1..]);
    }
  }

  lemma {:induction false} LoopKeepsNesting(text: string, vars: seq<Var>)
    requires NoNesting(text) && AllPlain(vars)
    ensures NoNesting(ReplaceAll(text, vars))
  {
    if vars == [] {
    } else {
      var n := |vars| - 1;
      LoopKeepsNesting(text, vars[..n]);
      var before := ReplaceAll(text, vars[..n]);
      ReplaceIsFill(before, 0, vars[n]);
      assert before[0..] == before;
      FillKeepsNesting(before, vars[n]);
    }
  }

  lemma {:induction false} BoundKeys(vars: seq<Var>)
    ensures forall k :: k in Bindings(vars) <==> exists i :: 0 <= i < |vars| && vars[i].key == k
  {
    if vars == [] {
    } else {
      BoundKeys(vars[..|vars| - 1]);
    }
  }

  lemma {:induction false} ReplaceThenSubstitute(text: string, x: Var, bound: map<string, string>)
    requires NoNesting(text) && Plain(x) && x.key !in bound
    ensures Substitute(Replace(text, x), bound) == Substitute(text, bound[x.key := x.value])
  {
    ReplaceIsFill(text, 0, x);
    assert text[0..] == text;
    FillThenSubstitute(text, x, bound);
  }

  lemma {:induction false} BindLast(vars: seq<Var>, bound: map<string, string>)
    requires vars != [] && AllPlain(vars)
    ensures var x, init := vars[|vars| - 1], Bindings(vars[..|vars| - 1]);
            bound[x.key := x.value] + init == bound + Bindings(vars)
  {
    BoundKeys(vars[..|vars| - 1]);
  }

  lemma {:induction false} LoopThenSubstitute(text: string, vars: seq<Var>, bound: map<string, string>)
    requires NoNesting(text) && AllPlain(vars)
    requires forall i :: 0 <= i < |vars| ==> vars[i].key !in bound
    ensures Substitute(ReplaceAll(text, vars), bound) == Substitute(text, bound + Bindings(vars))
  {
    if vars == [] {
      assert bound + map[] == bound;
    } else {
      var n := |vars| - 1;
      var x, before := vars[n], ReplaceAll(text, vars[..n]);
      LoopKeepsNesting(text, vars[..n]);
      ReplaceThenSubstitute(before, x, bound);
      LoopThenSubstitute(text, vars[..n], bound[x.key := x.value]);
      BindLast(vars, bound);
    }
  }

  /** For a template without nested braces the loop is one simultaneous substitution. */
  lemma {:induction false} LoopIsSubstitution(text: string, vars: seq<Var>)
    requires NoNesting(text) && AllPlain(vars)
    ensures ReplaceAll(text, vars) == Substitute(text, Bindings(vars))
  {
    LoopThenSubstitute(text, vars, map[]);
    NothingBound(ReplaceAll(text, vars));
    assert map[] + Bindings(vars) == Bindings(vars);
  }

  lemma {:induction false} BindingOf(vars: seq<Var>, i: nat)
    requires AllPlain(vars) && i < |vars|
    ensures vars[i].key in Bindings(vars) && Bindings(vars)[vars[i].key] == vars[i].value
  {
    if i == |vars| - 1 {
    } else {
      BindingOf(vars[..|vars| - 1], i);
    }
  }

  /** The order of the variables does not matter. */
  lemma {:induction false} OrderDoesNotMatter(text: string, vars: seq<Var>, other: seq<Var>)
    requires NoNesting(text) && AllPlain(vars) && AllPlain(other)
    requires forall x :: x in vars <==> x in other
    ensures ReplaceAll(text, vars) == ReplaceAll(text, other)
  {
    LoopIsSubstitution(text, vars);
    LoopIsSubstitution(text, other);
    SameBindings(vars, other);
    SameBindings(other, vars);
    assert Bindings(vars) == Bindings(other);
  }

  lemma {:induction false} SameBindings(vars: seq<Var>, other: seq<Var>)
    requires AllPlain(vars) && AllPlain(other) && forall x :: x in vars ==> x in other
    ensures forall k :: k in Bindings(vars) ==> k in Bindings(other) && Bindings(other)[k] == Bindings(vars)[k]
  {
    BoundKeys(vars);
    forall k | k in Bindings(vars) ensures k in Bindings(other) && Bindings(other)[k] == Bindings(vars)[k] {
      var i :| 0 <= i < |vars| && vars[i].key == k;
      assert vars[i] in other;
      var j :| 0 <= j < |other| && other[j] == vars[i];
      BindingOf(vars, i);
      BindingOf(other, j);
    }
  }

  /** A placeholder nobody binds stays as it is, and a bound one becomes its value. */
  lemma {:induction false} PlaceholderBecomes(name: string, rest: string, vars: seq<Var>)
    requires BraceFree(name) && NoNesting(Placed(name, rest)) && AllPlain(vars)
    ensures ReplaceAll(Placed(name, rest), vars) ==
            if name in Bindings(vars) then Bindings(vars)[name] + ReplaceAll(rest, vars) else Placed(name, ReplaceAll(rest, vars))
  {
    LoopIsSubstitution(Placed(name, rest), vars);
    NoNestingSuffix(Placed(name, rest), |name| + 2);
    LoopIsSubstitution(rest, vars);
    SubstitutePlaced(name, rest, Bindings(vars));
  }
}
