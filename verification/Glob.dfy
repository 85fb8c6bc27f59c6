/** Namespace globs and the LIKE patterns they compile to. */
module Glob {
  import opened Wrappers

  /** The glob as the administrator means it: only `*` is special and stands for any text. */
  predicate StarMatch(p: string, s: string)
    decreases |p| + |s|
  {
    if p == "" then s == ""
    else if p[0] == '*' then StarMatch(p[1..], s) || (s != "" && StarMatch(p, s[1..]))
    else s != "" && s[0] == p[0] && StarMatch(p[1..], s[1..])
  }

  /** SQL LIKE with the default backslash escape. A pattern ending in a lone backslash is an error, not a match. */
  predicate LikeMatch(p: string, s: string)
    decreases |p| + |s|
  {
    if p == "" then s == ""
    else if p[0] == '%' then LikeMatch(p[1..], s) || (s != "" && LikeMatch(p, s[1..]))
    else if p[0] == '_' then s != "" && LikeMatch(p[1..], s[1..])
    else if p[0] == '\\' then |p| > 1 && s != "" && s[0] == p[1] && LikeMatch(p[2..], s[1..])
    else s != "" && s[0] == p[0] && LikeMatch(p[1..], s[1..])
  }

  function LikeChar(c: char): string {
    if c == '*' then "%" else if c == '%' || c == '_' || c == '\\' then ['\\', c] else [c]
  }

  function LikeOf(p: string): string {
    if p == "" then "" else LikeChar(p[0]) + LikeOf(p[1..])
  }

  lemma LikeOfAppend(p: string, c: char)
    ensures LikeOf(p + [c]) == LikeOf(p) + LikeChar(c)
  {
    if p != "" {
      LikeOfAppend(p[1..], c);
      assert (p + [c])[1..] == p[1..] + [c];
      assert LikeChar(p[0]) + (LikeOf(p[1..]) + LikeChar(c)) == LikeChar(p[0]) + LikeOf(p[1..]) + LikeChar(c);
    } else {
      assert (p + [c])[1..] == "";
      assert LikeChar(c) + "" == LikeChar(c);
    }
  }

  method GlobToLike(p: string) returns (b: string)
    ensures b == LikeOf(p)
  {
    b := "";
    for i := 0 to |p|
      invariant b == LikeOf(p[..i])
    {
      var r := p[i];
      assert p[..i + 1] == p[..i] + [r];
      LikeOfAppend(p[..i], r);
      if r == '*' {
        b := b + ['%'];
      } else if r == '%' || r == '_' || r == '\\' {
        b := b + ['\\'];
        b := b + [r];
      } else {
        b := b + [r];
      }
    }
    assert p[..|p|] == p;
  }

  /** The translation preserves meaning, for every glob and every text. */
  lemma {:induction false} LikeAgrees(p: string, s: string)
    ensures LikeMatch(LikeOf(p), s) <==> StarMatch(p, s)
    decreases |p| + |s|
  {
    if p != "" {
      var rest := LikeOf(p[1..]);
      assert LikeOf(p) == LikeChar(p[0]) + rest;
      if p[0] == '*' {
        assert LikeOf(p)[1..] == rest;
        LikeAgrees(p[1..], s);
        if s != "" { LikeAgrees(p, s[1..]); }
      } else if p[0] == '%' || p[0] == '_' || p[0] == '\\' {
        assert LikeOf(p)[2..] == rest;
        if s != "" { LikeAgrees(p[1..], s[1..]); }
      } else {
        assert LikeOf(p)[1..] == rest;
        if s != "" { LikeAgrees(p[1..], s[1..]); }
      }
    }
  }

  /** Without a star a glob matches itself and nothing else. */
  lemma {:induction false} StarFree(p: string, s: string)
    requires '*' !in p
    ensures StarMatch(p, s) <==> p == s
  {
    if p != "" && s != "" {
      StarFree(p[1..], s[1..]);
      assert p == [p[0]] + p[1..] && s == [s[0]] + s[1..];
    }
  }

  predicate LabelChar(c: char) {
    'a' <= c <= 'z' || '0' <= c <= '9' || c == '*'
  }

  /** The regular expression for patterns: label characters and stars, with hyphens only inside. */
  predicate NamespaceShaped(p: string) {
    && p != "" && LabelChar(p[0]) && LabelChar(p[|p| - 1])
    && forall i | 0 <= i < |p| :: LabelChar(p[i]) || p[i] == '-'
  }

  predicate AllStars(p: string) {
    forall i | 0 <= i < |p| :: p[i] == '*'
  }

  predicate ValidPattern(p: string) {
    p != "" && |p| <= 63 && NamespaceShaped(p) && !AllStars(p)
  }

  predicate Plain(p: string) {
    forall i | 0 <= i < |p| :: p[i] != '?' && p[i] != '[' && p[i] != '\\'
  }

  /** path.Match on the characters a valid pattern may hold: `*` stands for any text without a slash. */
  predicate PathMatch(p: string, s: string)
    requires Plain(p)
    decreases |p| + |s|
  {
    if p == "" then s == ""
    else if p[0] == '*' then PathMatch(p[1..], s) || (s != "" && s[0] != '/' && PathMatch(p, s[1..]))
    else s != "" && s[0] == p[0] && PathMatch(p[1..], s[1..])
  }

  lemma ValidIsPlain(p: string)
    requires ValidPattern(p)
    ensures Plain(p)
  {}

  /** On texts without a slash both readings of the star agree. */
  lemma {:induction false} PathAgrees(p: string, s: string)
    requires '/' !in s && Plain(p)
    ensures PathMatch(p, s) <==> StarMatch(p, s)
    decreases |p| + |s|
  {
    if p != "" {
      if p[0] == '*' {
        PathAgrees(p[1..], s);
        if s != "" { PathAgrees(p, s[1..]); }
      } else if s != "" {
        PathAgrees(p[1..], s[1..]);
      }
    }
  }

  lemma {:induction false} LiteralNeeded(p: string, s: string, i: nat)
    requires i < |p| && p[i] != '*' && StarMatch(p, s)
    ensures p[i] in s
    decreases |p| + |s|
  {
    if p[0] == '*' {
      if StarMatch(p[1..], s) { LiteralNeeded(p[1..], s, i - 1); } else { LiteralNeeded(p, s[1..], i); }
    } else if i > 0 {
      LiteralNeeded(p[1..], s[1..], i - 1);
    }
  }

  lemma {:induction false} StarsMatchAll(p: string, s: string)
    requires p != "" && AllStars(p)
    ensures StarMatch(p, s)
    decreases |p| + |s|
  {
    if s != "" { StarsMatchAll(p, s[1..]); } else if |p| > 1 { StarsMatchAll(p[1..], s); }
  }

  predicate Namespace(s: string) {
    0 < |s| <= 63 && NamespaceShaped(s) && '*' !in s
  }

  /** The refusal of all-star patterns is exact: those, and no others, would hide every namespace. */
  lemma HidesEverything(p: string)
    requires NamespaceShaped(p)
    ensures AllStars(p) <==> forall s | Namespace(s) :: StarMatch(p, s)
  {
    if AllStars(p) {
      forall s | Namespace(s) ensures StarMatch(p, s) { StarsMatchAll(p, s); }
    } else {
      var i :| 0 <= i < |p| && p[i] != '*';
      var s := if p[i] == 'x' then "y" else "x";
      assert Namespace(s);
      if StarMatch(p, s) { LiteralNeeded(p, s, i); }
    }
  }

  /** The pattern with a letter in place of every star. */
  function Starless(p: string): string {
    seq(|p|, i requires 0 <= i < |p| => if p[i] == '*' then 'x' else p[i])
  }

  datatype PatternError = Empty | TooLong | NotNamespaceShaped | HidesAll

  /** The first objection to a pattern, in the order of the checks. */
  method ValidatePattern(p: string) returns (error: Option<PatternError>)
    ensures error.None? <==> Namespace(Starless(p)) && exists i :: 0 <= i < |p| && p[i] != '*'
    ensures error.None? <==> ValidPattern(p)
    ensures error == Some(Empty) <==> p == ""
    ensures error == Some(TooLong) <==> |p| > 63
    ensures error == Some(HidesAll) <==> 0 < |p| <= 63 && forall i | 0 <= i < |p| :: p[i] == '*'
  {
    ShapedMeaning(p);
    if p == "" { return Some(Empty); }
    if |p| > 63 { return Some(TooLong); }
    if !NamespaceShaped(p) { return Some(NotNamespaceShaped); }
    for i := 0 to |p|
      invariant forall k | 0 <= k < i :: p[k] == '*'
    {
      if p[i] != '*' { return None; }
    }
    return Some(HidesAll);
  }

  /** A pattern has the shape of a namespace exactly when it becomes a label by putting letters for the stars. */
  lemma ShapedMeaning(p: string)
    ensures 0 < |p| <= 63 ==> (NamespaceShaped(p) <==> Namespace(Starless(p)))
    ensures AllStars(p) && p != "" ==> NamespaceShaped(p)
  {
    if p != "" {
      var q := Starless(p);
      assert forall i | 0 <= i < |p| :: q[i] != '*' && (LabelChar(q[i]) <==> LabelChar(p[i])) && (q[i] == '-' <==> p[i] == '-');
    }
  }
}
