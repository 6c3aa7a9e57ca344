/**
 * The fragment of Go's RE2 syntax that the field formats use, with its
 * matching semantics. Every format is anchored at both ends (`^...$`), so
 * `Matches(r, s)` is a match of the whole string `s`.
 */
module Regex {
  import opened Optional
  import opened Chars

  /** A bracket expression or class escape: `\d`, `\w`, `\s`, one character, a range, or a union of these. */
  datatype CharClass =
    | Digit
    | Word
    | Space
    | Lit(c: char)
    | Span(lo: char, hi: char)
    | Union(a: CharClass, b: CharClass)

  predicate InClass(k: CharClass, c: char) {
    match k
    case Digit => IsDigit(c)
    case Word => IsWordChar(c)
    case Space => IsSpaceChar(c)
    case Lit(d) => c == d
    case Span(lo, hi) => lo <= c <= hi
    case Union(a, b) => InClass(a, c) || InClass(b, c)
  }

  /** Regular expressions: one character of a class, concatenation, alternation `|`, and `+`. */
  datatype Re =
    | Class(k: CharClass)
    | Cat(left: Re, right: Re)
    | Alt(left: Re, right: Re)
    | Plus(body: Re)

  /** `r{n}` for n >= 1. */
  function Repeat(r: Re, n: nat): Re
    requires n >= 1
  {
    if n == 1 then r else Cat(r, Repeat(r, n - 1))
  }

  /** A literal word such as `24:00`. */
  function Literal(w: string): Re
    requires |w| >= 1
  {
    if |w| == 1 then Class(Lit(w[0])) else Cat(Class(Lit(w[0])), Literal(w[1..]))
  }

  /** `s`, as a whole, is in the language of `r`. */
  ghost predicate Matches(r: Re, s: string)
    decreases r, |s|
  {
    match r
    case Class(k) => |s| == 1 && InClass(k, s[0])
    case Cat(a, b) => exists i :: 0 <= i <= |s| && Matches(a, s[..i]) && Matches(b, s[i..])
    case Alt(a, b) => Matches(a, s) || Matches(b, s)
    case Plus(a) =>
      Matches(a, s) || exists i :: 0 < i < |s| && Matches(a, s[..i]) && Matches(Plus(a), s[i..])
  }

  /** The length of every string `r` matches, when that length is fixed. */
  function Width(r: Re): Option<nat> {
    match r
    case Class(_) => Some(1)
    case Cat(a, b) =>
      if Width(a).Some? && Width(b).Some? then Some(Width(a).value + Width(b).value) else None
    case Alt(a, b) =>
      if Width(a).Some? && Width(a) == Width(b) then Width(a) else None
    case Plus(_) => None
  }

  lemma {:induction false} MatchLength(r: Re, s: string)
    requires Width(r).Some? && Matches(r, s)
    ensures |s| == Width(r).value
  {
    match r
    case Class(_) =>
    case Cat(a, b) =>
      var i :| 0 <= i <= |s| && Matches(a, s[..i]) && Matches(b, s[i..]);
      MatchLength(a, s[..i]);
      MatchLength(b, s[i..]);
    case Alt(a, b) =>
      if Matches(a, s) { MatchLength(a, s); } else { MatchLength(b, s); }
  }

  /** A concatenation whose left part has a fixed width splits at that width. */
  lemma CatLeftFixed(a: Re, b: Re, s: string)
    requires Width(a).Some?
    ensures Matches(Cat(a, b), s) <==>
      Width(a).value <= |s| && Matches(a, s[..Width(a).value]) && Matches(b, s[Width(a).value..])
  {
    var w := Width(a).value;
    if Matches(Cat(a, b), s) {
      var i :| 0 <= i <= |s| && Matches(a, s[..i]) && Matches(b, s[i..]);
      MatchLength(a, s[..i]);
    }
  }

  /** A concatenation whose right part has a fixed width splits that many characters from the end. */
  lemma CatRightFixed(a: Re, b: Re, s: string)
    requires Width(b).Some?
    ensures Matches(Cat(a, b), s) <==>
      Width(b).value <= |s| && Matches(a, s[..|s| - Width(b).value]) && Matches(b, s[|s| - Width(b).value..])
  {
    var w := Width(b).value;
    if Matches(Cat(a, b), s) {
      var i :| 0 <= i <= |s| && Matches(a, s[..i]) && Matches(b, s[i..]);
      MatchLength(b, s[i..]);
    }
  }

  /** Two single-character classes in a row match exactly the two-character strings they describe. */
  lemma ClassPair(k1: CharClass, k2: CharClass, s: string)
    ensures Matches(Cat(Class(k1), Class(k2)), s) <==>
      |s| == 2 && InClass(k1, s[0]) && InClass(k2, s[1])
  {
    CatLeftFixed(Class(k1), Class(k2), s);
  }

  /** `[k]+` matches exactly the non-empty strings all of whose characters are in `k`. */
  lemma {:induction false} PlusOfClass(k: CharClass, s: string)
    ensures Matches(Plus(Class(k)), s) <==> |s| >= 1 && forall i :: 0 <= i < |s| ==> InClass(k, s[i])
  {
    var r := Plus(Class(k));
    if |s| >= 2 {
      PlusOfClass(k, s[1..]);
      assert Matches(r, s) <==>
        Matches(Class(k), s) || exists i :: 0 < i < |s| && Matches(Class(k), s[..i]) && Matches(r, s[i..]);
      if Matches(r, s) {
        var i :| 0 < i < |s| && Matches(Class(k), s[..i]) && Matches(r, s[i..]);
        assert i == 1;
        forall j | 0 <= j < |s| ensures InClass(k, s[j]) {
          if j > 0 { assert s[j] == s[1..][j - 1]; } else { assert s[..1][0] == s[0]; }
        }
      }
      if forall i :: 0 <= i < |s| ==> InClass(k, s[i]) {
        forall j | 0 <= j < |s[1..]| ensures InClass(k, s[1..][j]) {
          assert s[1..][j] == s[j + 1];
        }
        assert Matches(Class(k), s[..1]) && Matches(r, s[1..]);
      }
    }
  }

  lemma {:induction false} RepeatWidth(r: Re, n: nat)
    requires n >= 1 && Width(r).Some?
    ensures Width(Repeat(r, n)) == Some(n * Width(r).value)
  {
    if n > 1 {
      RepeatWidth(r, n - 1);
    }
  }

  /** `[k]{n}` matches exactly the strings of length n all of whose characters are in `k`. */
  lemma {:induction false} RepeatOfClass(k: CharClass, n: nat, s: string)
    requires n >= 1
    ensures Matches(Repeat(Class(k), n), s) <==> |s| == n && forall i :: 0 <= i < |s| ==> InClass(k, s[i])
  {
    if n > 1 && |s| >= 1 {
      RepeatOfClass(k, n - 1, s[1..]);
      CatLeftFixed(Class(k), Repeat(Class(k), n - 1), s);
      if |s| == n && forall i :: 0 <= i < |s| ==> InClass(k, s[i]) {
        forall j | 0 <= j < |s[1..]| ensures InClass(k, s[1..][j]) {
          assert s[1..][j] == s[j + 1];
        }
      }
      if Matches(Class(k), s[..1]) && Matches(Repeat(Class(k), n - 1), s[1..]) {
        forall j | 0 <= j < |s| ensures InClass(k, s[j]) {
          if j > 0 { assert s[j] == s[1..][j - 1]; }
        }
      }
    } else if n > 1 {
      RepeatWidth(Class(k), n);
      if Matches(Repeat(Class(k), n), s) {
        MatchLength(Repeat(Class(k), n), s);
      }
    }
  }

  lemma {:induction false} LiteralWidth(w: string)
    requires |w| >= 1
    ensures Width(Literal(w)) == Some(|w|)
  {
    if |w| > 1 {
      LiteralWidth(w[1..]);
    }
  }

  /** A literal word matches itself and nothing else. */
  lemma {:induction false} LiteralMatches(w: string, s: string)
    requires |w| >= 1
    ensures Matches(Literal(w), s) <==> s == w
  {
    if |w| > 1 && |s| >= 1 {
      LiteralMatches(w[1..], s[1..]);
      LiteralWidth(w[1..]);
      CatLeftFixed(Class(Lit(w[0])), Literal(w[1..]), s);
      if s == w {
        assert s[..1][0] == w[0] && s[1..] == w[1..];
      }
      if |s| >= 1 && s[..1][0] == w[0] && s[1..] == w[1..] {
        assert s == [w[0]] + w[1..] == w;
      }
    } else if |w| > 1 {
      LiteralWidth(w);
      if Matches(Literal(w), s) {
        MatchLength(Literal(w), s);
      }
    }
  }
}
