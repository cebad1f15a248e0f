/** Facts about strings built by concatenation around a separator: when the
    separator cannot occur in the part next to it, the parts are fixed by the
    whole. They let the command modules read arguments back out of a command. */
module Split {

  /** The part of `s` before the first `c` (all of `s` if there is none). */
  function Before(s: string, c: char): string {
    if s == [] || s[0] == c then [] else [s[0]] + Before(s[1..], c)
  }

  /** The part of `s` after the last `c` (all of `s` if there is none). */
  function After(s: string, c: char): string {
    if s == [] || s[|s| - 1] == c then [] else After(s[..|s| - 1], c) + [s[|s| - 1]]
  }

  lemma {:induction false} BeforeSeparator(a: string, r: string, c: char)
    requires c !in a
    ensures Before(a + [c] + r, c) == a
  {
    if a != [] {
      assert (a + [c] + r)[1..] == a[1..] + [c] + r;
      BeforeSeparator(a[1..], r, c);
    }
  }

  lemma {:induction false} AfterSeparator(x: string, b: string, c: char)
    requires c !in b
    ensures After(x + [c] + b, c) == b
  {
    if b != [] {
      var s := x + [c] + b;
      assert s[..|s| - 1] == x + [c] + b[..|b| - 1];
      AfterSeparator(x, b[..|b| - 1], c);
    }
  }

  /** A fixed prefix and suffix can be stripped off. */
  lemma StripAffixes(pre: string, a: string, b: string, suf: string)
    requires pre + a + suf == pre + b + suf
    ensures a == b
  {
    var s := pre + a + suf;
    assert |a| == |b|;
    assert a == s[|pre|..|pre| + |a|];
    assert b == (pre + b + suf)[|pre|..|pre| + |b|];
  }

  /** Splitting at the first occurrence of `c`. */
  lemma SplitAtFirst(a1: string, r1: string, a2: string, r2: string, c: char)
    requires c !in a1 && c !in a2
    requires a1 + [c] + r1 == a2 + [c] + r2
    ensures a1 == a2 && r1 == r2
  {
    BeforeSeparator(a1, r1, c);
    BeforeSeparator(a2, r2, c);
    var s := a1 + [c] + r1;
    assert r1 == s[|a1| + 1..];
    assert r2 == (a2 + [c] + r2)[|a2| + 1..];
  }

  /** Splitting at the last occurrence of `c`. */
  lemma SplitAtLast(x1: string, b1: string, x2: string, b2: string, c: char)
    requires c !in b1 && c !in b2
    requires x1 + [c] + b1 == x2 + [c] + b2
    ensures x1 == x2 && b1 == b2
  {
    AfterSeparator(x1, b1, c);
    AfterSeparator(x2, b2, c);
    var s := x1 + [c] + b1;
    assert x1 == s[..|x1|];
    assert x2 == (x2 + [c] + b2)[..|x2|];
  }
}
