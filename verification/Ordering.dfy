// The alphabetical order on names used to choose the next node to upgrade
// (Go's cmp.Compare on strings).

module Ordering {

  /** `a` sorts strictly before `b`. */
  predicate Below(a: string, b: string) {
    if |b| == 0 then false
    else if |a| == 0 then true
    else a[0] < b[0] || (a[0] == b[0] && Below(a[1..], b[1..]))
  }

  lemma {:induction false} BelowIrreflexive(a: string)
    ensures !Below(a, a)
  {
    if |a| > 0 {
      BelowIrreflexive(a[1..]);
    }
  }

  lemma {:induction false} BelowTotal(a: string, b: string)
    ensures Below(a, b) || a == b || Below(b, a)
  {
    if |a| > 0 && |b| > 0 && a[0] == b[0] {
      BelowTotal(a[1..], b[1..]);
      assert a == [a[0]] + a[1..] && b == [b[0]] + b[1..];
    }
  }

  lemma {:induction false} BelowTransitive(a: string, b: string, c: string)
    requires Below(a, b) && Below(b, c)
    ensures Below(a, c)
  {
    if |a| > 0 && a[0] == b[0] && b[0] == c[0] {
      BelowTransitive(a[1..], b[1..], c[1..]);
    }
  }

  /** Alphabetical order: at the first difference the smaller character, or a proper prefix. */
  predicate Alphabetical(a: string, b: string) {
    || (|a| < |b| && a == b[..|a|])
    || exists k :: 0 <= k < |a| && k < |b| && DiffersAt(a, b, k)
  }

  predicate DiffersAt(a: string, b: string, k: nat)
    requires k < |a| && k < |b|
  {
    a[..k] == b[..k] && a[k] < b[k]
  }

  /** The recursive order used by the model is alphabetical order. */
  lemma {:induction false} BelowIsAlphabetical(a: string, b: string)
    ensures Below(a, b) <==> Alphabetical(a, b)
  {
    if |a| > 0 && |b| > 0 {
      var c, d := a[1..], b[1..];
      BelowIsAlphabetical(c, d);
      if Below(a, b) {
        if a[0] < b[0] {
          assert DiffersAt(a, b, 0);
        } else if !(|c| < |d| && c == d[..|c|]) {
          var k :| 0 <= k < |c| && k < |d| && DiffersAt(c, d, k);
          assert a[..k + 1] == [a[0]] + c[..k] && b[..k + 1] == [b[0]] + d[..k];
          assert DiffersAt(a, b, k + 1);
        } else {
          assert a == [a[0]] + c && b[..|a|] == [b[0]] + d[..|c|];
        }
      }
      if Alphabetical(a, b) {
        if |a| < |b| && a == b[..|a|] {
          assert a[0] == b[..|a|][0] && c == b[..|a|][1..] == d[..|c|];
        } else {
          var k :| 0 <= k < |a| && k < |b| && DiffersAt(a, b, k);
          if k > 0 {
            assert a[0] == a[..k][0] == b[..k][0] == b[0];
            assert c[..k - 1] == a[..k][1..] == b[..k][1..] == d[..k - 1];
            assert DiffersAt(c, d, k - 1);
          }
        }
      }
    }
  }

  /** Two names that share a prefix and then differ. */
  lemma SmallerCharacterFirst(p: string, x: char, s: string, y: char, t: string)
    requires x < y
    ensures Below(p + [x] + s, p + [y] + t) && !Below(p + [y] + t, p + [x] + s)
  {
    var a, b := p + [x] + s, p + [y] + t;
    assert a[..|p|] == p == b[..|p|] && DiffersAt(a, b, |p|);
    BelowIsAlphabetical(a, b);
    BelowIrreflexive(a);
    if Below(b, a) { BelowTransitive(a, b, a); }
  }

  lemma ShorterFirst(a: string, rest: string)
    requires rest != ""
    ensures Below(a, a + rest) && !Below(a + rest, a)
  {
    assert (a + rest)[..|a|] == a;
    BelowIsAlphabetical(a, a + rest);
    BelowIrreflexive(a);
    if Below(a + rest, a) { BelowTransitive(a, a + rest, a); }
  }
}
