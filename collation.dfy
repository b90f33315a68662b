/**
 * How the ledger's SQL engine compares TEXT values under its default
 * (binary) collation: character by character on code points, and a proper
 * prefix sorts before the longer string. Both ORDER BY on dates and the
 * chronological reading of stored timestamps rest on this order.
 */
module Collation {

  /** a sorts at or before b. */
  predicate TextLe(a: string, b: string)
    decreases |a|
  {
    |a| == 0 || (|b| > 0 && (a[0] < b[0] || (a[0] == b[0] && TextLe(a[1..], b[1..]))))
  }

  /** a sorts strictly before b. */
  predicate TextLt(a: string, b: string)
  {
    TextLe(a, b) && a != b
  }

  lemma {:induction false} TextLeReflexive(a: string)
    ensures TextLe(a, a)
    decreases |a|
  {
    if |a| > 0 {
      TextLeReflexive(a[1..]);
    }
  }

  /** Any two texts are comparable. */
  lemma {:induction false} TextLeTotal(a: string, b: string)
    ensures TextLe(a, b) || TextLe(b, a)
    decreases |a|
  {
    if |a| > 0 && |b| > 0 && a[0] == b[0] {
      TextLeTotal(a[1..], b[1..]);
    }
  }

  lemma {:induction false} TextLeTransitive(a: string, b: string, c: string)
    requires TextLe(a, b) && TextLe(b, c)
    ensures TextLe(a, c)
    decreases |a|
  {
    if |a| > 0 && a[0] == b[0] && b[0] == c[0] {
      TextLeTransitive(a[1..], b[1..], c[1..]);
    }
  }

  lemma {:induction false} TextLeAntisymmetric(a: string, b: string)
    requires TextLe(a, b) && TextLe(b, a)
    ensures a == b
    decreases |a|
  {
    if |a| > 0 {
      TextLeAntisymmetric(a[1..], b[1..]);
      assert a == [a[0]] + a[1..] && b == [b[0]] + b[1..];
    }
  }

  /**
   * Comparing two texts that start with pieces of the same length decides on
   * those pieces first, and on the rest only when the pieces are equal. This is
   * what makes fixed-width, most-significant-first fields sort correctly.
   */
  lemma {:induction false} TextLeOnSameWidthPrefix(a1: string, b1: string, a2: string, b2: string)
    requires |a1| == |a2|
    ensures TextLe(a1 + b1, a2 + b2) <==> TextLt(a1, a2) || (a1 == a2 && TextLe(b1, b2))
    decreases |a1|
  {
    if |a1| == 0 {
      assert a1 + b1 == b1 && a2 + b2 == b2;
    } else {
      assert (a1 + b1)[0] == a1[0] && (a2 + b2)[0] == a2[0];
      assert (a1 + b1)[1..] == a1[1..] + b1;
      assert (a2 + b2)[1..] == a2[1..] + b2;
      TextLeOnSameWidthPrefix(a1[1..], b1, a2[1..], b2);
      assert a1 == [a1[0]] + a1[1..] && a2 == [a2[0]] + a2[1..];
      if a1[0] == a2[0] {
        assert a1 == a2 <==> a1[1..] == a2[1..];
      }
    }
  }
}
