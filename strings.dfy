/** Occurrences of one string inside another. */
module Strings {

  /** `sub` occurs in `s` starting at index `i`. */
  predicate Occurs(sub: string, s: string, i: int) {
    0 <= i && i + |sub| <= |s| && s[i..i + |sub|] == sub
  }

  /** Reference definition: `sub` occurs somewhere in `s`. */
  predicate Contains(s: string, sub: string) {
    exists i | 0 <= i <= |s| :: Occurs(sub, s, i)
  }

  /** An occurrence in the tail `s[1..]` is an occurrence in `s`, one place further on. */
  lemma OccursInTail(sub: string, s: string, i: nat)
    requires |s| > 0
    ensures Occurs(sub, s[1..], i) <==> Occurs(sub, s, i + 1)
  {
  }

  /**
   * Appending text keeps every occurrence where it was: the old text sits at
   * the start and the appended text right after it.
   */
  lemma Append(x: string, y: string)
    ensures Occurs(x, x + y, 0)
    ensures Occurs(y, x + y, |x|)
    ensures forall sub, i {:trigger Occurs(sub, x + y, i)} :: Occurs(sub, x, i) ==> Occurs(sub, x + y, i)
  {
    assert (x + y)[0..|x|] == x;
    assert (x + y)[|x|..|x| + |y|] == y;
    forall sub, i | Occurs(sub, x, i) ensures Occurs(sub, x + y, i) {
      assert (x + y)[i..i + |sub|] == x[i..i + |sub|];
    }
  }
}
