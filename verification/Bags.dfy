/** Bookkeeping of what came in, what is kept and what went out, as bags. */
module Bags {

  /** Two steps that each balance balance together. */
  lemma {:induction false} Regroup<T(!new)>(first: seq<T>, out: seq<T>, before: multiset<T>, between: multiset<T>,
      after: multiset<T>,
                         came: multiset<T>, later: multiset<T>)
    requires multiset(first) + between == before + came
    requires multiset(out) + after == between + later
    ensures multiset(first + out) + after == before + (came + later)
  {
    forall x: T | true
      ensures (multiset(first + out) + after)[x] == (before + (came + later))[x]
    {
      assert (multiset(first) + between)[x] == (before + came)[x];
      assert (multiset(out) + after)[x] == (between + later)[x];
    }
  }
}
