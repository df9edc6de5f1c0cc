/** Two facts about concatenation that the accounts of what runs do rest on. */
module Sequences {

  lemma Associate<T>(a: seq<T>, b: seq<T>, c: seq<T>)
    ensures (a + b) + c == a + (b + c)
  {
  }

  /** One step of an account: what is done and what is left are what was there and what came, for the step and for the
      rest of the run, and so for both. */
  lemma Carry<T>(done: seq<T>, later: seq<T>, left: seq<T>, first: seq<T>, between: seq<T>, came: seq<T>, more: seq<T>)
    requires done + between == first + came && later + left == between + more
    ensures (done + later) + left == first + (came + more)
  {
    assert (done + later) + left == done + (later + left);
    assert done + (between + more) == (done + between) + more;
  }
}
