/** What a thread does to the world outside it, in the one order in which it does it. */
module Effects {

  /**
   One log for everything the serve thread touches. The record, the journal and the connections each
   write their own effects to it as they take them, so nobody can write down an order that did not happen.
   */
  class Recorder<E> {
    ghost var effects: seq<E>

    constructor ()
      ensures effects == []
    {
      effects := [];
    }

    ghost method Record(e: E)
      modifies this
      ensures effects == old(effects) + [e]
    {
      effects := effects + [e];
    }
  }
}
