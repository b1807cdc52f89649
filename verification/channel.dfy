/**
 * The update channel between the streaming task and the render loop, as a
 * sequential FIFO queue of text fragments: `send` appends, `try_recv` takes
 * the oldest fragment or reports that nothing is pending, without blocking.
 */
module Channel {
  import opened Wrappers

  class FragmentQueue {
    /** Fragments sent and not yet received, oldest first. */
    var pending: seq<string>

    constructor ()
      ensures pending == []
    {
      pending := [];
    }

    /** The producer side: the streaming task forwards one decoded fragment. */
    method Send(fragment: string)
      modifies this
      ensures pending == old(pending) + [fragment]
    {
      pending := pending + [fragment];
    }

    /** Several fragments sent one after the other. */
    method SendAll(fragments: seq<string>)
      modifies this
      ensures pending == old(pending) + fragments
    {
      for j := 0 to |fragments|
        invariant pending == old(pending) + fragments[..j]
      {
        Send(fragments[j]);
        assert fragments[..j + 1] == fragments[..j] + [fragments[j]];
      }
      assert fragments[..|fragments|] == fragments;
    }

    /** The consumer side: the oldest pending fragment, or `None` when the queue is empty. */
    method TryRecv() returns (r: Option<string>)
      modifies this
      ensures old(pending) == [] ==> r == None && pending == []
      ensures old(pending) != [] ==> r == Some(old(pending)[0]) && pending == old(pending)[1..]
    {
      if pending == [] {
        r := None;
      } else {
        r := Some(pending[0]);
        pending := pending[1..];
      }
    }
  }
}
