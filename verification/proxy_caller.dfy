/**
 * The `dbProxyCaller` interface: one remote action with an argument map, an
 * optional result struct to decode into, and (for queries) a row stream back.
 * Which transport answers is left abstract: a caller answers the n-th call it is
 * given with a reply chosen in advance, and keeps a ghost log of every call, so
 * that "no remote call was made" can be stated as "the log did not grow".
 */
module ProxyCaller {
  import opened Wire

  /** One use of `callDBProxy(action, args, res)`, with the streaming flag made explicit. */
  datatype Call = Call(action: string, args: Args, target: Target, streaming: bool)

  /**
   * What `callDBProxy` hands back: the status, the row stream (None is a nil
   * channel), the error, and what it decoded into the result struct.
   */
  datatype Reply = Reply(status: int, rows: Option<seq<Row>>, err: Option<Error>, res: Decoded)

  /**
   * What both transports promise about the result struct: a failed call leaves it
   * at its zero value, and a call only fills the fields of its own target.
   */
  predicate Honours(t: Target, r: Reply)
  {
    Confined(t, r.res) && (r.err.Some? ==> r.res == Zero)
  }

  class Caller {
    /** The reply to the n-th call, as the remote side chooses it. */
    const answer: (nat, Call) -> Reply
    /** How many calls have been made. */
    var served: nat
    /** Every call made, in order. */
    ghost var log: seq<Call>

    constructor (answer: (nat, Call) -> Reply)
      ensures this.answer == answer && served == 0 && log == []
    {
      this.answer := answer;
      served := 0;
      log := [];
    }

    /** The reply the next call `c` will get. */
    function Pending(c: Call): Reply
      reads this
    {
      answer(served, c)
    }

    method CallDBProxy(c: Call) returns (r: Reply)
      modifies this
      ensures r == old(Pending(c))
      ensures served == old(served) + 1 && log == old(log) + [c]
    {
      r := answer(served, c);
      served := served + 1;
      log := log + [c];
    }
  }
}
