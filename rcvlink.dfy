/**
 * The session-layer receiver link that the server link drives. Its own
 * implementation is not part of this model: it is an environment whose only
 * observable behaviour is what the calls made by the server link see.
 *
 * - `wire` is the queue of what the session has buffered for this link; a poll
 *   takes its head, and an empty queue means "not ready" and takes nothing.
 * - `credit` is the remaining credit that `credit()` reports; the environment
 *   sets it. It is not derived from `linkCredit`, the value last granted with
 *   `set_link_credit`.
 * - `calls` records, in order, every call the server link makes on it.
 */
module Rcv {
  import opened Wrappers
  import opened Amqp

  /** What a poll of the underlying link can deliver. */
  datatype Arrival =
    | Delivery(transfer: Transfer)    // Ok(Ready(Some(transfer)))
    | Finished                        // Ok(Ready(None)): the link is closed
    | Broken(error: TransportError)   // Err(error)

  /** One call made on the underlying link. */
  datatype Call =
    | Opened
    | CreditSet(credit: u32)
    | Polled
    | CreditRead
    | ClosedWith(error: LinkError)

  /** The observable state of the underlying link, as a value. */
  datatype RecvState = RecvState(
    isOpen: bool,
    linkCredit: u32,
    credit: u32,
    wire: seq<Arrival>,
    calls: seq<Call>)

  /** `open()`: mark the link open at the protocol level. */
  function AfterOpen(r: RecvState): RecvState
  {
    r.(isOpen := true, calls := r.calls + [Opened])
  }

  /** `set_link_credit(n)`: grant `n` units of credit to the peer. */
  function AfterSetLinkCredit(r: RecvState, n: u32): RecvState
  {
    r.(linkCredit := n, calls := r.calls + [CreditSet(n)])
  }

  /** `poll()`: the head of the wire, or `None` (not ready) on an empty wire. */
  function AfterPoll(r: RecvState): (Option<Arrival>, RecvState)
  {
    if r.wire == [] then (None, r.(calls := r.calls + [Polled]))
    else (Some(r.wire[0]), r.(wire := r.wire[1..], calls := r.calls + [Polled]))
  }

  /** `credit()`: the remaining credit the session reports. */
  function AfterCredit(r: RecvState): (u32, RecvState)
  {
    (r.credit, r.(calls := r.calls + [CreditRead]))
  }

  /** `close_with_error(e)`: request a detach carrying `e`. */
  function AfterClose(r: RecvState, e: LinkError): RecvState
  {
    r.(calls := r.calls + [ClosedWith(e)])
  }

  /** The receiver link as an object shared by every handle that clones it. */
  class ReceiverLink {
    const attach: Attach
    var isOpen: bool
    var linkCredit: u32
    var credit: u32
    var wire: seq<Arrival>
    ghost var calls: seq<Call>

    ghost function Value(): RecvState
      reads this
    {
      RecvState(isOpen, linkCredit, credit, wire, calls)
    }

    /** A link just attached: not open, nothing granted, no calls made. */
    constructor (attach: Attach, credit: u32, wire: seq<Arrival>)
      ensures this.attach == attach
      ensures Value() == RecvState(false, 0, credit, wire, [])
    {
      this.attach := attach;
      isOpen := false;
      linkCredit := 0;
      this.credit := credit;
      this.wire := wire;
      calls := [];
    }

    /** `frame()`: the attach frame this link was created from. */
    function Frame(): Attach
    {
      attach
    }

    method Open()
      modifies this
      ensures Value() == AfterOpen(old(Value()))
    {
      isOpen := true;
      calls := calls + [Opened];
    }

    method SetLinkCredit(n: u32)
      modifies this
      ensures Value() == AfterSetLinkCredit(old(Value()), n)
    {
      linkCredit := n;
      calls := calls + [CreditSet(n)];
    }

    method Poll() returns (a: Option<Arrival>)
      modifies this
      ensures (a, Value()) == AfterPoll(old(Value()))
    {
      calls := calls + [Polled];
      if wire == [] {
        a := None;
      } else {
        a := Some(wire[0]);
        wire := wire[1..];
      }
    }

    method Credit() returns (c: u32)
      modifies this
      ensures (c, Value()) == AfterCredit(old(Value()))
    {
      c := credit;
      calls := calls + [CreditRead];
    }

    method CloseWithError(e: LinkError)
      modifies this
      ensures Value() == AfterClose(old(Value()), e)
    {
      calls := calls + [ClosedWith(e)];
    }
  }
}
