/**
 * The server-side receiver link of src/server/link.rs: `OpenLink`, an attached
 * link that the application may inspect before opening it, and `Link`, the
 * open link driven as a pull sequence of frames. `OpenLink.Open` and
 * `Link.Poll` are proved against the pure state machine in `LinkSpec`; the
 * constructors, `PathMut` and the two `StateMut` methods carry plain contracts
 * of their own.
 */
module ServerLink {
  import opened Wrappers
  import opened Amqp
  import opened Cells
  import opened Rcv
  import LinkSpec

  /** The routing path matched from the attach target; opaque here. */
  datatype RoutePath = RoutePath(text: string)

  /** `Path::new("")`: the path an attached link starts with. */
  const EmptyPath := RoutePath("")

  /** A frame handed to the application: each carries its own handles. */
  datatype Frame<S> =
    | Flow(state: Cell<S>, link: ReceiverLink)
    | Message(state: Cell<S>, transfer: Transfer, link: ReceiverLink)

  /** What one pull returns: `Ok(Ready(Some(f)))`, `Ok(Ready(None))`, `Ok(NotReady)` or `Err(e)`. */
  datatype Poll<T> = Ready(item: Option<T>) | NotReady | Err(error: TransportError)

  /** A pull result with its handles erased. */
  function Observe<S>(p: Poll<Frame<S>>): LinkSpec.Outcome
  {
    match p
    case Ready(Some(Flow(_, _))) => LinkSpec.Yield(LinkSpec.FlowItem)
    case Ready(Some(Message(_, t, _))) => LinkSpec.Yield(LinkSpec.MessageItem(t))
    case Ready(None) => LinkSpec.End
    case NotReady => LinkSpec.NotReady
    case Err(e) => LinkSpec.Fail(e)
  }

  /** An attached receiver link that has not been opened. */
  class OpenLink<S> {
    const state: Cell<S>
    const link: ReceiverLink
    var path: RoutePath
    /** Set once `Open` has moved this value into a `Link`. */
    ghost var moved: bool

    /** `OpenLink::new`: holds the given link and state, with an empty path. */
    constructor (link: ReceiverLink, state: Cell<S>)
      ensures this.link == link && this.state == state
      ensures path == EmptyPath && !moved
    {
      this.state := state;
      this.link := link;
      path := EmptyPath;
      moved := false;
    }

    function Path(): RoutePath
      reads this
    {
      path
    }

    /** `path_mut`: the application rewrites the path with `f`. */
    method PathMut(f: RoutePath -> RoutePath)
      requires !moved
      modifies this`path
      ensures path == f(old(path))
    {
      path := f(path);
    }

    function Frame(): Attach
    {
      link.Frame()
    }

    function State(): S
      reads state.inner
      requires state.Valid()
    {
      state.GetRef()
    }

    /** `state_mut`: a write through the shared state handle. */
    method StateMut(f: S -> S)
      requires !moved && state.Valid()
      modifies state.inner`value
      ensures state.Valid() && state.inner.value == f(old(state.inner.value))
    {
      state.GetMut(f);
    }

    /**
     * `open(credit)`: opens the underlying link and grants `credit`, making no
     * other call on it, and moves the state and link handles into a `Link`
     * that owes a flow notice exactly when `credit` is zero.
     */
    method Open(credit: u32) returns (l: Link<S>)
      requires !moved
      modifies this`moved, link
      ensures moved && fresh(l)
      ensures l.state == state && l.link == link
      ensures l.hasCredit == (credit != 0)
      ensures l.Abs() == LinkSpec.Open(old(link.Value()), credit)
      ensures link.Value() == old(link.Value()).(isOpen := true, linkCredit := credit,
                                                 calls := old(link.calls) + [Opened, CreditSet(credit)])
    {
      link.Open();
      link.SetLinkCredit(credit);
      moved := true;
      l := new Link(state, link, credit != 0);
    }
  }

  /** An open receiver link. */
  class Link<S> {
    const state: Cell<S>
    const link: ReceiverLink
    /** False exactly when a flow notice is owed before the next transfer. */
    var hasCredit: bool

    ghost function Abs(): LinkSpec.Machine
      reads this, link
    {
      LinkSpec.Machine(hasCredit, link.Value())
    }

    /** The `Link { .. }` literal built by `OpenLink::open`. */
    constructor (state: Cell<S>, link: ReceiverLink, hasCredit: bool)
      ensures this.state == state && this.link == link && this.hasCredit == hasCredit
    {
      this.state := state;
      this.link := link;
      this.hasCredit := hasCredit;
    }

    function State(): S
      reads state.inner
      requires state.Valid()
    {
      state.GetRef()
    }

    method StateMut(f: S -> S)
      requires state.Valid()
      modifies state.inner`value
      ensures state.Valid() && state.inner.value == f(old(state.inner.value))
    {
      state.GetMut(f);
    }

    /**
     * One pull of the frame sequence. What it returns and how the flag and
     * the underlying link change are exactly `LinkSpec.PollStep`. A frame
     * carries a fresh strong handle onto the same state, which keeps its
     * value, and a handle onto the same underlying link.
     */
    method Poll() returns (r: Poll<Frame<S>>)
      requires state.Valid()
      modifies this`hasCredit, link, state.inner
      ensures (Observe(r), Abs()) == LinkSpec.PollStep(old(Abs()))
      ensures state.Valid() && state.inner.value == old(state.inner.value)
      ensures r.Ready? && r.item.Some? ==>
                var f := r.item.value;
                fresh(f.state) && f.state.inner == state.inner && f.state.Valid() && f.link == link &&
                state.inner.handles == old(state.inner.handles) + {f.state}
      ensures !(r.Ready? && r.item.Some?) ==> state.inner.handles == old(state.inner.handles)
    {
      if !hasCredit {
        hasCredit := true;
        var s := state.Clone();
        r := Ready(Some(Flow(s, link)));
      } else {
        var a := link.Poll();
        match a
        case None =>
          r := NotReady;
        case Some(Finished) =>
          r := Ready(None);
        case Some(Broken(e)) =>
          r := Err(e);
        case Some(Delivery(t)) =>
          // Section 2.7.5 of OASIS AMQP 1.0: the delivery id must be set; batching is unsupported.
          if t.deliveryId.None? {
            link.CloseWithError(MissingDeliveryId());
          }
          var c := link.Credit();
          hasCredit := c != 0;
          var s := state.Clone();
          r := Ready(Some(Message(s, t, link)));
      }
    }
  }

  /**
   * The zero-credit history on real objects: a link opened with no credit
   * while a transfer is queued first yields a flow notice; the application
   * updates the state through that frame's own handle; the next pull yields
   * the queued transfer, and the link's own handle sees the update.
   */
  method OpenWithoutCreditHistory(t: Transfer, v: int) returns (first: LinkSpec.Outcome, second: LinkSpec.Outcome, seen: int)
    ensures first == LinkSpec.Yield(LinkSpec.FlowItem)
    ensures second == LinkSpec.Yield(LinkSpec.MessageItem(t))
    ensures seen == v + 1
  {
    var rl := new ReceiverLink(Attach("receiver", 0), 1, [Delivery(t)]);
    var cell := new Cell.New(v);
    var ol := new OpenLink(rl, cell);
    var l := ol.Open(0);
    var p1 := l.Poll();
    first := Observe(p1);
    p1.item.value.state.GetMut(x => x + 1);
    var p2 := l.Poll();
    second := Observe(p2);
    seen := l.State();
  }
}
