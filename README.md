# Receiver link of an AMQP 1.0 server, in Dafny

This project models the receiving side of an AMQP 1.0 link in the
`amqp-transport` crate and proves properties of that model. It covers two parts:

- **The shared cell** (`src/cell.rs`). `Cell<T>` is a strong handle onto one
  mutable value in reference-counted storage. `clone` aliases the storage.
  `get_mut` writes through to every handle. `downgrade` produces a `WeakCell<T>`
  observer, and `upgrade` turns that observer back into a strong handle while
  the value is alive. In the model the storage is a `Storage` object and the
  handles are `Cell` objects that all point at it. `Storage` keeps the strong
  count that `Rc` keeps, plus a ghost set of the live handles, and
  `Storage.Valid()` ties the two together.
- **The link state machine** (`src/server/link.rs`). `OpenLink` is an attached
  link. `open(credit)` opens it, grants the credit, and turns it into a `Link`.
  `Link` is a pull sequence of `Flow` and `Message` frames, driven by a
  one-shot `has_credit` flag. The state machine appears twice, once as a pure
  function and once as classes:
  - `LinkSpec` is the pure version. A `Machine` is the flag plus the observable
    state of the underlying link. `Open` and `PollStep` are the two
    transitions. `Run` replays a history of pulls mixed with environment events.
  - `ServerLink.OpenLink` and `ServerLink.Link` are classes over the real
    objects. `OpenLink.Open` is proved to produce `LinkSpec.Open` of the old
    link, and `Link.Poll` to return and update exactly as `LinkSpec.PollStep`.
    The constructors, `PathMut` and the two `StateMut` methods carry plain
    contracts of their own.

The underlying `ReceiverLink` belongs to the session layer, and its source is
not part of this model. It appears as the `Rcv.ReceiverLink` class, an
environment made of these parts:

- `wire` is a queue of what the session has buffered. A poll takes the head of
  the queue, and an empty queue answers "not ready" without taking anything.
- `credit` is the remaining credit that `credit()` reports. The environment
  sets it.
- `linkCredit` is the value last passed to `set_link_credit`.
- `calls` is a ghost log of every call the server link makes. It is what lets
  the contracts say "no close was issued" and "nothing else was called".

`link.clone()` in the source clones a handle onto a shared link, so the model
passes the same `ReceiverLink` object. `state.clone()` is `Cell.Clone` and
yields a fresh handle onto the same storage.

The trivial accessors are functions with no contract: `OpenLink.Path`,
`OpenLink.Frame`, `OpenLink.State`, `Link.State`, `Cell.GetRef`, `Cell.Deref`
(defined as `GetRef`, as `deref` is `get_ref` at src/cell.rs:25-27) and
`ReceiverLink.Frame`.

Two details of the code that the model keeps:
- A link opened with non-zero credit always polls the wire on its first pull,
  whatever credit the session reports at that moment: the flag starts as
  `credit != 0` (src/server/link.rs:54), and the reported credit is read only
  after a transfer (src/server/link.rs:97).
- A transfer without a delivery id is still yielded as a `Message` after the
  close is requested (src/server/link.rs:89-100).

## Model

| member | source | states |
|---|---|---|
| `Cells.Storage.constructor` | src/cell.rs:39 | New storage holds the given value and has no strong handle yet. |
| `Cells.Cell.New` | src/cell.rs:37-41 | `Cell::new(v)` allocates fresh storage holding `v`. The new handle is its only strong handle, with count 1. |
| `Cells.Cell.Share` | src/cell.rs:14-19 | A handle built over storage that already has a live strong handle, as the `Cell { inner }` literal needs an `Rc` in hand, aliases it. The value is kept, the handle joins the live handles, and the strong count grows by one. |
| `Cells.Cell.Clone` | src/cell.rs:14-19 | `clone` returns a fresh handle whose storage is the same object, not a copy. The value is unchanged and the strong count grows by one. |
| `Cells.Cell.GetMut` | src/cell.rs:53-55 | A write through `get_mut` replaces the shared value. Every live handle onto the same storage, the writer and all its clones, then reads the new value. |
| `Cells.Cell.Downgrade` | src/cell.rs:43-47 | `downgrade` returns a fresh weak observer of the same storage and changes nothing, so the value and the count are kept. |
| `Cells.Cell.Drop` | src/cell.rs:6-8 | Dropping a handle, which the `Rc` field does implicitly, removes exactly that handle. The strong count falls by one. |
| `Cells.WeakCell.constructor` | src/cell.rs:44-46 | The `WeakCell { inner }` literal built by `downgrade` observes exactly the given storage. |
| `Cells.WeakCell.Upgrade` | src/cell.rs:65-71 | `upgrade` returns `None` if and only if no strong handle is live, and then changes nothing. Otherwise it returns a fresh live handle onto the same storage, never new storage, and the value is kept. |
| `Cells.SharedLifetime` | src/cell.rs:14-71 | On concrete objects, a write through a clone is read through the original. A weak observer upgrades while a handle is live and fails after all strong handles are dropped. |
| `Rcv.ReceiverLink.Open` | src/server/link.rs:48 | `open()` marks the link open and logs one `Opened` call. |
| `Rcv.ReceiverLink.SetLinkCredit` | src/server/link.rs:49 | `set_link_credit(n)` records `n` as the granted credit and logs the call. |
| `Rcv.ReceiverLink.Poll` | src/server/link.rs:86 | `poll()` returns the head of the wire and removes it, or returns "not ready" and leaves an empty wire alone. The call is logged. |
| `Rcv.ReceiverLink.Credit` | src/server/link.rs:97 | `credit()` returns the remaining credit the session reports and logs the call. |
| `Rcv.ReceiverLink.CloseWithError` | src/server/link.rs:90-94 | `close_with_error(e)` logs one close carrying `e`. |
| `Amqp.MissingDeliveryId` | src/server/link.rs:90-94 | The close error is a forced detach (`amqp:link:detach-forced`) described as "delivery_id MUST be set". |
| `LinkSpec.Open` | src/server/link.rs:47-56 | Opening calls `open()` and then `set_link_credit(credit)` and nothing else. The resulting link owes a flow notice exactly when `credit == 0`. |
| `LinkSpec.PollStep` | src/server/link.rs:79-106 | The pure model of one pull. It has no contract of its own: its properties are the one-pull lemmas and `Run*` lemmas below, and `ServerLink.Link.Poll` is proved equal to it. |
| `LinkSpec.FlowWhenOwed` | src/server/link.rs:80-84 | While a notice is owed, a pull yields `Flow` and sets the flag. The underlying link is left untouched: no poll, nothing consumed, no call. |
| `LinkSpec.TransferStep` | src/server/link.rs:86-100 | With credit and a transfer at the head of the wire, a pull yields a `Message` with exactly that transfer and consumes it. It closes the link once if the delivery id is missing and never otherwise. The flag then equals `credit() != 0`. Nothing else changes. |
| `LinkSpec.NoTransferStep` | src/server/link.rs:86-103 | With credit and no transfer at the head, a pull passes through not-ready, end (`Ready(None)`) or the link's error. The flag is unchanged and the only call is the poll, so no close is issued. |
| `LinkSpec.PollWithCredit` | src/server/link.rs:85-104 | A pull with credit never yields `Flow`, and it keeps the flag unless it yields a message. |
| `LinkSpec.PullWithCreditCalls` | src/server/link.rs:86-97 | A pull with credit makes exactly these calls in order: `poll()`; then, for a transfer, one `close_with_error` if its delivery id is missing, followed by `credit()`. The closes among them are exactly what the outcome owes. |
| `LinkSpec.NextAfterMessage` | src/server/link.rs:80-100 | After a `Message`, the next pull is a `Flow` if and only if the reported credit was 0. Otherwise the next pull polls the wire. |
| `LinkSpec.OpenWithoutCredit` | src/server/link.rs:47-86 | A link opened with credit 0 yields `Flow` on its first pull whatever the wire holds, consuming nothing. The pull after it polls the wire, so the notice is one-shot. |
| `LinkSpec.OpenWithCredit` | src/server/link.rs:47-86 | A link opened with non-zero credit polls the wire on its first pull and does not yield `Flow`. |
| `LinkSpec.RunDeliversInWireOrder` | src/server/link.rs:79-106 | Over any history, the initial wire plus all arrivals equals what the outcomes consumed, in order, plus what remains. Messages come in wire order, nothing is dropped or duplicated, and `Flow` consumes nothing. |
| `LinkSpec.RunClosesOncePerMissingId` | src/server/link.rs:87-100 | Over any history, the closes the link itself issues are exactly one forced detach per yielded message that lacks a delivery id, in order. Closes the application makes through a frame's link handle are not events of a history. |
| `LinkSpec.RunFlowIsOneShot` | src/server/link.rs:79-106 | Over any history, no `Flow` is directly followed by another `Flow`, and a link that owes no notice does not start with one. |
| `LinkSpec.RunOwedFlowComesFirst` | src/server/link.rs:80-84 | When a notice is owed, the first frame of any history that pulls at all is `Flow`. |
| `LinkSpec.RunFlowsBounded` | src/server/link.rs:79-106 | Over any history, the `Flow` frames number at most the `Message` frames, plus one if a notice was owed at the start. |
| `LinkSpec.ScenarioCreditOne` | src/server/link.rs:47-106 | Open with credit 1, then receive transfer 1 with the reported credit at 0, so the first two pulls yield `Message(1)` and `Flow`. The application's new grant appears only as the session reporting credit 1 again. Transfer 2 then arrives, so the third pull yields `Message(2)`. |
| `LinkSpec.ScenarioCreditZero` | src/server/link.rs:47-106 | Open with credit 0 and two transfers queued. The pulls yield `Flow`, `Message(1)`, `Message(2)` and then `Flow` once the reported credit is 0. |
| `ServerLink.OpenLink.constructor` | src/server/link.rs:19-25 | `OpenLink::new` holds exactly the given link and state handles, with an empty routing path. |
| `ServerLink.OpenLink.PathMut` | src/server/link.rs:31-33 | The application rewrites the routing path, and only the path. |
| `ServerLink.OpenLink.StateMut` | src/server/link.rs:43-45 | A write through the state handle of an attached link replaces the shared state. |
| `ServerLink.OpenLink.Open` | src/server/link.rs:47-56 | `open(credit)` makes only the calls `open()` and then `set_link_credit(credit)` on the link. It moves the same state and link handles into a fresh `Link` with `has_credit == (credit != 0)`, and the attached value is consumed. |
| `ServerLink.Link.constructor` | src/server/link.rs:51-55 | The `Link` literal holds the given handles and flag. |
| `ServerLink.Link.StateMut` | src/server/link.rs:70-72 | A write through an open link's state handle replaces the shared state. |
| `ServerLink.Link.Poll` | src/server/link.rs:79-106 | One pull returns, and updates the flag and the underlying link, exactly as `LinkSpec.PollStep`. A yielded frame carries a fresh live handle onto the same state, which keeps its value, and the same link. |
| `ServerLink.OpenWithoutCreditHistory` | src/server/link.rs:47-106 | On concrete objects, a link opened with credit 0 and one queued transfer first yields `Flow`. A write through that frame's state handle is then seen by the link, and the next pull yields the transfer. |

## Left out

- The internals of the session-layer `ReceiverLink` are not modelled. That covers frame buffering, the flow frames sent to the peer, and how credit goes down as transfers arrive. The environment sets the credit `credit()` reports, and `set_link_credit` does not change it. `close_with_error` is only recorded; it does not end the wire.
- The `actix_router::Path` internals: the path is an opaque `RoutePath` and starts empty.
- The codec for `Attach` and `Transfer`: `Attach` keeps only a name and handle and is passed through; a transfer is an optional delivery id plus an opaque payload.
- `Flow::new`, `Message::new` and `.into()`: the frame variants are datatype constructors carrying their handles.
- The futures machinery: a pull is one synchronous step returning a frame, end, not-ready or an error. Task wake-ups are left out.
- The `Debug` impls of `Cell` and `WeakCell`.
- The unchecked borrow rule of `UnsafeCell`: `get_mut` is modelled as one write of a new value computed from the old. Two overlapping live borrows are not represented.
- The weak count, and the freeing of the value when the last strong handle is dropped: a dead value stays in `Storage`, but no live handle can reach it.
- Rust's move semantics: a ghost `moved` flag stands in for the consumption of `OpenLink` by `open`. Dropping a `Link` or a frame is modelled only through `Cell.Drop`.
- Concurrency and scheduling: everything runs in one sequential task.
