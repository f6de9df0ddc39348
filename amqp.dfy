/**
 * Protocol values the receiver link handles. Their wire encoding belongs to
 * the AMQP codec and is not modelled: each value keeps only the parts that the
 * link state machine inspects or passes on.
 */
module Amqp {
  import opened Wrappers

  /** AMQP `uint`: credits and delivery numbers are unsigned 32-bit. */
  newtype u32 = x: int | 0 <= x < 0x1_0000_0000

  newtype byte = x: int | 0 <= x < 256

  /** The negotiated attach parameters; only passed through by the link. */
  datatype Attach = Attach(name: string, handle: u32)

  /**
   * A transfer frame (section 2.7.5 of OASIS AMQP 1.0). The delivery id is
   * optional on the wire; the payload is opaque here.
   */
  datatype Transfer = Transfer(deliveryId: Option<u32>, payload: seq<byte>)

  /** The link-error condition used by this core (amqp:link:detach-forced). */
  datatype LinkErrorCondition = DetachForced

  /** An error carried by a detach: a condition and an optional description. */
  datatype LinkError = LinkError(condition: LinkErrorCondition, description: Option<string>)
  {
    /** Attach a human-readable description to the error. */
    function Description(text: string): LinkError
    {
      this.(description := Some(text))
    }
  }

  /** A forced detach with no description yet. */
  function ForceDetach(): LinkError
  {
    LinkError(DetachForced, None)
  }

  /** The error the link closes with when a transfer lacks its delivery id. */
  function MissingDeliveryId(): (e: LinkError)
    ensures e == LinkError(DetachForced, Some("delivery_id MUST be set"))
  {
    ForceDetach().Description("delivery_id MUST be set")
  }

  /** A transport or session failure reported by the underlying link; opaque here. */
  datatype TransportError = TransportError(description: string)
}
