/** The cancellation token (src/cancel.rs) as seen by a caller of `cancel`. */
module Cancellation {
  import opened Prelude

  datatype CancelReasonKind = UserRequested | Timeout | Policy | Shutdown | DependencyFailed

  datatype CancelReason = CancelReason(kind: CancelReasonKind, message: string)

  const USER_REQUESTED := CancelReason(UserRequested, "user requested cancellation")

  class CancellationToken {
    var cancelled: bool
    var reason: Option<CancelReason>
    /** Another thread won the swap with this reason and has yet to write it. */
    ghost var writing: Option<CancelReason>

    constructor ()
      ensures !cancelled && reason == None && writing == None
    {
      cancelled, reason, writing := false, None, None;
    }

    /** Only the call that wins the swap writes its reason; the others change nothing. */
    method Cancel(r: CancelReason)
      modifies this
      ensures cancelled
      ensures writing == old(writing)
      ensures reason == if old(cancelled) then old(reason) else Some(r)
    {
      var wasCancelled := cancelled;
      cancelled := true;
      if !wasCancelled {
        reason := Some(r);
      }
    }
  }
}
