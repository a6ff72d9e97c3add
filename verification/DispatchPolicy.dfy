/**
 * The rules shared by everything that touches a dispatch: when a search waits for its next round, what
 * an OPEN dispatch counts as once its window has closed, and who may win it.
 */
module DispatchPolicy {
  import opened Common

  datatype Status = OPEN | CLAIMED | DELIVERED | CANCELLED | EXPIRED
  datatype CandidateStatus = Offered | Claimed | Released

  /** Exactly one actor, or none, holds a dispatch. */
  datatype Holder = Nobody | Provider(provider: nat) | Driver(driver: nat)

  /** The window of a dispatch and its automatic search: rounds allowed, current round, stopped or not. */
  datatype Window = Window(expiresAt: nat, maxAttempts: nat, attempt: nat, stopped: bool)

  datatype RejectionCode =
    | DISPATCH_RETRY_PENDING | DISPATCH_CANCELLED | DISPATCH_EXPIRED | DISPATCH_DELIVERED
    | DISPATCH_ALREADY_CLAIMED | DISPATCH_RECLAIM_NOT_ALLOWED | DISPATCH_NOT_OPEN_TO_INDEPENDENT
    | DISPATCH_RETAKE_NOT_ALLOWED

  datatype Rejection = Proceed | AlreadyOwner | Refused(code: RejectionCode)

  predicate RetryPending(status: Status, w: Window, now: nat) {
    status.OPEN? && w.expiresAt <= now && w.maxAttempts == 5 && w.attempt < 5 && !w.stopped
  }

  function EffectiveStatus(status: Status, w: Window, now: nat): Status {
    if status.OPEN? && now >= w.expiresAt && !RetryPending(status, w, now) then EXPIRED else status
  }

  function ClaimRejection(status: Status, w: Window, holder: Holder, candidate: CandidateStatus, provider: nat, now: nat)
    : Rejection
  {
    if RetryPending(status, w, now) then Refused(DISPATCH_RETRY_PENDING)
    else
      match EffectiveStatus(status, w, now)
      case CANCELLED => Refused(DISPATCH_CANCELLED)
      case EXPIRED => Refused(DISPATCH_EXPIRED)
      case DELIVERED => Refused(DISPATCH_DELIVERED)
      case CLAIMED => if holder == Provider(provider) then AlreadyOwner else Refused(DISPATCH_ALREADY_CLAIMED)
      case OPEN => if candidate.Released? then Refused(DISPATCH_RECLAIM_NOT_ALLOWED) else Proceed
  }

  function TakeRejection(status: Status, w: Window, openToIndependents: bool, alreadyReleased: bool, now: nat): Rejection {
    if RetryPending(status, w, now) then Refused(DISPATCH_RETRY_PENDING)
    else if status.CANCELLED? then Refused(DISPATCH_CANCELLED)
    else if status.EXPIRED? || (status.OPEN? && now >= w.expiresAt) then Refused(DISPATCH_EXPIRED)
    else if status.DELIVERED? then Refused(DISPATCH_DELIVERED)
    else if status.CLAIMED? then Refused(DISPATCH_ALREADY_CLAIMED)
    else if !openToIndependents then Refused(DISPATCH_NOT_OPEN_TO_INDEPENDENT)
    else if alreadyReleased then Refused(DISPATCH_RETAKE_NOT_ALLOWED)
    else Proceed
  }

  /** Only an OPEN dispatch inside its window can be won, and never by whoever gave it back. */
  lemma OnlyOpenIsWon(status: Status, w: Window, holder: Holder, candidate: CandidateStatus, provider: nat,
                      openToIndependents: bool, alreadyReleased: bool, now: nat)
    ensures ClaimRejection(status, w, holder, candidate, provider, now) == Proceed <==>
              status.OPEN? && now < w.expiresAt && !candidate.Released?
    ensures TakeRejection(status, w, openToIndependents, alreadyReleased, now) == Proceed <==>
              status.OPEN? && now < w.expiresAt && openToIndependents && !alreadyReleased
    ensures EffectiveStatus(status, w, now).CLAIMED? <==> status.CLAIMED?
    ensures EffectiveStatus(status, w, now).DELIVERED? <==> status.DELIVERED?
  {}

  predicate Operational(status: Status) { status.OPEN? || status.CLAIMED? }
}
