/** Subscription statuses, their legal transitions, the grace window and the access policy. */
module Subscriptions {

  import opened Wrappers

  datatype Status = Incomplete | Trialing | Active | PastDue | Canceled | Unpaid

  function AllowedTransitions(current: Status): set<Status> {
    match current
    case Incomplete => {Active, Canceled}
    case Trialing => {Active, Canceled}
    case Active => {Canceled, PastDue}
    case PastDue => {Active, Unpaid, Canceled}
    case Canceled => {}
    case Unpaid => {}
  }

  predicate Legal(current: Status, next: Status) {
    next in AllowedTransitions(current)
  }

  /** The status table: only the four live statuses move; each may be canceled, each but the active one may become
      active, only the active one becomes past due, and only the past-due one becomes unpaid. */
  lemma TransitionTable(current: Status, next: Status)
    ensures Legal(current, next) <==>
              && current != Canceled && current != Unpaid
              && (|| next == Canceled
                  || (next == Active && current != Active)
                  || (next == PastDue && current == Active)
                  || (next == Unpaid && current == PastDue))
  {
  }

  /** Instants are microseconds since the epoch. */
  type Instant = int

  const DAY: int := 86_400_000_000

  function GraceUntil(enteredAt: Instant, graceDays: int): Instant {
    enteredAt + graceDays * DAY
  }

  predicate GraceActive(status: Status, graceDays: int, enteredAt: Option<Instant>, now: Instant) {
    status == PastDue && enteredAt.Some? && now < GraceUntil(enteredAt.value, graceDays)
  }

  /** How a plan feature is enforced; the two values the code compares against, and any other. */
  datatype Enforcement = Hard | Degraded | OtherMode(name: string)

  datatype Mode = Full | DegradedMode | Denied

  datatype Access = Access(allowed: bool, mode: Mode)

  function DecideAccess(status: Status, graceActive: bool, enforcement: Enforcement): Access {
    if status == Active || status == Trialing then Access(true, Full)
    else if status == PastDue && graceActive then
      Access(true, if enforcement == Degraded then DegradedMode else Full)
    else Access(false, Denied)
  }
}
