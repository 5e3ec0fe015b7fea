/** Payment intents, their statuses and the transition table (internal/domain/intent.go),
    together with the 64-bit arithmetic that the counters are kept in. */
module Domain {

  // --- 64-bit integers -------------------------------------------------------

  const MIN64: int := -0x8000_0000_0000_0000
  const MAX64: int := 0x7FFF_FFFF_FFFF_FFFF
  const TWO64: int := 0x1_0000_0000_0000_0000

  type Int64 = n: int | MIN64 <= n <= MAX64

  /** Two's-complement addition and subtraction: a result out of range is off by 2^64. */
  function Add64(a: Int64, b: Int64): (r: Int64)
    ensures r == a + b || r == a + b - TWO64 || r == a + b + TWO64
  {
    if a + b > MAX64 then a + b - TWO64 else if a + b < MIN64 then a + b + TWO64 else a + b
  }

  function Sub64(a: Int64, b: Int64): (r: Int64)
    ensures r == a - b || r == a - b - TWO64 || r == a - b + TWO64
  {
    if a - b > MAX64 then a - b - TWO64 else if a - b < MIN64 then a - b + TWO64 else a - b
  }

  // --- statuses --------------------------------------------------------------

  datatype Option<+T> = None | Some(value: T)

  type Time = int

  datatype Status =
    | StatusIntent
    | StatusAuthorized
    | Status3DSPending
    | StatusCaptured
    | StatusSettled
    | StatusRefunding
    | StatusRefunded
    | StatusVoided
    | StatusFailed
    | StatusChargedBack
    | StatusChargebackWon
    | StatusChargebackLost

  predicate IsTerminal(s: Status) {
    || s.StatusSettled? || s.StatusRefunded? || s.StatusVoided? || s.StatusFailed?
    || s.StatusChargebackWon? || s.StatusChargebackLost?
  }

  /** The transition table. It still lists edges out of settled, although IsTerminal stops them. */
  predicate CanTransition(s: Status, next: Status) {
    match s
    case StatusIntent => next.StatusAuthorized? || next.Status3DSPending? || next.StatusFailed?
    case StatusAuthorized =>
      next.StatusCaptured? || next.Status3DSPending? || next.StatusVoided? || next.StatusFailed?
    case Status3DSPending => next.StatusAuthorized? || next.StatusFailed?
    case StatusCaptured =>
      next.StatusSettled? || next.StatusRefunding? || next.StatusRefunded? || next.StatusChargedBack?
    case StatusRefunding => next.StatusRefunded? || next.StatusFailed?
    case StatusSettled => next.StatusRefunding? || next.StatusRefunded? || next.StatusChargedBack?
    case StatusChargedBack => next.StatusChargebackWon? || next.StatusChargebackLost?
    case _ => false
  }

  // --- rails -----------------------------------------------------------------

  datatype Rail = Card | ACH | SEPA | PIX | UPI

  function RailName(r: Rail): string {
    match r
    case Card => "card"
    case ACH => "ach"
    case SEPA => "sepa"
    case PIX => "pix"
    case UPI => "upi"
  }

  /** IsValidRail and the conversion it guards: None for an unrecognised name. */
  function ParseRail(name: string): (r: Option<Rail>)
    ensures r.Some? ==> RailName(r.value) == name
  {
    if name == "card" then Some(Card)
    else if name == "ach" then Some(ACH)
    else if name == "sepa" then Some(SEPA)
    else if name == "pix" then Some(PIX)
    else if name == "upi" then Some(UPI)
    else None
  }

  /** Exactly the five names are recognised, each as its own rail. */
  lemma RailNamesParse(name: string, r: Rail)
    ensures ParseRail(name) == Some(r) <==> name == RailName(r)
  {
  }

  predicate IsInstant(r: Rail) {
    r.PIX? || r.UPI?
  }

  // --- intents ---------------------------------------------------------------

  /** Event types. `Entered(s)` is the event named after status s, so that the "captured" type of a
      partial capture and of the transition to captured is one and the same, as in the source. */
  datatype EventType = EventCreated | Entered(status: Status) | EventWebhook | EventReconciliation

  datatype Event = Event(typ: EventType, detail: string, at: Time)

  datatype Intent = Intent(
    id: string,
    rail: Rail,
    amount: Int64,
    currency: string,
    payerRef: string,
    status: Status,
    captured: Int64,
    refunded: Int64,
    settled: Int64,
    externalId: string,
    idempotencyKey: string,
    threeDS: bool,
    history: seq<Event>)

  datatype Error =
    | ErrNotFound
    | ErrInvalidTransition
    | ErrTerminalState
    | ErrTimeout
    | ErrText(msg: string)

  function AppendEvent(i: Intent, typ: EventType, detail: string, now: Time): Intent {
    i.(history := i.history + [Event(typ, detail, now)])
  }

  datatype Transitioned = Transitioned(intent: Intent, err: Option<Error>)

  function Transition(i: Intent, next: Status, detail: string, now: Time): Transitioned {
    if IsTerminal(i.status) then Transitioned(i, Some(ErrTerminalState))
    else if !CanTransition(i.status, next) then Transitioned(i, Some(ErrInvalidTransition))
    else Transitioned(AppendEvent(i.(status := next), Entered(next), detail, now), None)
  }

  /** time.Since: the elapsed nanoseconds, saturated at the ends of the int64 range. */
  function Since(now: Time, at: Time): Int64 {
    if now - at > MAX64 then MAX64 else if now - at < MIN64 then MIN64 else now - at
  }
}
