/** The saga transition table of internal/domain/saga/fsm.go. */
module SagaFsm {

  datatype State =
    | Started | Pending | ReservingStock | StockReserved | Paying | Paid
    | Confirmed | Compensating | Failed | FailedCompensated

  function ValidTransitions(from: State): set<State> {
    match from
    case Started => {ReservingStock, Compensating, Failed, FailedCompensated}
    case Pending => {ReservingStock, StockReserved, Compensating, Failed, FailedCompensated}
    case ReservingStock => {StockReserved, Compensating, Failed, FailedCompensated}
    case StockReserved => {Paying, Compensating, Failed, FailedCompensated}
    case Paying => {Paid, Compensating, Failed, FailedCompensated}
    case Paid => {Confirmed, Compensating, Failed, FailedCompensated}
    case Compensating => {Failed, FailedCompensated}
    case Confirmed => {}
    case Failed => {}
    case FailedCompensated => {}
  }

  predicate CanTransition(from: State, to: State) {
    to in ValidTransitions(from)
  }

  predicate IsTerminal(s: State) {
    s.Confirmed? || s.Failed? || s.FailedCompensated?
  }

  /** How far along a saga is. */
  function Rank(s: State): (r: nat)
    ensures r == 6 <==> IsTerminal(s)
    ensures r <= 6
  {
    match s
    case Started => 0
    case Pending => 0
    case ReservingStock => 1
    case StockReserved => 2
    case Paying => 3
    case Paid => 4
    case Compensating => 5
    case _ => 6
  }

  /** The table has no cycle: every legal transition climbs, and the states without an
      exit are exactly the ones `IsTerminal` names. */
  lemma TableClimbs(from: State, to: State)
    ensures CanTransition(from, to) ==> Rank(from) < Rank(to)
    ensures IsTerminal(from) <==> forall next :: !CanTransition(from, next)
  {
    if !IsTerminal(from) {
      assert CanTransition(from, Failed);
    }
  }
}
