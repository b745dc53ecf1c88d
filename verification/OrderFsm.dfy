/** The order status machine of internal/domain/order/models.go. */
module OrderFsm {

  datatype OrderStatus =
    | Pending | ReservingStock | StockReserved | Paying
    | Paid | Confirmed | Cancelled | Refunded

  predicate IsTerminal(s: OrderStatus) {
    s.Confirmed? || s.Cancelled? || s.Refunded?
  }

  predicate CanTransitionTo(s: OrderStatus, next: OrderStatus) {
    if s == next then true
    else if IsTerminal(s) then false
    else match s
      case Pending => next.ReservingStock? || next.Cancelled?
      case ReservingStock => next.StockReserved? || next.Cancelled?
      case StockReserved => next.Paying? || next.Cancelled?
      case Paying => next.Paid? || next.Cancelled?
      case Paid => next.Confirmed? || next.Refunded?
      case _ => false
  }
}
