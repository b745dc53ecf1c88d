/** Vocabulary shared by every component of the model. */
module Common {

  datatype Option<+T> = None | Some(value: T)

  /** Identifiers are only ever compared; `NIL_ID` stands for the all-zero UUID. */
  type Id = int
  const NIL_ID: Id := 0

  const MAX_INT64: int := 0x7FFF_FFFF_FFFF_FFFF
  const MAX_INT32: int := 0x7FFF_FFFF

  predicate FitsInt64(x: int) {
    -MAX_INT64 - 1 <= x <= MAX_INT64
  }

  /** What a 64-bit integer holds after an addition or a multiplication whose exact result is `x`. */
  function Wrap64(x: int): (r: int)
    ensures FitsInt64(r)
    ensures FitsInt64(x) ==> r == x
  {
    (x + MAX_INT64 + 1) % (2 * (MAX_INT64 + 1)) - MAX_INT64 - 1
  }

  /** There is always a process id that nobody has. */
  lemma {:induction false} FreshPid(pids: set<nat>) returns (pid: nat)
    ensures forall p :: p in pids ==> p < pid
  {
    if pids == {} {
      pid := 0;
    } else {
      var p :| p in pids;
      var q := FreshPid(pids - {p});
      pid := if q > p then q else p + 1;
      forall x | x in pids ensures x < pid { if x != p { assert x in pids - {p}; } }
    }
  }

  /** Two sets that differ in one member at most. */
  lemma OneMember(before: set<nat>, after: set<nat>, p: nat)
    requires before - {p} == after - {p}
    ensures |after| + (if p in before then 1 else 0) == |before| + (if p in after then 1 else 0)
  {
    var rest := before - {p};
    assert p in before ==> before == rest + {p};
    assert p in after ==> after == rest + {p};
    assert p !in before ==> before == rest;
    assert p !in after ==> after == rest;
  }

  /** What became of one call to a database or to another component: it ran and its
      answer came back, it ran but the answer was lost (the caller sees an error), or it
      never ran (the caller sees an error). */
  datatype Delivery = Delivered | ReplyLost | NotSent

  /** A broker message as far as a consumer's inbox looks at it: the message_id header, the
      key, and whether the payload is empty or valid JSON. */
  datatype Envelope = Envelope(header: string, key: string, valid: bool)
}

/** The states of the rows that the saga and their own services both look at. */
module Statuses {

  /** A stock reservation is PENDING (held), COMMITTED or RELEASED. */
  datatype ReservationStatus = Held | Committed | Released

  datatype PaymentStatus = Initiated | Processing | Success | Declined | Refunded
}
