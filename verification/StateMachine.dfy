/** The per-request status machine (crates/payment-service/src/state_machine.rs). */
module StateMachine {
  import opened Models
  import opened Transactions

  class PaymentStateMachine {
    var current: PaymentStatus

    constructor (status: PaymentStatus)
      ensures current == status
    {
      current := status;
    }

    /** Moves along one edge of the transition table, or refuses and stays. */
    method Transition(next: PaymentStatus) returns (r: Result<PaymentStatus>)
      modifies this
      ensures r == Walk(old(current), [next])
      ensures current == if r.Ok? then next else old(current)
    {
      if current.CanTransitionTo(next) {
        current := next;
        r := Ok(next);
      } else {
        r := Err(InvalidStateTransition(current, next));
      }
    }
  }
}
