// The generation guard that every asynchronous identity continuation is checked against.
module TransitionGuard {
  import opened Options

  datatype Ticket = Ticket(generation: nat, subject: Option<string>)

  class AuthTransitionGuard {
    var generation: nat
    var subject: Option<string>

    function Current(): Ticket
      reads this
    {
      Ticket(generation, subject)
    }

    predicate IsCurrent(ticket: Ticket)
      reads this
      ensures IsCurrent(ticket) == (ticket == Current())
    {
      ticket.generation == generation && ticket.subject == subject
    }

    constructor ()
      ensures Current() == Ticket(0, None)
    {
      generation, subject := 0, None;
    }

    // No ticket minted before is current afterwards.
    method Begin(next: Option<string>) returns (ticket: Ticket)
      modifies this
      ensures ticket == Current() == Ticket(old(generation) + 1, next)
      ensures forall t: Ticket :: t.generation <= old(generation) ==> !IsCurrent(t)
    {
      generation := generation + 1;
      subject := next;
      ticket := Ticket(generation, subject);
    }
  }
}
