/** The recorded sign-in history panel: whose table may be on screen. */
module SessionHistory {
  import opened Options

  // Each carries the identity token it was produced for.
  datatype Phase = Idle | Loading(token: nat) | Ready(token: nat, history: nat) | Unreadable(token: nat)

  datatype Request = Request(generation: nat, token: nat)

  // `rendered` is the identity token when ready; `effected` is the one the effect last ran for, if it ran.
  datatype Refs = Refs(generation: nat, phase: Phase, rendered: Option<nat>, effected: Option<Option<nat>>)

  // A payload that parses to a history, one that does not, or a failure.
  datatype Reply = Parsed(history: nat) | NotParsed | Failure

  function Load(r: Refs): Refs {
    if r.rendered == None then r else r.(generation := r.generation + 1, phase := Loading(r.rendered.value))
  }

  function RequestOf(r: Refs): Request
    requires r.rendered.Some?
  {
    Request(r.generation + 1, r.rendered.value)
  }

  predicate Admissible(r: Refs, request: Request, identity: nat) {
    request.generation == r.generation && identity == request.token
  }

  function Replied(r: Refs, request: Request, identity: nat, reply: Reply): Refs {
    if !Admissible(r, request, identity) then r
    else r.(phase := if reply.Parsed? then Ready(request.token, reply.history) else Unreadable(request.token))
  }

  predicate EffectOwed(r: Refs) {
    r.effected != Some(r.rendered)
  }

  // The previous run's cleanup, which only a run that was ready left behind.
  function Cleanup(r: Refs): Refs {
    if r.effected.Some? && r.effected.value.Some? then r.(generation := r.generation + 1) else r
  }

  // Cleanup, then this run: without readiness it invalidates, with it it loads.
  function Effect(r: Refs): Refs {
    if !EffectOwed(r) then r
    else
      var s := Cleanup(r).(effected := Some(r.rendered));
      if s.rendered == None then s.(generation := s.generation + 1, phase := Idle) else Load(s)
  }

  // What may be painted, decided during the render itself.
  function VisibleFor(phase: Phase, token: Option<nat>): Phase {
    if token == None then Idle
    else if phase != Idle && phase.token == token.value then phase
    else Loading(token.value)
  }

  class ConsoleSessionHistoryPanel {
    var generation: nat
    var phase: Phase
    var rendered: Option<nat>
    var effected: Option<Option<nat>>

    function State(): Refs
      reads this
    {
      Refs(generation, phase, rendered, effected)
    }

    constructor ()
      ensures State() == Refs(0, Idle, None, None)
    {
      generation, phase, rendered, effected := 0, Idle, None, None;
    }

    method OnRender(identityToken: Option<nat>)
      modifies this
      ensures State() == old(State()).(rendered := identityToken)
    {
      rendered := identityToken;
    }

    method StartLoad() returns (request: Option<Request>)
      modifies this
      ensures State() == Load(old(State()))
      ensures request == if old(rendered).Some? then Some(RequestOf(old(State()))) else None
    {
      request := None;
      if rendered.Some? {
        generation := generation + 1;
        phase := Loading(rendered.value);
        request := Some(Request(generation, rendered.value));
      }
    }

    method RunEffect() returns (request: Option<Request>)
      modifies this
      ensures State() == Effect(old(State()))
      ensures request == if EffectOwed(old(State())) && old(rendered).Some?
                         then Some(RequestOf(Cleanup(old(State())))) else None
    {
      request := None;
      if effected != Some(rendered) {
        if effected.Some? && effected.value.Some? { generation := generation + 1; }
        effected := Some(rendered);
        if rendered == None {
          generation := generation + 1;
          phase := Idle;
        } else {
          request := StartLoad();
        }
      }
    }

    method OnUnmount()
      modifies this
      ensures State() == Cleanup(old(State()))
    {
      if effected.Some? && effected.value.Some? { generation := generation + 1; }
    }

    method OnReply(request: Request, identity: nat, reply: Reply)
      modifies this
      ensures State() == Replied(old(State()), request, identity, reply)
    {
      if request.generation == generation && identity == request.token {
        match reply
        case Parsed(history) => phase := Ready(request.token, history);
        case NotParsed => phase := Unreadable(request.token);
        case Failure => phase := Unreadable(request.token);
      }
    }
  }
}
