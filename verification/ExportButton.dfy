/** The directory-role export button: which reply of which request may still save a file. */
module ExportButton {
  import opened Options

  datatype Phase = Idle | Requesting | Saved | Error

  // What a render shows: the identity token when ready, and the tenant.
  datatype Rendered = Rendered(identityToken: Option<nat>, tenant: string)

  datatype Request = Request(generation: nat, token: nat, tenant: string)

  // `effected` is what the invalidating effect last ran for.
  datatype Refs = Refs(generation: nat, phase: Phase, rendered: Rendered, effected: Option<Rendered>)

  datatype Reply = Readable | Rejected | EmitFails | Transport

  predicate MayAsk(r: Refs) {
    r.rendered.identityToken.Some?
  }

  function Download(r: Refs): Refs {
    if !MayAsk(r) then r else r.(generation := r.generation + 1, phase := Requesting)
  }

  function RequestOf(r: Refs): Request
    requires MayAsk(r)
  {
    Request(r.generation + 1, r.rendered.identityToken.value, r.rendered.tenant)
  }

  predicate Admissible(r: Refs, request: Request, identity: nat) {
    request.generation == r.generation && identity == request.token && r.rendered.tenant == request.tenant
  }

  function Replied(r: Refs, request: Request, identity: nat, reply: Reply): Refs {
    if !Admissible(r, request, identity) then r else r.(phase := if reply == Readable then Saved else Error)
  }

  predicate Saves(r: Refs, request: Request, identity: nat, reply: Reply) {
    Admissible(r, request, identity) && reply == Readable
  }

  // Cleanup of the previous run, if there was one, then this one.
  function Effect(r: Refs): Refs {
    if r.effected == Some(r.rendered) then r
    else r.(generation := r.generation + (if r.effected.Some? then 2 else 1), phase := Idle,
            effected := Some(r.rendered))
  }

  class DirectoryRoleExportButton {
    var generation: nat
    var phase: Phase
    var rendered: Rendered
    var effected: Option<Rendered>

    function State(): Refs
      reads this
    {
      Refs(generation, phase, rendered, effected)
    }

    constructor (first: Rendered)
      ensures State() == Refs(0, Idle, first, None)
    {
      generation, phase, rendered, effected := 0, Idle, first, None;
    }

    method OnRender(next: Rendered)
      modifies this
      ensures State() == old(State()).(rendered := next)
    {
      rendered := next;
    }

    method RunEffect()
      modifies this
      ensures State() == Effect(old(State()))
    {
      if effected != Some(rendered) {
        if effected.Some? { generation := generation + 1; }
        generation := generation + 1;
        phase := Idle;
        effected := Some(rendered);
      }
    }

    method OnUnmount()
      modifies this
      ensures State() == old(State()).(generation := old(generation) + 1)
    {
      generation := generation + 1;
    }

    method StartDownload() returns (request: Option<Request>)
      modifies this
      ensures State() == Download(old(State()))
      ensures request == if MayAsk(old(State())) then Some(RequestOf(old(State()))) else None
    {
      request := None;
      if rendered.identityToken.Some? {
        generation := generation + 1;
        phase := Requesting;
        request := Some(Request(generation, rendered.identityToken.value, rendered.tenant));
      }
    }

    method OnReply(request: Request, identity: nat, reply: Reply) returns (saved: bool)
      modifies this
      ensures State() == Replied(old(State()), request, identity, reply)
      ensures saved == Saves(old(State()), request, identity, reply)
    {
      saved := false;
      if request.generation == generation && identity == request.token && rendered.tenant == request.tenant {
        if reply == Readable {
          saved := true;
          phase := Saved;
        } else {
          phase := Error;
        }
      }
    }
  }
}
