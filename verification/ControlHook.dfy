/** The write hook of the collection control, over the query it shares with the panel: one attempt ref, one
  * latch for an unresolved failure, and a cache entry that answers replace. */
module ControlHook {
  import opened Options
  import opened ControlView

  // When something happened: the wall clock, which may tie, and the position in the run, which cannot.
  datatype Moment = Moment(clock: nat, step: nat)

  // An accepted answer. `id` is its identity in the cache; `began` is when the read or the write that
  // produced it was sent, and `accepted` when it was stored.
  datatype Answer = Answer(view: View, id: nat, began: nat, accepted: Moment)

  datatype Query = Query(
    data: Option<Answer>,
    error: Option<Error>,        // the last read failed
    fetching: Option<nat>)       // when the read in flight began

  datatype Attempt = Attempt(identity: nat, baseline: Answer)

  datatype Hook = Hook(query: Query, attempt: Option<Attempt>, settledAt: Option<nat>)

  // Stores an answer. An answer equal to the stored one may keep the stored object.
  function Accept(q: Query, view: View, began: nat, now: Moment, shared: bool): Query {
    var id := if shared && q.data.Some? && q.data.value.view == view then q.data.value.id else now.step;
    q.(data := Some(Answer(view, id, began, now)), error := None)
  }

  // Discards the read in flight and starts another; of a disabled query it does neither.
  function Invalidate(q: Query, now: Moment, enabled: bool): Query {
    if enabled then q.(fetching := Some(now.step), error := if q.data == None then None else q.error) else q
  }

  function Mutate(h: Hook): Hook {
    h.(attempt := None, settledAt := None)
  }

  // What is sent, if anything is: the decision and the expectation of the entry in the cache.
  datatype Post = Post(enabled: bool, expected: Expectation)

  function PostOf(h: Hook, enabled: bool): Option<Post> {
    if h.query.data == None then None else Some(Post(enabled, h.query.data.value.view.expected))
  }

  // The POST carries the decision asked for and echoes what the cached entry expects.
  lemma PostEchoes(h: Hook, enabled: bool)
    ensures PostOf(h, enabled).Some? <==> h.query.data.Some?
    ensures PostOf(h, enabled).Some? ==> PostOf(h, enabled).value.enabled == enabled
                                         && PostOf(h, enabled).value.expected == h.query.data.value.view.expected
  {}

  function Send(h: Hook, identity: nat): Hook {
    if h.query.data == None then h else h.(attempt := Some(Attempt(identity, h.query.data.value)))
  }

  predicate StillTheirs(h: Hook, identity: nat) {
    h.attempt.Some? && h.attempt.value.identity == identity
  }

  predicate Adopts(h: Hook) {
    h.attempt.Some? && h.query.data.Some? && h.query.data.value.id == h.attempt.value.baseline.id
  }

  function Succeed(h: Hook, identity: nat, next: View, began: nat, now: Moment, shared: bool, enabled: bool): Hook {
    if !StillTheirs(h, identity) then h
    else
      var q := if Adopts(h) then Accept(h.query, next, began, now, shared) else h.query;
      h.(query := Invalidate(q, now, enabled))
  }

  function Fail(h: Hook, identity: nat, now: Moment, enabled: bool): Hook {
    if !StillTheirs(h, identity) then h
    else h.(settledAt := Some(now.clock), query := Invalidate(h.query, now, enabled))
  }

  // One completion: it applies nothing unless it belongs to the identity now signed in, replaces no object but
  // the one the write was based on, and latches every failure of the current identity.
  lemma CompletionsAreGuarded(h: Hook, identity: nat, next: View, began: nat, now: Moment, shared: bool,
                              enabled: bool)
    ensures !StillTheirs(h, identity) ==>
              Succeed(h, identity, next, began, now, shared, enabled) == h && Fail(h, identity, now, enabled) == h
    ensures var g := Succeed(h, identity, next, began, now, shared, enabled);
            g.query.data != h.query.data ==>
              && StillTheirs(h, identity) && h.query.data.Some?
              && h.query.data.value.id == h.attempt.value.baseline.id
    ensures StillTheirs(h, identity) ==> Fail(h, identity, now, enabled).settledAt == Some(now.clock)
  {}

  class SetDirectoryRoleControl {
    var query: Query
    var attempt: Option<Attempt>
    var settledAt: Option<nat>

    function State(): Hook
      reads this
    {
      Hook(query, attempt, settledAt)
    }

    constructor ()
      ensures State() == Hook(Query(None, None, None), None, None)
    {
      query, attempt, settledAt := Query(None, None, None), None, None;
    }

    method ClearSettled()
      modifies this
      ensures State() == old(State()).(settledAt := None)
    {
      settledAt := None;
    }

    method OnMutate()
      modifies this
      ensures State() == Mutate(old(State()))
    {
      attempt := None;
      settledAt := None;
    }

    // The mutation up to its await: a local refusal, or one POST that echoes the cached expectation.
    method MutationFn(enabled: bool, currentIdentity: nat) returns (post: Option<Post>)
      modifies this
      ensures State() == Send(old(State()), currentIdentity)
      ensures post == PostOf(old(State()), enabled)
    {
      post := None;
      if query.data.Some? {
        var current := query.data.value;
        attempt := Some(Attempt(currentIdentity, current));
        post := Some(Post(enabled, current.view.expected));
      }
    }

    method OnSuccess(currentIdentity: nat, next: View, began: nat, now: Moment, shared: bool, enabled: bool)
      modifies this
      ensures State() == Succeed(old(State()), currentIdentity, next, began, now, shared, enabled)
    {
      if attempt.Some? && attempt.value.identity == currentIdentity {
        if query.data.Some? && query.data.value.id == attempt.value.baseline.id {
          query := Accept(query, next, began, now, shared);
        }
        query := Invalidate(query, now, enabled);
      }
    }

    method OnError(currentIdentity: nat, now: Moment, enabled: bool)
      modifies this
      ensures State() == Fail(old(State()), currentIdentity, now, enabled)
    {
      if attempt.Some? && attempt.value.identity == currentIdentity {
        settledAt := Some(now.clock);
        query := Invalidate(query, now, enabled);
      }
    }
  }
}
