/**
 * The state graph of src/cache/states/mod.rs: the two `transitions!` declarations and the
 * `State` implementations of `InitState` (the HEAD probe) and `HeaderState` (the full fetch).
 */
module States {
  import opened Wrappers
  import opened Fsm
  import opened Http
  import opened CacheData

  /** The state structs the declarations introduce. */
  datatype StateId = InitState | HeaderState | BodyState

  /** `transitions!(InitState => HeaderState); transitions!(HeaderState => BodyState*);` */
  const Declarations: seq<Arrow<StateId>> :=
    [Arrow(InitState, HeaderState, false), Arrow(HeaderState, BodyState, true)]

  /** `I: TransitionTo<O>` for the cache's states. */
  predicate Allowed(i: StateId, o: StateId)
  {
    (i, o) in Relation(Declarations)
  }

  /** The states that implement `State<HttpCacheData>`; `BodyState` has no implementation, so it is never current. */
  type LiveState = s: StateId | s != BodyState witness InitState

  /** The same states as a set, the `S: State<HttpCacheData>` bounds of `Transition::next`. */
  const Implemented: set<StateId> := {InitState, HeaderState}

  /**
   * The only move `Transition::next` can build for the cache is the probe's
   * `InitState → HeaderState`: the terminal pair ends in `BodyState`, which has no `State` impl.
   */
  lemma CheckedMoves(i: StateId, o: StateId)
    ensures (Allowed(i, o) && i in Implemented && o in Implemented) <==> (i, o) == (InitState, HeaderState)
  {
    DeclarationsMeaning();
  }

  /** The declarations compile, declare the three states once each, and relate exactly the probe to the fetch and the fetch to the terminal state. */
  lemma DeclarationsMeaning()
    ensures Compiles(Declarations)
    ensures Declared(Declarations) == [InitState, HeaderState, BodyState]
    ensures forall i, o :: Allowed(i, o) <==> (i, o) == (InitState, HeaderState) || (i, o) == (HeaderState, BodyState)
    ensures Terminal(Relation(Declarations), BodyState)
  {
    assert Declarations[..1] == [Arrow(InitState, HeaderState, false)];
    assert Declared(Declarations) == [InitState, HeaderState, BodyState];
    assert Relation(Declarations) == {(InitState, HeaderState), (HeaderState, BodyState)};
  }

  /** Distance to the terminal state: every allowed move lowers it by one. */
  function Rank(s: StateId): (n: nat)
    ensures n <= 2
    ensures s != BodyState ==> n >= 1
  {
    match s
    case InitState => 2
    case HeaderState => 1
    case BodyState => 0
  }

  lemma AllowedLowersRank(i: StateId, o: StateId)
    requires Allowed(i, o)
    ensures Rank(o) == Rank(i) - 1
  {
    DeclarationsMeaning();
  }

  /** A walk through the declared relation. */
  ghost predicate IsPath(p: seq<StateId>)
  {
    forall k :: 0 <= k < |p| - 1 ==> Allowed(p[k], p[k + 1])
  }

  lemma {:induction false} PathLowersRank(p: seq<StateId>)
    requires |p| > 0 && IsPath(p)
    ensures Rank(p[|p| - 1]) + |p| - 1 == Rank(p[0])
  {
    if |p| > 1 {
      PathLowersRank(p[..|p| - 1]);
      AllowedLowersRank(p[|p| - 2], p[|p| - 1]);
    }
  }

  /** The graph has no cycle and no walk longer than two moves. */
  lemma LongestPath(p: seq<StateId>)
    requires IsPath(p)
    ensures |p| <= 3
  {
    if p != [] {
      PathLowersRank(p);
    }
  }

  /** The outcome of one step: a transition, or the panic that aborted it. */
  datatype Step = Moved(t: Transition<StateId>) | Panicked(fault: Fault)

  /** The request a state issues for the stored one: the probe swaps the method for HEAD, the fetch sends it as it is. */
  function Issued(s: LiveState, r: Request): Request
  {
    if s == InitState then r.(verb := Head) else r
  }

  /** The transition a state builds once its request and its population succeed. */
  function Successor(s: LiveState): Transition<StateId>
  {
    if s == InitState then Next(HeaderState) else Complete(Ok(()))
  }

  /** What one step does, as values: the requests it issues, the record it leaves, its outcome. */
  datatype Effect = Effect(issued: seq<Request>, data: Data, step: Step)

  /**
   * One step of state `s` on record `d`, when the network answers the `n`-th request with
   * `respond`: clone the request (or panic), issue it (or panic), populate (or panic), return
   * the successor.
   */
  function StepEffect(s: LiveState, d: Data, respond: (Request, nat) -> Fetch, n: nat): (e: Effect)
    ensures |e.issued| <= 1
    ensures e.issued == [] <==> TryClone(d.request).None?
    ensures e.issued != [] ==> e.issued == [Issued(s, d.request)]
    ensures e.data.request == d.request
    ensures e.step.Moved? ==> e.issued != [] && respond(e.issued[0], n).Delivered?
    ensures e.step.Moved? && e.step.t.Next? ==> Allowed(s, e.step.t.state) && e.step.t.state != BodyState
    ensures e.step.Moved? && e.step.t.Complete? ==> s == HeaderState && e.step.t.result.Ok?
    ensures d.body != Some([]) ==> e.data.body != Some([])
  {
    DeclarationsMeaning();
    match TryClone(d.request)
    case None => Effect([], d, Panicked(CloneFailed))
    case Some(req) =>
      var q := Issued(s, req);
      match respond(q, n)
      case Failed => Effect([q], d, Panicked(RequestFailed))
      case Delivered(resp) =>
        PopulateNeverStoresEmptyBody(d, resp);
        var w := Populated(d, resp);
        Effect([q], w.data, if w.fault.Some? then Panicked(w.fault.value) else Moved(Successor(s)))
  }

  /** The step ran as `StepEffect` says: its requests were issued, its record written, its outcome returned. */
  twostate predicate Performed(s: LiveState, data: HttpCacheData, net: Transport, r: Step)
    reads data, net
  {
    var e := StepEffect(s, old(data.View()), net.respond, |old(net.sent)|);
    net.sent == old(net.sent) + e.issued && data.View() == e.data && r == e.step
  }

  /** `InitState::next`: probe with a HEAD copy of the request, populate, move to `HeaderState`. */
  method InitStateNext(data: HttpCacheData, net: Transport) returns (r: Step)
    modifies data, net
    ensures Performed(InitState, data, net, r)
  {
    var clone := data.RequestClone();
    if clone.None? {
      return Panicked(CloneFailed);
    }
    var request := clone.value.(verb := Head);
    var fetched := net.Execute(request);
    if fetched.Failed? {
      return Panicked(RequestFailed);
    }
    var fault := data.Populate(fetched.response);
    if fault.Some? {
      return Panicked(fault.value);
    }
    return Moved(Next(HeaderState));
  }

  /** `HeaderState::next`: re-issue the request unchanged, populate, complete. */
  method HeaderStateNext(data: HttpCacheData, net: Transport) returns (r: Step)
    modifies data, net
    ensures Performed(HeaderState, data, net, r)
  {
    var clone := data.RequestClone();
    if clone.None? {
      return Panicked(CloneFailed);
    }
    var fetched := net.Execute(clone.value);
    if fetched.Failed? {
      return Panicked(RequestFailed);
    }
    var fault := data.Populate(fetched.response);
    if fault.Some? {
      return Panicked(fault.value);
    }
    return Moved(Complete(Ok(())));
  }

  /** `State::next` on the current state: one step with exclusive access to the record. */
  method Run(s: LiveState, data: HttpCacheData, net: Transport) returns (r: Step)
    modifies data, net
    ensures Performed(s, data, net, r)
  {
    if s == InitState {
      r := InitStateNext(data, net);
    } else {
      r := HeaderStateNext(data, net);
    }
  }

  /** The probe differs from the stored request only in its method, which is HEAD; the fetch is the stored request verbatim. */
  lemma IssuedRequests(r: Request)
    ensures Issued(InitState, r).verb == Head && Issued(InitState, r).(verb := r.verb) == r
    ensures Issued(HeaderState, r) == r
  {
  }

  /**
   * The `Next` the states build directly is the one `Transition::next` would build: its pair
   * is in the declared relation.
   */
  lemma EveryNextIsDeclared(s: LiveState, d: Data, respond: (Request, nat) -> Fetch, n: nat)
    ensures var e := StepEffect(s, d, respond, n);
            e.step.Moved? && e.step.t.Next? ==>
              Allowed(s, e.step.t.state) && e.step.t == NextChecked(Relation(Declarations), Implemented, s, e.step.t.state)
  {
  }

  /** A step that succeeds yields exactly its state's successor: the probe moves to the fetch, the fetch completes with `Ok`. */
  lemma StepSuccess(s: LiveState, d: Data, respond: (Request, nat) -> Fetch, n: nat)
    requires TryClone(d.request).Some?
    requires respond(Issued(s, d.request), n).Delivered?
    requires Readable(respond(Issued(s, d.request), n).response)
    ensures var e := StepEffect(s, d, respond, n);
            && e.step == Moved(if s == InitState then Next(HeaderState) else Complete(Ok(())))
            && e.data == Populated(d, respond(Issued(s, d.request), n).response).data
  {
    PopulateFaults(d, respond(Issued(s, d.request), n).response);
  }

  /** A failed clone or a failed call aborts the step with no transition and leaves the record as it was. */
  lemma StepAborts(s: LiveState, d: Data, respond: (Request, nat) -> Fetch, n: nat)
    ensures var e := StepEffect(s, d, respond, n);
            && (TryClone(d.request).None? ==> e.step == Panicked(CloneFailed) && e.data == d)
            && (TryClone(d.request).Some? && respond(Issued(s, d.request), n).Failed? ==>
                  e.step == Panicked(RequestFailed) && e.data == d)
  {
  }
}
