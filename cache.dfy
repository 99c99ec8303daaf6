/**
 * `HttpCache` of src/cache/mod.rs: the lazy façade.  It owns the current state, a one-way
 * lock, an ordered list of interrupt conditions and the data record, and each getter pulls
 * the machine forward only as far as the requested field needs.
 *
 * Every getter may issue network requests: that is its point.
 *
 * `Machine` is the façade as a value, together with the requests issued so far; `Advance`
 * and `Pull` say what `next` and a getter do to it, and the class's methods are proved to
 * do exactly that.
 */
module Cache {
  import opened Wrappers
  import opened Fsm
  import Http
  import opened CacheData
  import opened States

  /** `interupt_conditions.iter().any(|f| f(&data))`: some condition holds on the record. */
  function AnyHolds(conds: seq<Data -> bool>, d: Data): (b: bool)
    ensures b <==> exists i :: 0 <= i < |conds| && conds[i](d)
  {
    if conds == [] then false
    else if conds[0](d) then true
    else
      var b := AnyHolds(conds[1..], d);
      assert forall i :: 1 <= i < |conds| ==> conds[i] == conds[1..][i - 1];
      b
  }

  /** The façade as a value: current state, lock, conditions, record, and the requests issued so far. */
  datatype Machine = Machine(fsm: LiveState, locked: bool, conds: seq<Data -> bool>, data: Data,
                             sent: seq<Http.Request>)

  /** Locked only in `HeaderState` (a step has run), and never an empty body in the record. */
  predicate Consistent(fsm: LiveState, locked: bool, d: Data)
  {
    (locked ==> fsm == HeaderState) && d.body != Some([])
  }

  predicate Inv(m: Machine)
  {
    Consistent(m.fsm, m.locked, m.data)
  }

  /** A new façade for `request`, beside a network that has issued `sent`. */
  function Fresh(request: Http.Request, sent: seq<Http.Request>): Machine
  {
    Machine(InitState, false, [], Empty(request), sent)
  }

  /** What is left to do: the distance to the end, plus one while unlocked. */
  function Measure(m: Machine): nat
  {
    Rank(m.fsm) + if m.locked then 0 else 1
  }

  /**
   * `HttpCache::next` on a value: nothing when locked; otherwise one step of the current
   * state, then a `Next` replaces the state and locks when some condition holds on the
   * updated record, a `Complete` locks, and a panic leaves state and lock as they were.
   */
  function Advance(m: Machine, respond: (Http.Request, nat) -> Http.Fetch): (r: (Machine, Result<(), Fault>))
    ensures r.0.conds == m.conds && r.0.data.request == m.data.request
    ensures |m.sent| <= |r.0.sent| <= |m.sent| + 1 && r.0.sent[..|m.sent|] == m.sent
    ensures m.locked ==> r.0.locked
    ensures !m.locked && r.1.Ok? ==> Measure(r.0) < Measure(m) && |r.0.sent| == |m.sent| + 1
    ensures r.1.Err? ==> r.0.fsm == m.fsm && !r.0.locked
    ensures Inv(m) ==> Inv(r.0)
  {
    if m.locked then (m, Ok(()))
    else
      var e := StepEffect(m.fsm, m.data, respond, |m.sent|);
      var m1 := m.(data := e.data, sent := m.sent + e.issued);
      match e.step
      case Panicked(f) => (m1, Err(f))
      case Moved(Next(s)) => (m1.(fsm := s, locked := AnyHolds(m.conds, e.data)), Ok(()))
      case Moved(Complete(_)) => (m1.(locked := true), Ok(()))
  }

  /**
   * An `fsm_getter!` accessor on a value: when locked, the field as it is; when unlocked and
   * known, the field; otherwise advance once and try again, stopping at a panic.
   */
  function Pull<T>(field: Data -> Option<T>, m: Machine, respond: (Http.Request, nat) -> Http.Fetch)
    : (Machine, Result<Option<T>, Fault>)
    decreases Measure(m)
  {
    if m.locked || field(m.data).Some? then (m, Ok(field(m.data)))
    else
      var (m1, o) := Advance(m, respond);
      if o.Err? then (m1, Err(o.error)) else Pull(field, m1, respond)
  }

  /** Field selectors, one per getter. */
  function StatusCodeOf(d: Data): Option<Http.StatusCode> { d.statusCode }
  function HeadersOf(d: Data): Option<Http.HeaderMap> { d.headers }
  function BodyOf(d: Data): Option<string> { d.body }
  function ContentLengthOf(d: Data): Option<Http.U64> { d.contentLength }
  function ContentTypeOf(d: Data): Option<string> { d.contentType }
  function VersionOf(d: Data): Option<Http.Version> { d.version }

  class HttpCache {
    var fsm: LiveState
    var fsmLocked: bool
    var interruptConditions: seq<Data -> bool>
    const data: HttpCacheData

    ghost predicate Valid()
      reads this, data
    {
      Consistent(fsm, fsmLocked, data.View())
    }

    /** The façade as a value, with the requests `net` has issued. */
    ghost function State(net: Http.Transport): Machine
      reads this, data, net
    {
      Machine(fsm, fsmLocked, interruptConditions, data.View(), net.sent)
    }

    /** `HttpCache::new`: start state, unlocked, no conditions, nothing known. */
    constructor (request: Http.Request)
      ensures Valid() && fresh(data)
      ensures fsm == InitState && !fsmLocked && interruptConditions == []
      ensures data.View() == Empty(request)
    {
      fsm := InitState;
      fsmLocked := false;
      interruptConditions := [];
      data := new HttpCacheData(request);
    }

    /** `add_interupt_condition`: append `f` to the conditions; nothing else changes. */
    method AddInterruptCondition(f: Data -> bool)
      modifies this`interruptConditions
      ensures interruptConditions == old(interruptConditions) + [f]
      ensures fsm == old(fsm) && fsmLocked == old(fsmLocked)
    {
      interruptConditions := interruptConditions + [f];
    }

    /** `lock_fsm`. */
    method LockFsm()
      modifies this`fsmLocked
      ensures fsmLocked
    {
      fsmLocked := true;
    }

    /** `fsm_is_locked`. */
    function FsmIsLocked(): bool
      reads this
    {
      fsmLocked
    }

    /** `next`: one step of the machine, as `Advance` says. */
    method Next(net: Http.Transport) returns (r: Result<(), Fault>)
      requires Valid()
      modifies this, data, net
      ensures Valid()
      ensures (State(net), r) == Advance(old(State(net)), net.respond)
    {
      if FsmIsLocked() {
        return Ok(());
      }
      var step := Run(fsm, data, net);
      if step.Panicked? {
        return Err(step.fault);
      }
      r := Ok(());
      match step.t
      case Next(s) =>
        fsm := s;
        if AnyHolds(interruptConditions, data.View()) {
          LockFsm();
        }
      case Complete(_) =>
        LockFsm();
    }

    /** The body of `fsm_getter!`, its recursion turned into a loop: as `Pull` says. */
    method Resolve<T>(field: Data -> Option<T>, net: Http.Transport) returns (r: Result<Option<T>, Fault>)
      requires Valid()
      modifies this, data, net
      ensures Valid()
      ensures (State(net), r) == Pull(field, old(State(net)), net.respond)
    {
      while true
        invariant Valid()
        invariant Pull(field, State(net), net.respond) == Pull(field, old(State(net)), net.respond)
        decreases Measure(State(net))
      {
        if FsmIsLocked() {
          return Ok(field(data.View()));
        }
        var known := field(data.View());
        if known.Some? {
          return Ok(known);
        }
        var advanced := Next(net);
        if advanced.Err? {
          return Err(advanced.error);
        }
      }
    }

    method StatusCode(net: Http.Transport) returns (r: Result<Option<Http.StatusCode>, Fault>)
      requires Valid()
      modifies this, data, net
      ensures Valid() && (State(net), r) == Pull(StatusCodeOf, old(State(net)), net.respond)
    {
      r := Resolve(StatusCodeOf, net);
    }

    method Headers(net: Http.Transport) returns (r: Result<Option<Http.HeaderMap>, Fault>)
      requires Valid()
      modifies this, data, net
      ensures Valid() && (State(net), r) == Pull(HeadersOf, old(State(net)), net.respond)
    {
      r := Resolve(HeadersOf, net);
    }

    method Body(net: Http.Transport) returns (r: Result<Option<string>, Fault>)
      requires Valid()
      modifies this, data, net
      ensures Valid() && (State(net), r) == Pull(BodyOf, old(State(net)), net.respond)
    {
      r := Resolve(BodyOf, net);
    }

    method ContentLength(net: Http.Transport) returns (r: Result<Option<Http.U64>, Fault>)
      requires Valid()
      modifies this, data, net
      ensures Valid() && (State(net), r) == Pull(ContentLengthOf, old(State(net)), net.respond)
    {
      r := Resolve(ContentLengthOf, net);
    }

    method ContentType(net: Http.Transport) returns (r: Result<Option<string>, Fault>)
      requires Valid()
      modifies this, data, net
      ensures Valid() && (State(net), r) == Pull(ContentTypeOf, old(State(net)), net.respond)
    {
      r := Resolve(ContentTypeOf, net);
    }

    method Version(net: Http.Transport) returns (r: Result<Option<Http.Version>, Fault>)
      requires Valid()
      modifies this, data, net
      ensures Valid() && (State(net), r) == Pull(VersionOf, old(State(net)), net.respond)
    {
      r := Resolve(VersionOf, net);
    }
  }
}
