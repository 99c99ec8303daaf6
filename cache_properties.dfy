/** What the façade of src/cache/mod.rs promises, proved of `Advance` and `Pull`. */
module CacheProperties {
  import opened Wrappers
  import opened Fsm
  import Http
  import opened CacheData
  import opened States
  import opened Cache

  /** `next` on a locked façade changes nothing and issues no request. */
  lemma AdvanceLocked(m: Machine, respond: (Http.Request, nat) -> Http.Fetch)
    requires m.locked
    ensures Advance(m, respond) == (m, Ok(()))
  {
  }

  /** The probe's step, when it succeeds, moves to `HeaderState` and locks exactly when some condition holds on the updated record. */
  lemma AdvanceFromProbe(m: Machine, respond: (Http.Request, nat) -> Http.Fetch)
    requires !m.locked && m.fsm == InitState
    ensures var (m1, r) := Advance(m, respond);
            r.Ok? ==> m1.fsm == HeaderState && (m1.locked <==> exists i :: 0 <= i < |m.conds| && m.conds[i](m1.data))
  {
  }

  /** The fetch's step, when it succeeds, completes and locks, in `HeaderState`. */
  lemma AdvanceFromFetch(m: Machine, respond: (Http.Request, nat) -> Http.Fetch)
    requires !m.locked && m.fsm == HeaderState
    ensures var (m1, r) := Advance(m, respond);
            r.Ok? ==> m1.fsm == HeaderState && m1.locked
  {
  }

  /** A getter called when locked, or when the field is known, returns the field and does nothing. */
  lemma PullNoWork<T>(field: Data -> Option<T>, m: Machine, respond: (Http.Request, nat) -> Http.Fetch)
    requires m.locked || field(m.data).Some?
    ensures Pull(field, m, respond) == (m, Ok(field(m.data)))
  {
  }

  /**
   * A getter that does not panic returns the field's value at return, and that value is
   * known or the façade is locked; a panic leaves it unlocked.  The lock never goes back,
   * the conditions and the request do not change, requests are only appended, and at most
   * `Rank` of them, hence at most two.
   */
  lemma {:induction false} PullResult<T>(field: Data -> Option<T>, m: Machine,
                                         respond: (Http.Request, nat) -> Http.Fetch)
    ensures var (m1, r) := Pull(field, m, respond);
            && (r.Ok? ==> r.value == field(m1.data) && (r.value.Some? || m1.locked))
            && (r.Err? ==> !m1.locked)
            && (m.locked ==> m1.locked)
            && m1.conds == m.conds && m1.data.request == m.data.request
            && |m.sent| <= |m1.sent| && m1.sent[..|m.sent|] == m.sent
            && |m1.sent| - |m.sent| <= (if m.locked then 0 else Rank(m.fsm))
            && (Inv(m) ==> Inv(m1))
    decreases Measure(m)
  {
    if !(m.locked || field(m.data).Some?) {
      var (m1, o) := Advance(m, respond);
      if o.Ok? {
        PullResult(field, m1, respond);
        var m2 := Pull(field, m1, respond).0;
        assert m2.sent[..|m.sent|] == m2.sent[..|m1.sent|][..|m.sent|];
      }
    }
  }

  /** Once a getter has left the façade locked, calling any getter again returns the same snapshot and issues nothing. */
  lemma LockedPullsRepeat<T, U>(field: Data -> Option<T>, other: Data -> Option<U>, m: Machine,
                                respond: (Http.Request, nat) -> Http.Fetch)
    requires Pull(field, m, respond).0.locked
    ensures var (m1, r) := Pull(field, m, respond);
            && (r.Ok? ==> Pull(field, m1, respond) == (m1, r))
            && Pull(other, m1, respond) == (m1, Ok(other(m1.data)))
  {
    PullResult(field, m, respond);
  }

  /** `k` calls of `next`, stopping at the first panic. */
  function Advances(m: Machine, respond: (Http.Request, nat) -> Http.Fetch, k: nat): (Machine, Result<(), Fault>)
    decreases k
  {
    if k == 0 then (m, Ok(()))
    else
      var (m1, o) := Advance(m, respond);
      if o.Err? then (m1, o) else Advances(m1, respond, k - 1)
  }

  /** With or without conditions, `Rank` calls of `next` that do not panic leave the façade locked: at most two. */
  lemma {:induction false} AdvancesLock(m: Machine, respond: (Http.Request, nat) -> Http.Fetch, k: nat)
    requires k >= Rank(m.fsm)
    ensures var (m1, r) := Advances(m, respond, k);
            r.Ok? ==> m1.locked
    decreases k
  {
    if k > 0 {
      var (m1, o) := Advance(m, respond);
      if o.Ok? {
        if m1.locked {
          AdvancesStayLocked(m1, respond, k - 1);
        } else {
          AdvancesLock(m1, respond, k - 1);
        }
      }
    }
  }

  lemma {:induction false} AdvancesStayLocked(m: Machine, respond: (Http.Request, nat) -> Http.Fetch, k: nat)
    requires m.locked
    ensures Advances(m, respond, k) == (m, Ok(()))
    decreases k
  {
    if k > 0 {
      AdvancesStayLocked(m, respond, k - 1);
    }
  }
}
