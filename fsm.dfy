/**
 * The finite-state-machine engine of src/fsm.rs.
 *
 * Rust states the allowed transitions at the type level: `transitions!(A => B)` declares the
 * unit structs `A` and `B` and the impl `TransitionTo<B> for A`; the form `A => B*` declares
 * only `B`.  Here a declaration list is a value, and the relation and the declared state
 * types are functions of it.
 */
module Fsm {
  import opened Wrappers

  /** What one step of a state returns: move on to `state`, or stop and report `result`. */
  datatype Transition<St> = Next(state: St) | Complete(result: Result<(), string>)

  /** One `transitions!` invocation: `from => to`, or `from => to*` when `terminal` holds. */
  datatype Arrow<St> = Arrow(from: St, to: St, terminal: bool)

  /** The state structs one invocation declares: both ends, or only the target for the `*` form. */
  function Declares<St>(a: Arrow<St>): seq<St>
  {
    if a.terminal then [a.to] else [a.from, a.to]
  }

  /** The state structs a list of invocations declares, in order. */
  function Declared<St>(ds: seq<Arrow<St>>): seq<St>
  {
    if ds == [] then [] else Declared(ds[..|ds| - 1]) + Declares(ds[|ds| - 1])
  }

  /** The `TransitionTo` impls a list of invocations adds: one pair per invocation, either form. */
  function Relation<St(==)>(ds: seq<Arrow<St>>): set<(St, St)>
  {
    if ds == [] then {} else Relation(ds[..|ds| - 1]) + {(ds[|ds| - 1].from, ds[|ds| - 1].to)}
  }

  /**
   * The list is accepted by the Rust compiler when these invocations are the only
   * declarations of the states: no struct is declared twice, and every struct an impl names
   * is declared.
   */
  ghost predicate Compiles<St>(ds: seq<Arrow<St>>)
  {
    var names := Declared(ds);
    && (forall i, j :: 0 <= i < j < |names| ==> names[i] != names[j])
    && (forall k :: 0 <= k < |ds| ==> ds[k].from in names && ds[k].to in names)
  }

  /** No pair of `rel` leaves `s`. */
  ghost predicate Terminal<St>(rel: set<(St, St)>, s: St)
  {
    forall p :: p in rel ==> p.0 != s
  }

  /**
   * `Transition::next(i, o)`: the checked way to move from `i` to `o`.  Its three trait bounds
   * become the precondition: `I: TransitionTo<O>` is membership of `rel`, and `I: State<S>`,
   * `O: State<S>` are membership of `impls`, the states that implement `State`.  The consumed
   * `i` carries no data.
   */
  function NextChecked<St(==)>(rel: set<(St, St)>, impls: set<St>, i: St, o: St): (t: Transition<St>)
    requires (i, o) in rel && i in impls && o in impls
    ensures t.Next? && t.state == o
  {
    Next(o)
  }

  /** A pair is in the relation exactly when some invocation of the list names it. */
  lemma {:induction false} RelationMembers<St>(ds: seq<Arrow<St>>, a: St, b: St)
    ensures (a, b) in Relation(ds) <==> exists k :: 0 <= k < |ds| && ds[k].from == a && ds[k].to == b
  {
    if ds != [] {
      var init := ds[..|ds| - 1];
      RelationMembers(init, a, b);
      if (a, b) in Relation(init) {
        var k :| 0 <= k < |init| && init[k].from == a && init[k].to == b;
        assert ds[k] == init[k];
      }
      if exists k :: 0 <= k < |ds| && ds[k].from == a && ds[k].to == b {
        var k :| 0 <= k < |ds| && ds[k].from == a && ds[k].to == b;
        if k < |init| {
          assert init[k] == ds[k];
        }
      }
    }
  }

  /**
   * A struct is declared exactly when some invocation names it as target, or names it as
   * source without the `*` marker.
   */
  lemma {:induction false} DeclaredMembers<St>(ds: seq<Arrow<St>>, s: St)
    ensures s in Declared(ds) <==>
            exists k :: 0 <= k < |ds| && (ds[k].to == s || (!ds[k].terminal && ds[k].from == s))
  {
    if ds != [] {
      var init := ds[..|ds| - 1];
      DeclaredMembers(init, s);
      if s in Declared(init) {
        var k :| 0 <= k < |init| && (init[k].to == s || (!init[k].terminal && init[k].from == s));
        assert ds[k] == init[k];
      }
      if exists k :: 0 <= k < |ds| && (ds[k].to == s || (!ds[k].terminal && ds[k].from == s)) {
        var k :| 0 <= k < |ds| && (ds[k].to == s || (!ds[k].terminal && ds[k].from == s));
        if k < |init| {
          assert init[k] == ds[k];
        }
      }
    }
  }
}
