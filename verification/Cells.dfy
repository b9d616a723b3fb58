/**
 Cells and derivations (packages/chord/src/cell.ts): a write recomputes every transitive dependent before it changes
 anything, in creation order.

 A source is its creation number. `fn` of a derivation gives None where the function throws; `accepts` is the validation
 of a source's value in dev mode.
 */
module Cells {
  import opened Streams

  datatype Derivation = Derivation(sources: seq<nat>, fn: seq<Value> -> Option<Value>)

  type Values = map<nat, Value>

  predicate Knows(w: Values, d: Derivation) {
    forall i :: 0 <= i < |d.sources| ==> d.sources[i] in w
  }

  /** `Derived.compute` over the values `w`. */
  function Compute(d: Derivation, w: Values): (r: Option<Value>)
    requires Knows(w, d)
  {
    d.fn(seq(|d.sources|, i requires 0 <= i < |d.sources| => w[d.sources[i]]))
  }

  lemma ComputeSame(d: Derivation, w: Values, u: Values)
    requires Knows(w, d) && Knows(u, d) && forall i :: 0 <= i < |d.sources| ==> w[d.sources[i]] == u[d.sources[i]]
    ensures Compute(d, w) == Compute(d, u)
  {
    assert seq(|d.sources|, i requires 0 <= i < |d.sources| => w[d.sources[i]])
        == seq(|d.sources|, i requires 0 <= i < |d.sources| => u[d.sources[i]]);
  }

  lemma Least(s: set<nat>) returns (m: nat)
    requires s != {}
    ensures m in s && forall x :: x in s ==> m <= x
  {
    var x :| x in s;
    if s == {x} {
      m := x;
    } else {
      var rest := Least(s - {x});
      m := if x < rest then x else rest;
      assert forall y :: y in s ==> y == x || y in s - {x};
    }
  }

  /** `d` follows `source`, directly or through other attached derivations. */
  ghost predicate Affected(attached: map<nat, Derivation>, source: nat, d: nat)
    decreases d
  {
    d in attached &&
    exists s :: s in attached[d].sources && s < d && (s == source || Affected(attached, source, s))
  }

  /** Creation order is topological, and `dependents` is the inverse of `sources`. */
  ghost predicate Wired(values: Values, attached: map<nat, Derivation>, dependents: map<nat, set<nat>>) {
    && dependents.Keys == values.Keys
    && (forall d :: d in attached ==> d in values && Knows(values, attached[d]))
    && (forall d, s :: d in attached && s in attached[d].sources ==> s < d)
    && (forall s, d :: s in dependents && d in dependents[s] ==> d in attached && s in attached[d].sources)
    && (forall s, d :: d in attached && s in attached[d].sources ==> s in dependents && d in dependents[s])
  }

  /** Every attached derivation is its function of the values. */
  ghost predicate Consistent(values: Values, attached: map<nat, Derivation>) {
    forall d :: d in attached ==> d in values && Knows(values, attached[d]) && Compute(attached[d], values) == Some(values[d])
  }

  ghost predicate AllAffected(attached: map<nat, Derivation>, c: nat, all: set<nat>) {
    forall d :: d in all ==> Affected(attached, c, d)
  }

  /** What was added to `before` brought its own dependents along. */
  ghost predicate Closed(dependents: map<nat, set<nat>>, before: set<nat>, all: set<nat>) {
    forall d :: d in all && d !in before ==> d in dependents && dependents[d] <= all
  }

  /** Adds the transitive dependents of `source` to `pending`. */
  method Visit(values: Values, attached: map<nat, Derivation>, dependents: map<nat, set<nat>>,
               c: nat, source: nat, pending: set<nat>) returns (all: set<nat>)
    requires Wired(values, attached, dependents) && source in values && (source == c || Affected(attached, c, source))
    requires AllAffected(attached, c, pending)
    ensures pending <= all && dependents[source] <= all
    ensures AllAffected(attached, c, all) && Closed(dependents, pending, all)
    decreases |attached.Keys - pending|
  {
    hide Wired, Affected, AllAffected, Closed;
    all := pending;
    ClosedSame(dependents, pending);
    WiredAt(values, attached, dependents, source);
    var todo := dependents[source];
    while todo != {}
      invariant todo <= dependents[source] && pending <= all && dependents[source] - todo <= all
      invariant AllAffected(attached, c, all) && Closed(dependents, pending, all)
      decreases |todo|
    {
      var d :| d in todo;
      todo := todo - {d};
      if d !in all {
        DependentAffected(values, attached, dependents, c, source, d, all);
        Subset(attached.Keys - (all + {d}), attached.Keys - pending);
        var more := Visit(values, attached, dependents, c, d, all + {d});
        ClosedMore(dependents, pending, all, d, more);
        all := more;
      }
    }
  }

  lemma WiredAt(values: Values, attached: map<nat, Derivation>, dependents: map<nat, set<nat>>, source: nat)
    requires Wired(values, attached, dependents) && source in values
    ensures source in dependents && dependents[source] <= attached.Keys
  {
  }

  lemma DependentAffected(values: Values, attached: map<nat, Derivation>, dependents: map<nat, set<nat>>, c: nat, source: nat,
                          d: nat, all: set<nat>)
    requires Wired(values, attached, dependents) && source in values && (source == c || Affected(attached, c, source))
    requires d in dependents[source] && AllAffected(attached, c, all)
    ensures Affected(attached, c, d) && d in values && d in attached && d in dependents && AllAffected(attached, c, all + {d})
  {
  }

  lemma ClosedSame(dependents: map<nat, set<nat>>, all: set<nat>)
    ensures Closed(dependents, all, all)
  {
  }

  lemma ClosedMore(dependents: map<nat, set<nat>>, before: set<nat>, all: set<nat>, d: nat, more: set<nat>)
    requires Closed(dependents, before, all) && all + {d} <= more && Closed(dependents, all + {d}, more)
    requires d in dependents && dependents[d] <= more
    ensures Closed(dependents, before, more)
  {
  }

  lemma Subset(a: set<nat>, b: set<nat>)
    requires a <= b
    ensures |a| <= |b| && (a < b ==> |a| < |b|)
  {
    assert b == a + (b - a);
  }

  lemma {:induction false} Reached(values: Values, attached: map<nat, Derivation>, dependents: map<nat, set<nat>>,
                                   c: nat, all: set<nat>, d: nat)
    requires Wired(values, attached, dependents) && c in values && dependents[c] <= all && Closed(dependents, {}, all)
    requires Affected(attached, c, d)
    ensures d in all
    decreases d
  {
    var s :| s in attached[d].sources && s < d && (s == c || Affected(attached, c, s));
    if s != c {
      Reached(values, attached, dependents, c, all, s);
    }
    assert d in dependents[s];
  }

  lemma {:induction false} AffectedLater(attached: map<nat, Derivation>, c: nat, d: nat)
    requires Affected(attached, c, d)
    ensures c < d && d in attached
    decreases d
  {
    var s :| s in attached[d].sources && s < d && (s == c || Affected(attached, c, s));
    if s != c {
      AffectedLater(attached, c, s);
    }
  }

  type Check = (nat, Value) -> bool

  /** The values a write of `value` to `c` must lead to: `c` has it, its dependents follow, everything else stays. */
  ghost predicate Solves(values: Values, attached: map<nat, Derivation>, accepts: Check, c: nat, value: Value, w: Values) {
    && w.Keys == values.Keys && c in w && w[c] == value
    && (forall x :: x in w && x != c && !Affected(attached, c, x) ==> w[x] == values[x])
    && (forall d :: Affected(attached, c, d) ==> Follows(attached, accepts, d, w))
  }

  ghost predicate Follows(attached: map<nat, Derivation>, accepts: Check, d: nat, w: Values) {
    d in attached && d in w && Knows(w, attached[d]) && Compute(attached[d], w) == Some(w[d]) && accepts(d, w[d])
  }

  /** After the dependents outside `todo` were recomputed, in order. */
  ghost predicate Recomputed(values: Values, attached: map<nat, Derivation>, accepts: Check, c: nat, value: Value,
                             all: set<nat>, todo: set<nat>, w: Values) {
    && w.Keys == values.Keys && c in w && w[c] == value && todo <= all
    && (forall d :: d in all <==> Affected(attached, c, d))
    && (forall x :: x in w && x != c && (x !in all || x in todo) ==> w[x] == values[x])
    && (forall d :: d in all && d !in todo ==> Follows(attached, accepts, d, w))
    && (forall d, e :: d in all && d !in todo && e in todo ==> d < e)
  }

  /** Every solution has the values computed so far. */
  ghost predicate Forced(values: Values, attached: map<nat, Derivation>, accepts: Check, c: nat, value: Value, todo: set<nat>, w: Values) {
    forall u :: Solves(values, attached, accepts, c, value, u) ==> forall x :: x in w && x !in todo ==> x in u && u[x] == w[x]
  }

  predicate First(todo: set<nat>, d: nat) {
    d in todo && forall e :: e in todo ==> d <= e
  }

  /** The next in order reads only sources that have their new value already. */
  lemma RecomputeNext(values: Values, attached: map<nat, Derivation>, dependents: map<nat, set<nat>>, accepts: Check, c: nat, value: Value,
                      all: set<nat>, todo: set<nat>, w: Values, d: nat)
    requires Wired(values, attached, dependents) && Recomputed(values, attached, accepts, c, value, all, todo, w) && First(todo, d)
    ensures d in attached && d in w && d != c && Knows(w, attached[d])
    ensures forall s :: s in attached[d].sources ==> s !in todo
  {
    AffectedLater(attached, c, d);
  }

  lemma SolutionHas(values: Values, attached: map<nat, Derivation>, accepts: Check, c: nat, value: Value,
                    todo: set<nat>, w: Values, d: nat, u: Values)
    requires Affected(attached, c, d) && Solves(values, attached, accepts, c, value, u)
    requires Forced(values, attached, accepts, c, value, todo, w) && d in attached && Knows(w, attached[d])
    requires forall s :: s in attached[d].sources ==> s !in todo
    ensures d in u && Compute(attached[d], w) == Some(u[d]) && accepts(d, u[d])
  {
    assert Follows(attached, accepts, d, u);
    hide Affected, Solves;
    forall i | 0 <= i < |attached[d].sources|
      ensures w[attached[d].sources[i]] == u[attached[d].sources[i]]
    {
      assert attached[d].sources[i] in attached[d].sources;
    }
    ComputeSame(attached[d], w, u);
  }

  /** So no solution can have another value for it. */
  lemma ForcedNext(values: Values, attached: map<nat, Derivation>, dependents: map<nat, set<nat>>, accepts: Check, c: nat, value: Value,
                   all: set<nat>, todo: set<nat>, w: Values, d: nat, next: Option<Value>)
    requires Wired(values, attached, dependents) && Recomputed(values, attached, accepts, c, value, all, todo, w) && First(todo, d)
    requires Forced(values, attached, accepts, c, value, todo, w)
    requires d in attached && d in w && Knows(w, attached[d]) && next == Compute(attached[d], w)
    ensures next.None? || !accepts(d, next.value) ==> forall u :: !Solves(values, attached, accepts, c, value, u)
    ensures next.Some? ==> Forced(values, attached, accepts, c, value, todo - {d}, w[d := next.value])
  {
    RecomputeNext(values, attached, dependents, accepts, c, value, all, todo, w, d);
    assert Affected(attached, c, d);
    hide Affected, Wired, Recomputed, Solves;
    forall u | Solves(values, attached, accepts, c, value, u)
      ensures d in u && next == Some(u[d]) && accepts(d, u[d])
    {
      SolutionHas(values, attached, accepts, c, value, todo, w, d, u);
    }
  }

  lemma RecomputeStep(values: Values, attached: map<nat, Derivation>, dependents: map<nat, set<nat>>, accepts: Check, c: nat, value: Value,
                      all: set<nat>, todo: set<nat>, w: Values, d: nat, next: Value)
    requires Wired(values, attached, dependents) && Recomputed(values, attached, accepts, c, value, all, todo, w) && First(todo, d)
    requires d in attached && d in w && d != c && Knows(w, attached[d]) && Compute(attached[d], w) == Some(next) && accepts(d, next)
    ensures Recomputed(values, attached, accepts, c, value, all, todo - {d}, w[d := next])
  {
    hide Affected;
    var v := w[d := next];
    forall e | e in all && e !in todo - {d}
      ensures Follows(attached, accepts, e, v)
    {
      assert e == d || Follows(attached, accepts, e, w);
      FollowsOn(values, attached, dependents, accepts, w, e, d, next);
    }
  }

  /** A new value of `d` does not reach back to derivations created before it, nor to itself. */
  lemma FollowsOn(values: Values, attached: map<nat, Derivation>, dependents: map<nat, set<nat>>, accepts: Check, w: Values, e: nat, d: nat, next: Value)
    requires Wired(values, attached, dependents) && w.Keys == values.Keys && e in attached && d in w
    requires if e == d then Knows(w, attached[d]) && Compute(attached[d], w) == Some(next) && accepts(d, next)
             else e < d && Follows(attached, accepts, e, w)
    ensures Follows(attached, accepts, e, w[d := next])
  {
    ComputeSame(attached[e], w, w[d := next]);
  }

  /** `computeDependents`: succeeds exactly when the write has a solution, which it then returns. */
  method ComputeDependents(values: Values, attached: map<nat, Derivation>, dependents: map<nat, set<nat>>, accepts: Check,
                           c: nat, value: Value) returns (ok: bool, w: Values)
    requires Wired(values, attached, dependents) && c in values
    ensures ok <==> exists u :: Solves(values, attached, accepts, c, value, u)
    ensures ok ==> Solves(values, attached, accepts, c, value, w)
  {
    var all := Visit(values, attached, dependents, c, c, {});
    AllReached(values, attached, dependents, c, all);
    w := values[c := value];
    var todo := all;
    RecomputeStart(values, attached, accepts, c, value, all);
    hide Wired, Affected, AllAffected, Closed, Follows, Recomputed, Forced, Solves;
    while todo != {}
      invariant Recomputed(values, attached, accepts, c, value, all, todo, w)
      invariant Forced(values, attached, accepts, c, value, todo, w)
      decreases |todo|
    {
      ghost var least := Least(todo);
      assert First(todo, least);
      var d :| First(todo, d);
      RecomputeNext(values, attached, dependents, accepts, c, value, all, todo, w, d);
      var next := Compute(attached[d], w);
      ForcedNext(values, attached, dependents, accepts, c, value, all, todo, w, d, next);
      if next.None? || !accepts(d, next.value) {
        return false, values;
      }
      RecomputeStep(values, attached, dependents, accepts, c, value, all, todo, w, d, next.value);
      w := w[d := next.value];
      todo := todo - {d};
    }
    RecomputeEnd(values, attached, accepts, c, value, all, w);
    ok := true;
  }

  lemma RecomputeStart(values: Values, attached: map<nat, Derivation>, accepts: Check, c: nat, value: Value, all: set<nat>)
    requires c in values && forall d :: d in all <==> Affected(attached, c, d)
    ensures Recomputed(values, attached, accepts, c, value, all, all, values[c := value])
    ensures Forced(values, attached, accepts, c, value, all, values[c := value])
  {
  }

  lemma RecomputeEnd(values: Values, attached: map<nat, Derivation>, accepts: Check, c: nat, value: Value, all: set<nat>, w: Values)
    requires Recomputed(values, attached, accepts, c, value, all, {}, w)
    ensures Solves(values, attached, accepts, c, value, w)
  {
    hide Affected, Follows;
  }

  lemma AllReached(values: Values, attached: map<nat, Derivation>, dependents: map<nat, set<nat>>, c: nat, all: set<nat>)
    requires Wired(values, attached, dependents) && c in values && dependents[c] <= all && Closed(dependents, {}, all)
    requires AllAffected(attached, c, all)
    ensures forall d :: d in all <==> Affected(attached, c, d)
  {
    forall d | Affected(attached, c, d)
      ensures d in all
    {
      Reached(values, attached, dependents, c, all, d);
    }
  }

  /** Installing a solution leaves every attached derivation equal to its function of the current values. */
  lemma SolutionConsistent(values: Values, attached: map<nat, Derivation>, dependents: map<nat, set<nat>>, accepts: Check,
                           c: nat, value: Value, w: Values)
    requires Wired(values, attached, dependents) && Consistent(values, attached) && c in values && c !in attached
    requires Solves(values, attached, accepts, c, value, w)
    ensures Wired(w, attached, dependents) && Consistent(w, attached)
  {
    forall d | d in attached
      ensures d in w && Knows(w, attached[d]) && Compute(attached[d], w) == Some(w[d])
    {
      if Affected(attached, c, d) {
        assert Follows(attached, accepts, d, w);
      } else {
        forall i | 0 <= i < |attached[d].sources|
          ensures w[attached[d].sources[i]] == values[attached[d].sources[i]]
        {
          assert attached[d].sources[i] in attached[d].sources;
        }
        ComputeSame(attached[d], values, w);
      }
    }
  }

  /** There is at most one solution: the recomputation order does not matter. */
  lemma {:induction false} OneSolution(values: Values, attached: map<nat, Derivation>, dependents: map<nat, set<nat>>, accepts: Check,
                                       c: nat, value: Value, w: Values, u: Values, x: nat)
    requires Wired(values, attached, dependents) && x in values
    requires Solves(values, attached, accepts, c, value, w) && Solves(values, attached, accepts, c, value, u)
    ensures w[x] == u[x]
    decreases x
  {
    if x != c && Affected(attached, c, x) {
      assert Follows(attached, accepts, x, w) && Follows(attached, accepts, x, u);
      forall i | 0 <= i < |attached[x].sources|
        ensures w[attached[x].sources[i]] == u[attached[x].sources[i]]
      {
        assert attached[x].sources[i] in attached[x].sources;
        OneSolution(values, attached, dependents, accepts, c, value, w, u, attached[x].sources[i]);
      }
      ComputeSame(attached[x], w, u);
    }
  }

  class Graph {
    var values: Values
    var attached: map<nat, Derivation>
    var dependents: map<nat, set<nat>>
    var next: nat
    const accepts: Check

    ghost predicate Valid()
      reads this
    {
      Wired(values, attached, dependents) && Consistent(values, attached) && forall x :: x in values ==> x < next
    }

    constructor (accepts: Check)
      ensures Valid() && values == map[] && this.accepts == accepts
    {
      values, attached, dependents, next := map[], map[], map[], 0;
      this.accepts := accepts;
    }

    /** A new cell, or a derivation before it is attached. */
    method Create(initial: Value) returns (x: nat)
      requires Valid()
      modifies this
      ensures Valid() && x == old(next) && x !in old(values) && values == old(values)[x := initial]
      ensures attached == old(attached) && dependents == old(dependents)[x := {}]
    {
      x := next;
      CreateKeeps(values, attached, dependents, x, initial);
      values, dependents, next := values[x := initial], dependents[x := {}], next + 1;
    }

    /**
     `Derived.attach`: nothing is told to those that follow `d` already, so the graph stays consistent exactly if their
     values agree with its first value. Derivations attach in creation order, and then nobody follows `d` yet.
     */
    method Attach(d: nat, derivation: Derivation) returns (ok: bool)
      requires Valid() && d in values && d !in attached
      requires forall s :: s in derivation.sources ==> s in values && s < d
      modifies this
      ensures Wired(values, attached, dependents) && ok == Compute(derivation, old(values)).Some?
      ensures Valid() <==> !ok || forall e :: e in old(dependents)[d] && e in attached ==>
                                    Compute(attached[e], values) == Some(values[e])
      ensures if !ok then values == old(values) && attached == old(attached)
              else attached == old(attached)[d := derivation] && values == old(values)[d := Compute(derivation, old(values)).value]
    {
      var first := Compute(derivation, values);
      if first.None? {
        return false;
      }
      AttachKeeps(values, attached, dependents, d, derivation, first.value);
      AttachConsistent(values, attached, dependents, d, derivation, first.value);
      hide Wired, Consistent;
      values := values[d := first.value];
      dependents := Following(dependents, derivation.sources, d);
      attached := attached[d := derivation];
      return true;
    }

    method Detach(d: nat)
      requires Valid() && d in attached
      modifies this`attached, this`dependents
      ensures Valid() && attached == old(attached) - {d}
    {
      DetachKeeps(values, attached, dependents, d);
      hide Wired;
      dependents := Leaving(dependents, attached[d].sources, d);
      attached := attached - {d};
    }

    /**
     `Cell.#publish`: all or nothing. Every attached derivation equals its function of the values afterwards too, and a
     write is refused exactly when its value is, or no values of the dependents would do.
     */
    method Publish(c: nat, value: Value, same: bool, validate: bool) returns (ok: bool)
      requires Valid() && c in values && c !in attached && (same ==> value == values[c])
      modifies this`values
      ensures Valid()
      ensures var check := if validate then accepts else (_, _) => true;
              && (ok <==> same || (check(c, value) && exists u :: Solves(old(values), attached, check, c, value, u)))
              && (ok && !same ==> Solves(old(values), attached, check, c, value, values))
              && (!ok || same ==> values == old(values))
    {
      if same {
        return true;
      }
      var check := if validate then accepts else (_, _) => true;
      if !check(c, value) {
        return false;
      }
      var w;
      ok, w := ComputeDependents(values, attached, dependents, check, c, value);
      if ok {
        SolutionConsistent(values, attached, dependents, check, c, value, w);
        values := w;
      }
    }
  }

  lemma CreateKeeps(values: Values, attached: map<nat, Derivation>, dependents: map<nat, set<nat>>, x: nat, initial: Value)
    requires Wired(values, attached, dependents) && Consistent(values, attached) && x !in values
    ensures Wired(values[x := initial], attached, dependents[x := {}]) && Consistent(values[x := initial], attached)
  {
    forall d | d in attached
      ensures Compute(attached[d], values[x := initial]) == Compute(attached[d], values)
    {
      ComputeSame(attached[d], values, values[x := initial]);
    }
  }

  function Following(dependents: map<nat, set<nat>>, sources: seq<nat>, d: nat): map<nat, set<nat>> {
    map s | s in dependents :: if s in sources then dependents[s] + {d} else dependents[s]
  }

  function Leaving(dependents: map<nat, set<nat>>, sources: seq<nat>, d: nat): map<nat, set<nat>> {
    map s | s in dependents :: if s in sources then dependents[s] - {d} else dependents[s]
  }

  lemma AttachKeeps(values: Values, attached: map<nat, Derivation>, dependents: map<nat, set<nat>>, d: nat, derivation: Derivation, first: Value)
    requires Wired(values, attached, dependents) && d in values && d !in attached
    requires forall s :: s in derivation.sources ==> s in values && s < d
    ensures Wired(values[d := first], attached[d := derivation], Following(dependents, derivation.sources, d))
  {
    assert forall i :: 0 <= i < |derivation.sources| ==> derivation.sources[i] in derivation.sources;
  }

  lemma AttachConsistent(values: Values, attached: map<nat, Derivation>, dependents: map<nat, set<nat>>, d: nat, derivation: Derivation, first: Value)
    requires Wired(values, attached, dependents) && Consistent(values, attached)
    requires d in values && d !in attached && d !in derivation.sources
    requires Knows(values, derivation) && Compute(derivation, values) == Some(first)
    requires Wired(values[d := first], attached[d := derivation], Following(dependents, derivation.sources, d))
    ensures Consistent(values[d := first], attached[d := derivation]) <==>
            forall e :: e in dependents[d] && e in attached ==> Compute(attached[e], values[d := first]) == Some(values[e])
  {
    ComputeUnread(derivation, values, d, first);
    forall e | e in attached
      ensures Knows(values[d := first], attached[e])
      ensures e !in dependents[d] ==> Compute(attached[e], values[d := first]) == Compute(attached[e], values)
    {
      StillKnows(values, attached, dependents, d, derivation, first, e);
      if e !in dependents[d] {
        Unread(values, attached, dependents, d, e);
        ComputeUnread(attached[e], values, d, first);
      }
    }
    var v, all := values[d := first], attached[d := derivation];
    assert all[d] == derivation && v[d] == first && Knows(v, derivation) && Compute(derivation, v) == Some(first);
    assert forall e :: e in attached ==> e in all && all[e] == attached[e] && v[e] == values[e];
    assert forall e :: e in all ==> e == d || e in attached;
    assert forall e :: e in dependents[d] ==> e in attached;
    hide Compute, Knows, Wired, Following;
    if forall e :: e in dependents[d] && e in attached ==> Compute(attached[e], v) == Some(values[e]) {
      forall e | e in all
        ensures e in v && Knows(v, all[e]) && Compute(all[e], v) == Some(v[e])
      {
        assert e in attached && e !in dependents[d] ==> Compute(attached[e], v) == Compute(attached[e], values);
      }
    }
  }

  lemma StillKnows(values: Values, attached: map<nat, Derivation>, dependents: map<nat, set<nat>>, d: nat, derivation: Derivation,
                   first: Value, e: nat)
    requires Wired(values[d := first], attached[d := derivation], Following(dependents, derivation.sources, d))
    requires e in attached && d !in attached
    ensures Knows(values[d := first], attached[e])
  {
    assert attached[d := derivation][e] == attached[e];
  }

  lemma Unread(values: Values, attached: map<nat, Derivation>, dependents: map<nat, set<nat>>, d: nat, e: nat)
    requires Wired(values, attached, dependents) && d in dependents && e in attached && e !in dependents[d]
    ensures d !in attached[e].sources
  {
  }

  lemma ComputeUnread(derivation: Derivation, values: Values, d: nat, first: Value)
    requires Knows(values, derivation) && d !in derivation.sources
    ensures Knows(values[d := first], derivation) && Compute(derivation, values[d := first]) == Compute(derivation, values)
  {
    ComputeSame(derivation, values, values[d := first]);
  }

  lemma DetachKeeps(values: Values, attached: map<nat, Derivation>, dependents: map<nat, set<nat>>, d: nat)
    requires Wired(values, attached, dependents) && d in attached
    ensures Wired(values, attached - {d}, Leaving(dependents, attached[d].sources, d))
  {
  }
}
