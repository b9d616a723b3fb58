/**
 The reference graph of a host (packages/chord/src/host.ts:544-590, 1246-1305; object.ts:1830-1857): objects hold objects
 through the references their declarations own. A reference that would close a cycle is refused, and a set of objects is
 disposed in waves, holders before what they hold.
 */
module References {

  type Object = nat

  type Holds = map<Object, set<Object>>

  /** Every held object is known. */
  ghost predicate Total(g: Holds) {
    forall x, y :: x in g && y in g[x] ==> y in g
  }

  /** A chain of references from its first object to its last. */
  predicate Path(g: Holds, p: seq<Object>) {
    p != [] && forall i :: 0 <= i < |p| - 1 ==> p[i] in g && p[i + 1] in g[p[i]]
  }

  ghost predicate Reach(g: Holds, x: Object, y: Object) {
    exists p :: Path(g, p) && p[0] == x && p[|p| - 1] == y
  }

  lemma ReachSelf(g: Holds, x: Object)
    ensures Reach(g, x, x)
  {
    assert Path(g, [x]);
  }

  lemma ReachStep(g: Holds, x: Object, y: Object, z: Object)
    requires Reach(g, x, y) && y in g && z in g[y]
    ensures Reach(g, x, z)
  {
    var p :| Path(g, p) && p[0] == x && p[|p| - 1] == y;
    assert Path(g, p + [z]);
  }

  lemma ReachFirst(g: Holds, x: Object, y: Object, z: Object)
    requires x in g && y in g[x] && Reach(g, y, z)
    ensures Reach(g, x, z)
  {
    var p :| Path(g, p) && p[0] == y && p[|p| - 1] == z;
    var q := [x] + p;
    assert forall i :: 1 <= i < |q| ==> q[i] == p[i - 1];
    assert Path(g, q) && q[0] == x && q[|q| - 1] == z;
  }

  /** What holds nothing outside itself keeps every chain that starts in it. */
  lemma {:induction false} ClosedKeeps(g: Holds, s: set<Object>, p: seq<Object>)
    requires Path(g, p) && p[0] in s && forall x, y :: x in s && x in g && y in g[x] ==> y in s
    ensures p[|p| - 1] in s
  {
    if |p| > 1 {
      assert p[1] in g[p[0]];
      ClosedKeeps(g, s, p[1..]);
    }
  }

  ghost predicate AllReached(g: Holds, from: Object, s: seq<Object>) {
    forall i :: 0 <= i < |s| ==> s[i] in g && Reach(g, from, s[i])
  }

  /** What the seen objects hold is seen or waits. */
  predicate Explored(g: Holds, seen: set<Object>, stack: seq<Object>) {
    forall x, y :: x in seen && x in g && y in g[x] ==> y in seen || y in stack
  }

  /** `reaches`: whether `from` references `to`, directly or transitively. */
  method Reaches(g: Holds, from: Object, to: Object) returns (r: bool)
    requires Total(g) && from in g
    ensures r <==> Reach(g, from, to)
  {
    var seen: set<Object> := {};
    var stack := [from];
    ReachSelf(g, from);
    hide Reach, Total;
    while stack != []
      invariant AllReached(g, from, stack) && Explored(g, seen, stack)
      invariant seen <= g.Keys && to !in seen && (from in seen || from in stack)
      decreases |g.Keys - seen|, |stack|
    {
      var x := stack[|stack| - 1];
      assert Reach(g, from, x);
      if x == to {
        return true;
      }
      Popped(g, seen, stack);
      ghost var before := stack;
      stack := stack[..|stack| - 1];
      if x !in seen {
        Visited(g.Keys, seen, x);
        var more := PushHeld(g, from, x, stack);
        assert before == stack + [x];
        MoreExplored(g, seen, stack, x, more);
        seen, stack := seen + {x}, more;
      }
    }
    NotReached(g, from, to, seen);
    r := false;
  }

  /** An object taken off the stack is still accounted for, if it was seen or will be. */
  lemma Popped(g: Holds, seen: set<Object>, stack: seq<Object>)
    requires stack != []
    ensures forall y :: y in stack ==> y == stack[|stack| - 1] || y in stack[..|stack| - 1]
    ensures Explored(g, seen, stack) && stack[|stack| - 1] in seen ==> Explored(g, seen, stack[..|stack| - 1])
  {
  }

  lemma MoreExplored(g: Holds, seen: set<Object>, stack: seq<Object>, x: Object, more: seq<Object>)
    requires Explored(g, seen, stack + [x]) && x in g && forall y :: y in stack || y in g[x] ==> y in more
    ensures Explored(g, seen + {x}, more)
  {
  }

  lemma Visited(all: set<Object>, seen: set<Object>, x: Object)
    requires x in all && x !in seen
    ensures |all - (seen + {x})| < |all - seen|
  {
    assert all - seen == (all - (seen + {x})) + {x};
  }

  lemma NotReached(g: Holds, from: Object, to: Object, seen: set<Object>)
    requires Explored(g, seen, []) && from in seen && to !in seen
    ensures !Reach(g, from, to)
  {
    if Reach(g, from, to) {
      var p :| Path(g, p) && p[0] == from && p[|p| - 1] == to;
      ClosedKeeps(g, seen, p);
    }
  }

  /** Pushes what `x` holds. */
  method PushHeld(g: Holds, ghost from: Object, x: Object, stack: seq<Object>) returns (r: seq<Object>)
    requires Total(g) && x in g && Reach(g, from, x) && AllReached(g, from, stack)
    ensures AllReached(g, from, r) && forall y :: y in stack || y in g[x] ==> y in r
  {
    r := stack;
    var todo := g[x];
    while todo != {}
      invariant todo <= g[x] && AllReached(g, from, r)
      invariant forall y :: y in stack || y in g[x] - todo ==> y in r
      decreases |todo|
    {
      var y :| y in todo;
      ReachStep(g, from, x, y);
      hide Reach;
      todo := todo - {y};
      r := r + [y];
    }
  }

  // No cycles

  /** Holders rank above what they hold. */
  ghost predicate Ranked(g: Holds, rank: map<Object, nat>) {
    g.Keys <= rank.Keys && forall x, y :: x in g && y in g[x] ==> y in rank && rank[x] > rank[y]
  }

  lemma {:induction false} PathFalls(g: Holds, rank: map<Object, nat>, p: seq<Object>)
    requires Ranked(g, rank) && Path(g, p) && |p| > 1
    ensures p[0] in rank && p[|p| - 1] in rank && rank[p[0]] > rank[p[|p| - 1]]
  {
    assert p[1] in g[p[0]];
    if |p| > 2 {
      PathFalls(g, rank, p[1..]);
    }
  }

  /** No chain of references comes back to where it began. */
  lemma NoCycle(g: Holds, rank: map<Object, nat>, p: seq<Object>)
    requires Ranked(g, rank) && Path(g, p) && |p| > 1
    ensures p[0] != p[|p| - 1]
  {
    PathFalls(g, rank, p);
  }

  ghost function Raised(g: Holds, rank: map<Object, nat>, x: Object, y: Object): map<Object, nat>
    requires y in rank
  {
    map z | z in rank :: rank[z] + if Reach(g, z, x) then rank[y] + 1 else 0
  }

  /** A reference to an object that does not reach back leaves the graph ranked: everything above the holder moves up. */
  lemma AddRanked(g: Holds, rank: map<Object, nat>, x: Object, y: Object)
    requires Ranked(g, rank) && x in g && y in g && !Reach(g, y, x)
    ensures Ranked(g[x := g[x] + {y}], Raised(g, rank, x, y))
  {
    var next, raised := g[x := g[x] + {y}], Raised(g, rank, x, y);
    ReachSelf(g, x);
    forall a, b | a in next && b in next[a]
      ensures b in raised && raised[a] > raised[b]
    {
      if b in g[a] && Reach(g, b, x) {
        ReachFirst(g, a, b, x);
      }
    }
  }

  datatype Acquired = Held | Cycle

  class Host {
    var holds: Holds
    ghost var rank: map<Object, nat>

    ghost predicate Valid()
      reads this
    {
      Total(holds) && Ranked(holds, rank)
    }

    constructor ()
      ensures Valid() && holds == map[]
    {
      holds, rank := map[], map[];
    }

    /** A new object holds nothing until its factory runs. */
    method Create(x: Object)
      requires Valid() && x !in holds
      modifies this
      ensures Valid() && holds == old(holds)[x := {}]
    {
      holds, rank := holds[x := {}], rank[x := if x in rank then rank[x] else 0];
    }

    /** `acquire` from an object's factory: refused exactly when the target is the holder or reaches it. */
    method Acquire(from: Object, target: Object) returns (r: Acquired)
      requires Valid() && from in holds && target in holds
      modifies this
      ensures Valid() && (r == Cycle <==> Reach(old(holds), target, from))
      ensures holds == if r == Cycle then old(holds) else old(holds)[from := old(holds)[from] + {target}]
    {
      ReachSelf(holds, from);
      if target == from {
        return Cycle;
      }
      var back := Reaches(holds, target, from);
      if back {
        return Cycle;
      }
      AddRanked(holds, rank, from, target);
      rank := Raised(holds, rank, from, target);
      holds := holds[from := holds[from] + {target}];
      return Held;
    }

    /** A factory run is discarded, a code version retires, or an object is disposed: its references go. */
    method Release(x: Object, gone: set<Object>)
      requires Valid() && x in holds
      modifies this`holds
      ensures Valid() && holds == old(holds)[x := old(holds)[x] - gone]
    {
      holds := holds[x := holds[x] - gone];
    }
  }

  // Disposal

  function HeldBy(g: Holds, objects: set<Object>): (r: set<Object>) {
    set x, y | x in objects && x in g && y in g[x] :: y
  }

  /** Someone in a finite set of ranked objects is held by nobody in it. */
  lemma {:induction false} TopExists(g: Holds, rank: map<Object, nat>, objects: set<Object>)
    requires Ranked(g, rank) && objects <= g.Keys && objects != {}
    ensures exists x :: x in objects && x !in HeldBy(g, objects)
  {
    var top := Highest(rank, objects);
    assert top !in HeldBy(g, objects);
  }

  lemma {:induction false} Highest(rank: map<Object, nat>, objects: set<Object>) returns (top: Object)
    requires objects <= rank.Keys && objects != {}
    ensures top in objects && forall x :: x in objects ==> rank[x] <= rank[top]
  {
    var x :| x in objects;
    if objects == {x} {
      top := x;
    } else {
      var rest := Highest(rank, objects - {x});
      top := if rank[x] > rank[rest] then x else rest;
      assert forall y :: y in objects ==> y == x || y in objects - {x};
    }
  }

  /** Whether `x` is in a wave before the n-th. */
  predicate Before(waves: seq<set<Object>>, n: nat, x: Object)
    requires n <= |waves|
  {
    exists i :: 0 <= i < n && x in waves[i]
  }

  ghost predicate Once(gone: set<Object>, waves: seq<set<Object>>) {
    && (forall i :: 0 <= i < |waves| ==> waves[i] != {} && waves[i] <= gone)
    && (forall i, j, x :: 0 <= i < j < |waves| && x in waves[i] ==> x !in waves[j])
  }

  ghost predicate After(g: Holds, objects: set<Object>, waves: seq<set<Object>>) {
    forall n, x, y :: 0 <= n < |waves| && x in waves[n] && y in objects && y in g && x in g[y] ==> Before(waves, n, y)
  }

  /** The waves take every object of `gone` once, none is empty, and holders come before what they hold. */
  ghost predicate HoldersFirst(g: Holds, objects: set<Object>, gone: set<Object>, waves: seq<set<Object>>) {
    Once(gone, waves) && (forall x :: x in gone ==> Before(waves, |waves|, x)) && After(g, objects, waves)
  }

  /**
   `disposeHoldersFirst`: each wave is disposed and awaited before the next. Every object goes once, and when it goes all
   its holders in the set have gone in earlier waves; no wave is empty, so the fallback for cycles is never taken.
   */
  method DisposeHoldersFirst(g: Holds, ghost rank: map<Object, nat>, objects: set<Object>) returns (waves: seq<set<Object>>)
    requires Ranked(g, rank) && objects <= g.Keys
    ensures HoldersFirst(g, objects, objects, waves)
  {
    var remaining := objects;
    waves := [];
    hide HoldersFirst, Ranked;
    FirstWave(g, objects);
    while remaining != {}
      invariant remaining <= objects && HoldersFirst(g, objects, objects - remaining, waves)
      decreases |remaining|
    {
      var held := HeldBy(g, remaining);
      var wave := set x | x in remaining && x !in held;
      TopExists(g, rank, remaining);
      ghost var top :| top in remaining && top !in held;
      assert top in wave;
      if wave == {} {
        wave := remaining;
      }
      NextWave(g, objects, remaining, waves, wave);
      Fewer(remaining, wave);
      assert objects - (remaining - wave) == objects - remaining + wave;
      remaining := remaining - wave;
      waves := waves + [wave];
    }
    assert objects - {} == objects;
  }

  lemma FirstWave(g: Holds, objects: set<Object>)
    ensures HoldersFirst(g, objects, objects - objects, [])
  {
  }

  lemma NextWave(g: Holds, objects: set<Object>, remaining: set<Object>, waves: seq<set<Object>>, wave: set<Object>)
    requires remaining <= objects && HoldersFirst(g, objects, objects - remaining, waves)
    requires wave != {} && wave <= remaining && forall x :: x in wave ==> x !in HeldBy(g, remaining)
    ensures HoldersFirst(g, objects, objects - remaining + wave, waves + [wave])
  {
    Grown(waves, wave);
    NextOnce(objects - remaining, waves, wave);
    NextAfter(g, objects, remaining, waves, wave);
    hide Before, Once, After;
  }

  lemma NextOnce(gone: set<Object>, waves: seq<set<Object>>, wave: set<Object>)
    requires Once(gone, waves) && wave != {} && wave !! gone
    ensures Once(gone + wave, waves + [wave])
  {
  }

  lemma NextAfter(g: Holds, objects: set<Object>, remaining: set<Object>, waves: seq<set<Object>>, wave: set<Object>)
    requires After(g, objects, waves) && forall x :: x in objects - remaining ==> Before(waves, |waves|, x)
    requires forall x :: x in wave ==> x !in HeldBy(g, remaining)
    ensures After(g, objects, waves + [wave])
  {
    var more := waves + [wave];
    Grown(waves, wave);
    hide Before;
    forall n, x, y | 0 <= n < |more| && x in more[n] && y in objects && y in g && x in g[y]
      ensures Before(more, n, y)
    {
      if n < |waves| {
        assert x in waves[n] && Before(waves, n, y);
      } else {
        assert y !in remaining;
      }
    }
  }

  lemma Fewer(s: set<Object>, t: set<Object>)
    requires t <= s && t != {}
    ensures |s - t| < |s|
  {
    assert s == (s - t) + t;
  }

  lemma Grown(waves: seq<set<Object>>, wave: set<Object>)
    ensures forall n, x :: 0 <= n <= |waves| ==> (Before(waves + [wave], n, x) <==> Before(waves, n, x))
    ensures forall x :: Before(waves + [wave], |waves| + 1, x) <==> Before(waves, |waves|, x) || x in wave
  {
    var more := waves + [wave];
    assert forall i :: 0 <= i < |waves| ==> more[i] == waves[i];
    forall x
      ensures Before(more, |waves| + 1, x) <==> Before(waves, |waves|, x) || x in wave
    {
      if x in wave {
        assert more[|waves|] == wave;
      }
    }
  }
}
