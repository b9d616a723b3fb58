/**
 Replicated-state subscriptions (packages/chord/src/state.ts:102-239): a publisher numbers its revisions and fans each one
 out; every subscription has its own bounded queue and calls its listener one delivery at a time.

 A listener may publish, subscribe or unsubscribe while it runs, and may return a promise, so each part of the loops is a
 step of its own. A delivery is the number of its revision: a hydration has the one current at subscription.
 */
module States {
  import opened Streams

  type Id = nat

  /** One `StateSubscriber`, the sequence it was hydrated at, and what its listener was called with. */
  datatype Subscriber = Subscriber(hydrated: nat, pending: seq<nat>, running: bool, log: seq<nat>)
  {
    /** `push`: 100 deliveries collapse to the new one, after a hydration not delivered yet. */
    function Push(n: nat): (s: Subscriber) {
      var kept := if |pending| != 100 then pending else if log == [] then pending[..1] else [];
      this.(pending := kept + [n])
    }
  }

  /** `current` is the publication being fanned out, with the subscribers still to be pushed to. */
  datatype Publisher = Publisher(sequence: nat, publications: seq<nat>, current: Option<(nat, seq<Id>)>, subscribers: map<Id, Subscriber>)

  datatype Step =
    | Subscribe(id: Id)
    | Unsubscribe(id: Id)
    | Publish
    | Take(order: seq<Id>)
    | Fan
    | Call(id: Id)
    | Return(id: Id)

  ghost predicate Enabled(p: Publisher, step: Step) {
    match step
    case Subscribe(id) => id !in p.subscribers && (p.current.Some? ==> id !in p.current.value.1)
    case Unsubscribe(id) => id in p.subscribers
    case Publish => true
    case Take(order) => p.current.None? && p.publications != [] && Distinct(order) && forall id :: id in order <==> id in p.subscribers
    case Fan => p.current.Some?
    case Call(id) => id in p.subscribers && !p.subscribers[id].running && p.subscribers[id].pending != []
    case Return(id) => id in p.subscribers && p.subscribers[id].running
  }

  function Next(p: Publisher, step: Step): (q: Publisher)
    requires Enabled(p, step)
  {
    match step
    case Subscribe(id) => p.(subscribers := p.subscribers[id := Subscriber(p.sequence, [], false, []).Push(p.sequence)])
    case Unsubscribe(id) => p.(subscribers := p.subscribers - {id})
    case Publish => p.(sequence := p.sequence + 1, publications := p.publications + [p.sequence + 1])
    case Take(order) => p.(current := Some((p.publications[0], order)), publications := p.publications[1..])
    case Fan => Fanned(p, p.current.value.0, p.current.value.1)
    case Call(id) =>
      var s := p.subscribers[id];
      p.(subscribers := p.subscribers[id := s.(pending := s.pending[1..], running := true, log := s.log + [s.pending[0]])])
    case Return(id) => p.(subscribers := p.subscribers[id := p.subscribers[id].(running := false)])
  }

  function Fanned(p: Publisher, n: nat, order: seq<Id>): (q: Publisher) {
    if order == [] then p.(current := None)
    else
      var q := p.(current := Some((n, order[1..])));
      var id := order[0];
      if id in p.subscribers && n > p.subscribers[id].hydrated then
        q.(subscribers := p.subscribers[id := p.subscribers[id].Push(n)])
      else q
  }

  function If(low: nat, n: nat): (r: seq<nat>) {
    if n > low then [n] else []
  }

  /** The numbers above `low` among `ns`. */
  function Above(low: nat, ns: seq<nat>): (r: seq<nat>) {
    if ns == [] then [] else If(low, ns[0]) + Above(low, ns[1..])
  }

  /** What is on its way to subscriber `id`. */
  function Coming(p: Publisher, id: Id): (r: seq<nat>)
    requires id in p.subscribers
  {
    var low := p.subscribers[id].hydrated;
    (if p.current.Some? && id in p.current.value.1 then If(low, p.current.value.0) else []) + Above(low, p.publications)
  }

  predicate Rising(ns: seq<nat>) {
    forall i, j :: 0 <= i < j < |ns| ==> ns[i] < ns[j]
  }

  /** Publications wait in order, up to the newest. */
  predicate Ordered(p: Publisher) {
    && Rising(p.publications) && (p.publications != [] ==> p.publications[|p.publications| - 1] == p.sequence)
    && (p.current.Some? ==>
          && (if p.publications == [] then p.current.value.0 == p.sequence else p.current.value.0 < p.publications[0]))
  }

  /**
   What a subscription got, what waits and what is coming rise from its hydration to the newest revision; at most 100
   deliveries wait.
   */
  predicate Rises(s: Subscriber, coming: seq<nat>, sequence: nat) {
    var got := s.log + s.pending;
    var all := got + coming;
    got != [] && got[0] == s.hydrated && |s.pending| <= 100 && Rising(all) && all[|all| - 1] == sequence
  }

  predicate Served(p: Publisher, id: Id)
    requires id in p.subscribers
  {
    Rises(p.subscribers[id], Coming(p, id), p.sequence)
  }

  ghost predicate Inv(p: Publisher) {
    && Ordered(p) && (p.current.Some? ==> Distinct(p.current.value.1))
    && forall id :: id in p.subscribers ==> Served(p, id)
  }

  lemma {:induction false} AboveAppend(low: nat, ns: seq<nat>, n: nat)
    ensures Above(low, ns + [n]) == Above(low, ns) + If(low, n)
  {
    if ns == [] {
      assert ns + [n] == [n] && [n][1..] == [];
    } else {
      assert (ns + [n])[1..] == ns[1..] + [n];
      AboveAppend(low, ns[1..], n);
    }
  }

  lemma {:induction false} AboveNone(low: nat, ns: seq<nat>)
    requires forall i :: 0 <= i < |ns| ==> ns[i] <= low
    ensures Above(low, ns) == []
  {
    if ns != [] {
      AboveNone(low, ns[1..]);
    }
  }

  lemma RisesToNext(s: Subscriber, coming: seq<nat>, sequence: nat)
    requires Rises(s, coming, sequence)
    ensures s.hydrated <= sequence && Rises(s, coming + [sequence + 1], sequence + 1)
  {
    var got := s.log + s.pending;
    assert (got + coming)[0] == got[0];
    assert got + (coming + [sequence + 1]) == got + coming + [sequence + 1];
  }

  lemma RisesCalled(s: Subscriber, coming: seq<nat>, sequence: nat)
    requires Rises(s, coming, sequence) && s.pending != []
    ensures Rises(s.(pending := s.pending[1..], running := true, log := s.log + [s.pending[0]]), coming, sequence)
  {
    assert s.log + [s.pending[0]] + s.pending[1..] == s.log + s.pending;
  }

  /** Collapsing what waits drops numbers from the middle: the rest still rises to the same end. */
  lemma RisesPushed(s: Subscriber, n: nat, coming: seq<nat>, sequence: nat)
    requires Rises(s, [n] + coming, sequence)
    ensures Rises(s.Push(n), coming, sequence)
  {
    hide Rising;
    if |s.pending| != 100 {
      assert s.log + (s.pending + [n]) + coming == s.log + s.pending + ([n] + coming);
    } else {
      var kept := s.log + if s.log == [] then s.pending[..1] else [];
      var dropped := if s.log == [] then s.pending[1..] else s.pending;
      assert kept + dropped == s.log + s.pending;
      assert s.log + s.Push(n).pending + coming == kept + ([n] + coming);
      Skipping(kept, dropped, [n] + coming);
    }
  }

  lemma Skipping(kept: seq<nat>, dropped: seq<nat>, tail: seq<nat>)
    requires Rising(kept + dropped + tail) && tail != []
    ensures Rising(kept + tail)
  {
    var was, all := kept + dropped + tail, kept + tail;
    assert forall i :: 0 <= i < |kept| ==> all[i] == was[i];
    assert forall i :: |kept| <= i < |all| ==> all[i] == was[i + |dropped|];
  }

  lemma PublishComing(p: Publisher, id: Id)
    requires id in p.subscribers && p.subscribers[id].hydrated <= p.sequence
    ensures Coming(Next(p, Publish), id) == Coming(p, id) + [p.sequence + 1]
  {
    AboveAppend(p.subscribers[id].hydrated, p.publications, p.sequence + 1);
  }

  lemma SubscribeServed(p: Publisher, id: Id)
    requires Inv(p) && Enabled(p, Subscribe(id))
    ensures Served(Next(p, Subscribe(id)), id)
  {
    var q := Next(p, Subscribe(id));
    assert forall i :: 0 <= i < |p.publications| ==> p.publications[i] <= p.sequence;
    AboveNone(p.sequence, p.publications);
    assert q.subscribers[id].pending == [p.sequence];
    assert Coming(q, id) == [];
  }

  lemma FanServed(p: Publisher, n: nat, order: seq<Id>, id: Id)
    requires id in p.subscribers && p.current == Some((n, order)) && Distinct(order) && Served(p, id)
    ensures var q := Fanned(p, n, order); id in q.subscribers && Served(q, id)
  {
    var q := Fanned(p, n, order);
    hide Rises;
    if order != [] && order[0] == id {
      assert id !in order[1..];
      if n > p.subscribers[id].hydrated {
        assert Coming(p, id) == [n] + Coming(q, id);
        RisesPushed(p.subscribers[id], n, Coming(q, id), p.sequence);
      }
    } else if order != [] {
      assert id in order <==> id in order[1..];
    }
  }

  lemma NextServed(p: Publisher, step: Step, id: Id)
    requires Inv(p) && Enabled(p, step) && id in Next(p, step).subscribers
    ensures Served(Next(p, step), id)
  {
    hide Rises, Ordered;
    var q := Next(p, step);
    if step == Subscribe(id) {
      SubscribeServed(p, id);
    } else {
      assert Served(p, id);
      match step
      case Publish =>
        RisesToNext(p.subscribers[id], Coming(p, id), p.sequence);
        PublishComing(p, id);
      case Fan => FanServed(p, p.current.value.0, p.current.value.1, id);
      case Call(x) =>
        assert Coming(q, id) == Coming(p, id);
        if x == id {
          RisesCalled(p.subscribers[id], Coming(p, id), p.sequence);
        }
      case Return(x) =>
        assert Coming(q, id) == Coming(p, id);
        RisesWhile(p.subscribers[id], q.subscribers[id], Coming(p, id), p.sequence);
      case _ => assert Coming(q, id) == Coming(p, id);
    }
  }

  lemma RisesWhile(s: Subscriber, t: Subscriber, coming: seq<nat>, sequence: nat)
    requires Rises(s, coming, sequence) && t == s.(running := t.running)
    ensures Rises(t, coming, sequence)
  {
  }

  lemma NextOrdered(p: Publisher, step: Step)
    requires Ordered(p) && Enabled(p, step) && (p.current.Some? ==> Distinct(p.current.value.1))
    ensures Ordered(Next(p, step)) && (Next(p, step).current.Some? ==> Distinct(Next(p, step).current.value.1))
  {
  }

  lemma NextInv(p: Publisher, step: Step)
    requires Inv(p) && Enabled(p, step)
    ensures Inv(Next(p, step))
  {
    forall id | id in Next(p, step).subscribers
      ensures Served(Next(p, step), id)
    {
      NextServed(p, step, id);
    }
    NextOrdered(p, step);
    hide Served, Ordered;
  }

  predicate Init(p: Publisher) {
    p == Publisher(0, [], None, map[])
  }

  ghost predicate Leads(p: Publisher, q: Publisher) {
    exists step :: Enabled(p, step) && q == Next(p, step)
  }

  ghost predicate Stepped(run: seq<Publisher>, n: nat)
    requires n < |run| - 1
  {
    Leads(run[n], run[n + 1])
  }

  ghost predicate IsRun(run: seq<Publisher>) {
    run != [] && Init(run[0]) && forall n :: 0 <= n < |run| - 1 ==> Stepped(run, n)
  }

  lemma {:induction false} RunInv(run: seq<Publisher>, n: nat)
    requires IsRun(run) && n < |run|
    ensures Inv(run[n])
  {
    if n > 0 {
      RunInv(run, n - 1);
      assert Stepped(run, n - 1);
      var step :| Enabled(run[n - 1], step) && run[n] == Next(run[n - 1], step);
      hide Inv, Enabled, Next;
      NextInv(run[n - 1], step);
    }
  }

  /**
   In every reachable state a subscription was hydrated first and then called with rising sequence numbers above it; at
   most 100 deliveries wait; and once nothing is on its way, its listener's last value is the publisher's.
   */
  lemma HydratedThenRising(run: seq<Publisher>, n: nat, id: Id)
    requires IsRun(run) && n < |run| && id in run[n].subscribers
    ensures var p, s := run[n], run[n].subscribers[id];
            && (s.log != [] ==> s.log[0] == s.hydrated) && Rising(s.log) && |s.pending| <= 100
            && (s.pending == [] && p.publications == [] && p.current.None? ==> s.log != [] && s.log[|s.log| - 1] == p.sequence)
  {
    RunInv(run, n);
    var p, s := run[n], run[n].subscribers[id];
    assert Served(p, id);
    var all := s.log + s.pending + Coming(p, id);
    assert forall i :: 0 <= i < |s.log| ==> all[i] == s.log[i];
    if s.pending == [] && p.publications == [] && p.current.None? {
      assert Coming(p, id) == [];
      assert all == s.log;
    }
  }

  // Nothing is lost before a collapse

  /** Only what is beyond 100 makes deliveries collapse; a hydration not delivered yet stays ahead. */
  lemma PushCollapses(s: Subscriber, n: nat)
    ensures s.Push(n) == s.(pending := s.Push(n).pending)
    ensures s.Push(n).pending == if |s.pending| != 100 then s.pending + [n]
                                 else if s.log == [] then [s.pending[0], n] else [n]
  {
  }

  /** The revisions from `first` to `last`. */
  function Numbers(first: nat, last: nat): (r: seq<nat>)
    requires first <= last
  {
    seq(last - first + 1, i requires 0 <= i => first + i)
  }

  /** What the subscription got, what waits and what comes are all revisions since its hydration. */
  predicate Whole(p: Publisher, id: Id)
    requires id in p.subscribers
  {
    var s := p.subscribers[id];
    s.hydrated <= p.sequence && s.log + s.pending + Coming(p, id) == Numbers(s.hydrated, p.sequence)
  }

  lemma SubscribeWhole(p: Publisher, id: Id)
    requires Inv(p) && Enabled(p, Subscribe(id))
    ensures Whole(Next(p, Subscribe(id)), id)
  {
    var q := Next(p, Subscribe(id));
    assert forall i :: 0 <= i < |p.publications| ==> p.publications[i] <= p.sequence;
    AboveNone(p.sequence, p.publications);
    assert Coming(q, id) == [];
    assert [] + [p.sequence] + [] == Numbers(p.sequence, p.sequence);
  }

  lemma PublishWhole(p: Publisher, id: Id)
    requires id in p.subscribers && Whole(p, id)
    ensures Whole(Next(p, Publish), id)
  {
    var s := p.subscribers[id];
    PublishComing(p, id);
    assert s.log + s.pending + (Coming(p, id) + [p.sequence + 1]) == s.log + s.pending + Coming(p, id) + [p.sequence + 1];
    assert Numbers(s.hydrated, p.sequence) + [p.sequence + 1] == Numbers(s.hydrated, p.sequence + 1);
  }

  lemma FanWhole(p: Publisher, n: nat, order: seq<Id>, id: Id)
    requires id in p.subscribers && p.current == Some((n, order)) && Distinct(order) && Whole(p, id) && |p.subscribers[id].pending| < 100
    ensures var q := Fanned(p, n, order); id in q.subscribers && Whole(q, id)
  {
    var q, s := Fanned(p, n, order), p.subscribers[id];
    if order != [] && order[0] == id {
      assert id !in order[1..];
      if n > s.hydrated {
        assert Coming(p, id) == [n] + Coming(q, id);
        assert s.log + (s.pending + [n]) + Coming(q, id) == s.log + s.pending + ([n] + Coming(q, id));
      } else {
        assert Coming(p, id) == Coming(q, id);
      }
    } else if order != [] {
      assert id in order <==> id in order[1..];
    }
  }

  lemma WholeAlike(p: Publisher, q: Publisher, id: Id)
    requires id in p.subscribers && id in q.subscribers && Whole(p, id) && Coming(q, id) == Coming(p, id)
    requires q.sequence == p.sequence && q.subscribers[id].hydrated == p.subscribers[id].hydrated
    requires q.subscribers[id].log + q.subscribers[id].pending == p.subscribers[id].log + p.subscribers[id].pending
    ensures Whole(q, id)
  {
  }

  lemma CallWhole(p: Publisher, x: Id, id: Id)
    requires Enabled(p, Call(x)) && id in p.subscribers && Whole(p, id)
    ensures Whole(Next(p, Call(x)), id)
  {
    var s := p.subscribers[id];
    assert x == id ==> s.log + [s.pending[0]] + s.pending[1..] == s.log + s.pending;
    hide Whole, Numbers;
    WholeAlike(p, Next(p, Call(x)), id);
  }

  lemma OtherWhole(p: Publisher, step: Step, id: Id)
    requires Enabled(p, step) && id in p.subscribers && Whole(p, id) && id in Next(p, step).subscribers
    requires step.Subscribe? || step.Unsubscribe? || step.Take? || step.Return?
    ensures Whole(Next(p, step), id)
  {
    hide Whole, Numbers;
    WholeAlike(p, Next(p, step), id);
  }

  lemma NextWhole(p: Publisher, step: Step, id: Id)
    requires Inv(p) && Enabled(p, step) && id in p.subscribers && Whole(p, id) && |p.subscribers[id].pending| < 100
    requires id in Next(p, step).subscribers
    ensures Whole(Next(p, step), id)
  {
    hide Served, Ordered, Whole;
    match step
    case Publish => PublishWhole(p, id);
    case Fan => FanWhole(p, p.current.value.0, p.current.value.1, id);
    case Call(x) => CallWhole(p, x, id);
    case _ => OtherWhole(p, step, id);
  }

  /**
   While fewer than 100 deliveries wait a subscriber misses nothing: since it subscribed, what it was called with, what
   waits and what is coming are all revisions since its hydration, each once and in order.
   */
  lemma {:induction false} NothingLost(run: seq<Publisher>, m: nat, n: nat, id: Id)
    requires IsRun(run) && m < n < |run| && Enabled(run[m], Subscribe(id)) && run[m + 1] == Next(run[m], Subscribe(id))
    requires forall k :: m < k <= n ==> id in run[k].subscribers && |run[k].subscribers[id].pending| < 100
    ensures Whole(run[n], id)
  {
    hide Inv, Enabled, Next, Whole;
    if n == m + 1 {
      RunInv(run, m);
      SubscribeWhole(run[m], id);
    } else {
      NothingLost(run, m, n - 1, id);
      RunInv(run, n - 1);
      assert Stepped(run, n - 1);
      var step :| Enabled(run[n - 1], step) && run[n] == Next(run[n - 1], step);
      NextWhole(run[n - 1], step, id);
    }
  }

  /** Who unsubscribed is gone until it subscribes again. */
  lemma StaysGone(p: Publisher, id: Id, step: Step)
    requires id in p.subscribers
    ensures var q := Next(p, Unsubscribe(id));
            && id !in q.subscribers && !Enabled(q, Call(id))
            && (Enabled(q, step) && step != Subscribe(id) ==> id !in Next(q, step).subscribers)
  {
  }

  /** A listener is not called while a call of it runs, and whatever else happens it is once that returned. */
  lemma OneAtATime(p: Publisher, id: Id, step: Step)
    requires Enabled(p, Call(id)) && Enabled(Next(p, Call(id)), step)
    ensures var q := Next(p, Call(id));
            && !Enabled(q, Call(id)) && Enabled(q, Return(id))
            && (step != Return(id) && step != Unsubscribe(id) ==> Enabled(Next(q, step), Return(id)))
            && (Enabled(Next(q, Return(id)), Call(id)) <==> q.subscribers[id].pending != [])
  {
  }
}
