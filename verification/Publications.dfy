/**
 The publication queue (packages/chord/src/publish.ts) and the fan-out of one source (packages/chord/src/cell.ts:19-60).

 Everything is synchronous, but a listener may write, subscribe, unsubscribe or hold publications while it runs, so each
 of these is a step that can happen between any two deliveries. A revision is its number in adoption order.
 */
module Publications {
  import opened Streams

  type Listener = nat

  /** A queued notification: the listeners subscribed when it was made. */
  datatype Task = Task(recipients: seq<Listener>, revision: nat)

  /** `active` is the notification being delivered, with the recipients still to be called; `log` what each subscription got. */
  datatype Source = Source(adopted: nat, subscribed: set<Listener>, queue: seq<Task>, active: Option<Task>, held: nat,
                           log: map<Listener, seq<nat>>)

  datatype Step =
    | Write(recipients: seq<Listener>)
    | Elsewhere
    | Subscribe(listener: Listener)
    | Unsubscribe(listener: Listener)
    | Hold
    | Release
    | Take
    | Deliver

  ghost predicate Enabled(s: Source, step: Step) {
    match step
    case Write(recipients) => Distinct(recipients) && (forall l :: l in recipients <==> l in s.subscribed)
    case Elsewhere => true
    case Subscribe(l) => l !in s.subscribed
    case Unsubscribe(l) => l in s.subscribed
    case Hold => true
    case Release => s.held > 0
    case Take => s.held == 0 && s.active.None? && s.queue != []
    case Deliver => s.held == 0 && s.active.Some?
  }

  function Next(s: Source, step: Step): (t: Source)
    requires Enabled(s, step)
  {
    match step
    case Write(recipients) => s.(adopted := s.adopted + 1, queue := s.queue + [Task(recipients, s.adopted + 1)])
    case Elsewhere => s.(queue := s.queue + [Task([], 0)])
    case Subscribe(l) => s.(subscribed := s.subscribed + {l}, log := s.log[l := [s.adopted]])
    case Unsubscribe(l) => s.(subscribed := s.subscribed - {l})
    case Hold => s.(held := s.held + 1)
    case Release => s.(held := s.held - 1)
    case Take => s.(active := Some(s.queue[0]), queue := s.queue[1..])
    case Deliver => Delivered(s, s.active.value)
  }

  /** The next recipient is called if it is still subscribed. */
  function Delivered(s: Source, task: Task): (t: Source) {
    if task.recipients == [] then s.(active := None)
    else
      var l := task.recipients[0];
      var rest := s.(active := Some(task.(recipients := task.recipients[1..])));
      if l in s.subscribed && l in s.log then rest.(log := s.log[l := s.log[l] + [task.revision]]) else rest
  }

  /** What is on its way to `l`. */
  function Due(task: Task, l: Listener): seq<nat> {
    if l in task.recipients then [task.revision] else []
  }

  function Queued(queue: seq<Task>, l: Listener): seq<nat> {
    if queue == [] then [] else Due(queue[0], l) + Queued(queue[1..], l)
  }

  function Pending(s: Source, l: Listener): seq<nat> {
    (if s.active.Some? then Due(s.active.value, l) else []) + Queued(s.queue, l)
  }

  /** The revisions from `first` to `last`. */
  function Revisions(first: nat, last: nat): (r: seq<nat>)
    requires first <= last
  {
    seq(last - first + 1, i requires 0 <= i => first + i)
  }

  /** What a subscription got and what is on its way are the revisions since it subscribed, each once and in order. */
  predicate Owed(s: Source, l: Listener) {
    l in s.log && s.log[l] != [] && s.log[l][0] <= s.adopted && s.log[l] + Pending(s, l) == Revisions(s.log[l][0], s.adopted)
  }

  ghost predicate Tasks(s: Source) {
    && (forall i :: 0 <= i < |s.queue| ==> Distinct(s.queue[i].recipients))
    && (s.active.Some? ==> Distinct(s.active.value.recipients))
  }

  ghost predicate Inv(s: Source) {
    Tasks(s) && forall l :: l in s.subscribed ==> Owed(s, l)
  }

  /** A listener function must not be subscribed again while an older notification still names it. */
  predicate Fresh(s: Source, step: Step) {
    step.Subscribe? ==> Pending(s, step.listener) == []
  }

  lemma {:induction false} QueuedAppend(queue: seq<Task>, task: Task, l: Listener)
    ensures Queued(queue + [task], l) == Queued(queue, l) + Due(task, l)
  {
    if queue == [] {
      assert queue + [task] == [task] && [task][1..] == [];
    } else {
      assert (queue + [task])[1..] == queue[1..] + [task];
      QueuedAppend(queue[1..], task, l);
    }
  }

  lemma RevisionsGrow(first: nat, last: nat)
    requires first <= last
    ensures Revisions(first, last + 1) == Revisions(first, last) + [last + 1]
  {
  }

  lemma WriteOwed(s: Source, step: Step, l: Listener)
    requires Inv(s) && Enabled(s, step) && (step.Write? || step.Elsewhere?) && l in s.subscribed
    ensures Owed(Next(s, step), l)
  {
    var task := if step.Write? then Task(step.recipients, s.adopted + 1) else Task([], 0);
    assert Owed(s, l);
    QueuedAppend(s.queue, task, l);
    var first := s.log[l][0];
    RevisionsGrow(first, s.adopted);
    assert s.log[l] + Pending(Next(s, step), l) == s.log[l] + Pending(s, l) + Due(task, l);
  }

  lemma DeliverOwed(s: Source, l: Listener)
    requires Inv(s) && Enabled(s, Deliver) && l in s.subscribed
    ensures Owed(Next(s, Deliver), l)
  {
    var t := Next(s, Deliver);
    var task := s.active.value;
    assert Owed(s, l);
    if task.recipients == [] {
      assert Pending(t, l) == Pending(s, l);
    } else if task.recipients[0] == l {
      assert l !in task.recipients[1..];
      assert t.log[l] + Pending(t, l) == s.log[l] + Pending(s, l);
    } else {
      assert l in task.recipients <==> l in task.recipients[1..];
      assert Pending(t, l) == Pending(s, l);
    }
  }

  lemma NextInv(s: Source, step: Step)
    requires Inv(s) && Enabled(s, step) && Fresh(s, step)
    ensures Inv(Next(s, step))
  {
    var t := Next(s, step);
    forall l | l in t.subscribed
      ensures Owed(t, l)
    {
      match step
      case Write(_) => WriteOwed(s, step, l);
      case Elsewhere => WriteOwed(s, step, l);
      case Subscribe(x) =>
        if l == x {
          assert Pending(t, l) == [];
        } else {
          assert Owed(s, l);
          assert Pending(t, l) == Pending(s, l);
        }
      case Deliver => DeliverOwed(s, l);
      case Take =>
        assert Owed(s, l);
        assert Pending(t, l) == Pending(s, l);
      case _ =>
        assert Owed(s, l);
        assert Pending(t, l) == Pending(s, l);
    }
  }

  predicate Init(s: Source) {
    s == Source(s.adopted, {}, [], None, 0, map[])
  }

  ghost predicate Leads(s: Source, t: Source) {
    exists step :: Enabled(s, step) && Fresh(s, step) && t == Next(s, step)
  }

  ghost predicate Stepped(run: seq<Source>, n: nat)
    requires n < |run| - 1
  {
    Leads(run[n], run[n + 1])
  }

  ghost predicate IsRun(run: seq<Source>) {
    run != [] && Init(run[0]) && forall n :: 0 <= n < |run| - 1 ==> Stepped(run, n)
  }

  lemma {:induction false} RunInv(run: seq<Source>, n: nat)
    requires IsRun(run) && n < |run|
    ensures Inv(run[n])
  {
    if n > 0 {
      RunInv(run, n - 1);
      assert Stepped(run, n - 1);
      var step :| Enabled(run[n - 1], step) && Fresh(run[n - 1], step) && run[n] == Next(run[n - 1], step);
      hide Inv, Enabled, Next;
      NextInv(run[n - 1], step);
    }
  }

  /**
   At every moment of every run a subscriber got the value current when it subscribed and then the later revisions in
   adoption order, none twice and none left out; once nothing is queued it has them all.
   */
  lemma InOrder(run: seq<Source>, n: nat, l: Listener)
    requires IsRun(run) && n < |run| && l in run[n].subscribed
    ensures var s := run[n];
            && l in s.log && s.log[l] != [] && s.log[l][0] <= s.adopted
            && s.log[l] <= Revisions(s.log[l][0], s.adopted)
            && (s.queue == [] && s.active.None? ==> s.log[l] == Revisions(s.log[l][0], s.adopted))
  {
    RunInv(run, n);
    assert Owed(run[n], l);
  }

  // Draining

  function Work(queue: seq<Task>): nat {
    if queue == [] then 0 else |queue[0].recipients| + 2 + Work(queue[1..])
  }

  function Left(s: Source): nat {
    (if s.active.Some? then |s.active.value.recipients| + 1 else 0) + Work(s.queue)
  }

  /** The drain loop, when nobody does anything else meanwhile. */
  function Drain(s: Source): (t: Source)
    decreases Left(s)
  {
    if s.active.Some? then Drain(Delivered(s, s.active.value))
    else if s.queue != [] then Drain(s.(active := Some(s.queue[0]), queue := s.queue[1..]))
    else s
  }

  function Got(s: Source, l: Listener): seq<nat> {
    if l in s.log then s.log[l] else []
  }

  lemma {:induction false} DrainDelivers(s: Source, l: Listener)
    requires Tasks(s) && l in s.subscribed && l in s.log
    ensures Got(Drain(s), l) == s.log[l] + Pending(s, l)
    decreases Left(s)
  {
    if s.active.Some? {
      var t := Delivered(s, s.active.value);
      var recipients := s.active.value.recipients;
      DrainDelivers(t, l);
      if recipients == [] {
        assert Pending(t, l) == Pending(s, l);
      } else if recipients[0] == l {
        assert l !in recipients[1..];
        assert t.log[l] + Pending(t, l) == s.log[l] + Pending(s, l);
      } else {
        assert l in recipients <==> l in recipients[1..];
        assert Pending(t, l) == Pending(s, l);
      }
    } else if s.queue != [] {
      var t := s.(active := Some(s.queue[0]), queue := s.queue[1..]);
      DrainDelivers(t, l);
      assert Pending(t, l) == Pending(s, l);
    } else {
      assert s.log[l] + Pending(s, l) == s.log[l];
    }
  }

  // Holding

  lemma HeldStep(s: Source, step: Step, l: Listener)
    requires Enabled(s, step) && s.held > 0 && l in s.subscribed && l in s.log && l in Next(s, step).subscribed
    ensures l in Next(s, step).log && Next(s, step).log[l] == s.log[l] && s.adopted <= Next(s, step).adopted
  {
  }

  lemma {:induction false} HeldLog(run: seq<Source>, m: nat, n: nat, l: Listener)
    requires IsRun(run) && m <= n < |run|
    requires forall k :: m <= k <= n ==> run[k].held > 0 && l in run[k].subscribed
    ensures l in run[m].log && l in run[n].log && run[n].log[l] == run[m].log[l] && run[m].adopted <= run[n].adopted
  {
    RunInv(run, m);
    assert Owed(run[m], l);
    if m < n {
      HeldLog(run, m, n - 1, l);
      assert Stepped(run, n - 1);
      hide Enabled, Next, IsRun, Inv, Owed;
      var step :| Enabled(run[n - 1], step) && Fresh(run[n - 1], step) && run[n] == Next(run[n - 1], step);
      HeldStep(run[n - 1], step, l);
    }
  }

  /**
   While publications are held a subscriber is called with none, though writes go on and however many hold and release in
   between; what was adopted meanwhile joins what was on its way, and the drain after the last release delivers all of
   it in adoption order.
   */
  lemma HeldBack(run: seq<Source>, m: nat, n: nat, l: Listener)
    requires IsRun(run) && m <= n < |run|
    requires forall k :: m <= k <= n ==> run[k].held > 0 && l in run[k].subscribed
    ensures var s, t := run[m], run[n];
            && l in s.log && l in t.log && t.log[l] == s.log[l] && s.log[l] != []
            && s.log[l][0] <= s.adopted <= t.adopted
            && Pending(t, l) == Pending(s, l) + Later(s.adopted, t.adopted)
            && Got(Drain(t.(held := 0)), l) == Revisions(s.log[l][0], t.adopted)
  {
    HeldLog(run, m, n, l);
    RunInv(run, m);
    RunInv(run, n);
    var s, t := run[m], run[n];
    assert Owed(s, l) && Owed(t, l);
    RevisionsLater(s.log[l][0], s.adopted, t.adopted);
    assert s.log[l] + Pending(t, l) == s.log[l] + (Pending(s, l) + Later(s.adopted, t.adopted));
    SamePrefix(s.log[l], Pending(t, l), Pending(s, l) + Later(s.adopted, t.adopted));
    assert Pending(t.(held := 0), l) == Pending(t, l);
    DrainDelivers(t.(held := 0), l);
  }

  /** The revisions after `last` up to `now`. */
  function Later(last: nat, now: nat): (r: seq<nat>)
    requires last <= now
  {
    seq(now - last, i requires 0 <= i => last + 1 + i)
  }

  lemma RevisionsLater(first: nat, last: nat, now: nat)
    requires first <= last <= now
    ensures Revisions(first, now) == Revisions(first, last) + Later(last, now)
  {
  }

  lemma SamePrefix(a: seq<nat>, b: seq<nat>, c: seq<nat>)
    requires a + b == a + c
    ensures b == c
  {
    assert b == (a + b)[|a|..] && c == (a + c)[|a|..];
  }

  // Unsubscribed

  lemma SilentStep(s: Source, step: Step, l: Listener)
    requires Enabled(s, step) && l !in s.subscribed && l !in Next(s, step).subscribed
    ensures Got(Next(s, step), l) == Got(s, l)
  {
  }

  /** From the moment it unsubscribes a listener is called with nothing more, not even with what was on its way to it. */
  lemma {:induction false} SilentAfter(run: seq<Source>, m: nat, n: nat, l: Listener)
    requires IsRun(run) && m <= n < |run| && forall k :: m <= k <= n ==> l !in run[k].subscribed
    ensures Got(run[n], l) == Got(run[m], l)
  {
    if m < n {
      SilentAfter(run, m, n - 1, l);
      assert Stepped(run, n - 1);
      hide Enabled, Next, IsRun, Got;
      var step :| Enabled(run[n - 1], step) && Fresh(run[n - 1], step) && run[n] == Next(run[n - 1], step);
      SilentStep(run[n - 1], step, l);
    }
  }

  /** While publications are held nothing is taken or delivered, and a release ends just one hold. */
  lemma HoldsNest(s: Source)
    ensures var t := Next(s, Hold);
            && !Enabled(t, Take) && !Enabled(t, Deliver) && Enabled(t, Release) && Next(t, Release) == s
  {
  }

  // Subscribing again

  /**
   The promise to a subscriber is kept exactly when no older notification names it at the time it subscribes: otherwise
   it is called with a revision from before its own first value.
   */
  lemma FreshIsNeeded(s: Source, l: Listener)
    requires Tasks(s) && l !in s.subscribed
    ensures Got(Drain(Next(s, Subscribe(l))), l) == Revisions(s.adopted, s.adopted) <==> Fresh(s, Subscribe(l))
  {
    var t := Next(s, Subscribe(l));
    DrainDelivers(t, l);
    assert Pending(t, l) == Pending(s, l);
    assert Revisions(s.adopted, s.adopted) == [s.adopted];
  }

  /** Subscribe, write while held, unsubscribe, and subscribe the same function again: it sees revision 1, then 1 again. */
  lemma SubscribedAgain()
    ensures var a := Next(Source(0, {}, [], None, 0, map[]), Subscribe(7));
            var b := Next(Next(Next(a, Hold), Write([7])), Unsubscribe(7));
            Got(Drain(Next(Next(b, Subscribe(7)), Release)), 7) == [1, 1]
  {
    var a := Next(Source(0, {}, [], None, 0, map[]), Subscribe(7));
    var b := Next(Next(Next(a, Hold), Write([7])), Unsubscribe(7));
    var c := Next(Next(b, Subscribe(7)), Release);
    assert c.queue == [Task([7], 1)] && c.log[7] == [1];
    assert Queued(c.queue, 7) == Due(c.queue[0], 7) + Queued(c.queue[1..], 7) == [1];
    DrainDelivers(c, 7);
  }
}
