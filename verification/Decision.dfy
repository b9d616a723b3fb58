/**
 What a reload of the cluster decides (packages/chord/src/cluster.ts:39-158): when it commits, every participant that is
 still reached comes to the new version with the server; when it aborts, all stay, and nothing of it is left.
 */
module Decisions {
  import opened Streams
  import opened Clusters

  // What a child may still be working on

  /** The operation of a child that has not been told to stop. */
  function LiveOf(c: Child): (ids: set<nat>) {
    if c.operation.Some? && !c.operation.value.cancelled then {c.operation.value.id} else {}
  }

  function Told(ids: set<nat>, f: Control): (r: set<nat>) {
    match f
    case Prepare(id, _) => ids + {id}
    case Commit(id) => ids - {id}
    case Abort(id) => ids - {id}
    case _ => ids
  }

  /** What it may be working on once it took these frames. */
  function Live(ids: set<nat>, d: seq<Control>): (r: set<nat>)
    decreases |d|
  {
    if d == [] then ids else Live(Told(ids, d[0]), d[1..])
  }

  lemma {:induction false} LiveAppend(ids: set<nat>, d: seq<Control>, f: Control)
    ensures Live(ids, d + [f]) == Told(Live(ids, d), f)
    decreases |d|
  {
    if d == [] {
      assert d + [f] == [f] && [f][1..] == [];
    } else {
      assert (d + [f])[1..] == d[1..] + [f];
      LiveAppend(Told(ids, d[0]), d[1..], f);
    }
  }

  lemma {:induction false} LiveLess(ids: set<nat>, more: set<nat>, d: seq<Control>)
    requires ids <= more
    ensures Live(ids, d) <= Live(more, d)
    decreases |d|
  {
    if d != [] {
      LiveLess(Told(ids, d[0]), Told(more, d[0]), d[1..]);
    }
  }

  /** A commit reaches a child that is ready for it, so each frame leaves at most what it tells. */
  predicate Effective(c: Child, d: seq<Control>) {
    CommitFirst(d) && (CommitOf(d).Some? ==> c.operation.Some? && c.ReadyFor(CommitOf(d).value, Target(c)))
  }

  lemma LiveTaken(c: Child, d: seq<Control>)
    requires d != [] && Effective(c, d)
    ensures LiveOf(c.Receive(d[0])) <= Told(LiveOf(c), d[0])
    ensures Effective(c.Receive(d[0]), d[1..])
  {
    if CommitOf(d[1..]) == None {
      NoCommit(0, None, 0, d[1..]);
    }
  }

  lemma {:induction false} LiveReceived(c: Child, d: seq<Control>)
    requires Effective(c, d)
    ensures LiveOf(ReceiveAll(c, d)) <= Live(LiveOf(c), d)
    decreases |d|
  {
    if d != [] {
      LiveTaken(c, d);
      LiveReceived(c.Receive(d[0]), d[1..]);
      LiveLess(LiveOf(c.Receive(d[0])), Told(LiveOf(c), d[0]), d[1..]);
    }
  }

  /** What the server has asked over a link and not settled. */
  function Outstanding(s: Server, i: nat, l: Link): (ids: set<nat>) {
    if !l.round.Quiet? then {l.round.id}
    else if s.phase.Voting? && i in s.phase.participants then {s.phase.id} else {}
  }

  predicate Accounted(s: Server, i: nat, l: Link, c: Child) {
    l.childOpen && l.serverOpen ==> Live(LiveOf(c), l.down) <= Outstanding(s, i, l)
  }

  /** Nobody that is reached works on, or will work on, what the server does not wait for. */
  predicate AllAccounted(k: Cluster) {
    forall i :: 0 <= i < |k.links| ==>
      k.links[i].child < |k.children| && Accounted(k.server, i, k.links[i], k.children[k.links[i].child])
  }

  // One step keeps that

  /** The frame changes nothing that a child works on. */
  lemma PlainSent(l: Link, ids: set<nat>, f: Control)
    requires !f.IsOp()
    ensures Live(ids, l.Send([f]).down) == Live(ids, l.down)
  {
    LiveAppend(ids, l.down, f);
  }

  lemma AnnouncementSent(s: Server, l: Link, ids: set<nat>)
    ensures Live(ids, l.Send(s.Announcement()).down) == Live(ids, l.down)
  {
    if s.Oldest() <= 1 {
      assert l.down + [] == l.down;
    } else {
      PlainSent(l, ids, Retire(s.Oldest() - 1));
    }
  }

  /** A step of the server over one link. */
  lemma OverLink(k: Cluster, t: Server, i: nat, l: Link)
    requires AllAccounted(k) && i < |k.links| && l.child == k.links[i].child
    requires forall j :: 0 <= j < |k.links| ==> Outstanding(t, j, k.links[j]) == Outstanding(k.server, j, k.links[j])
    requires Accounted(t, i, l, k.children[l.child])
    ensures AllAccounted(SetLink(k.(server := t), i, l))
  {
    hide Live, LiveOf;
    var k' := SetLink(k.(server := t), i, l);
    forall j | 0 <= j < |k'.links|
      ensures k'.links[j].child < |k'.children| && Accounted(t, j, k'.links[j], k'.children[k'.links[j].child])
    {
      assert k.links[j].child < |k.children| && Accounted(k.server, j, k.links[j], k.children[k.links[j].child]);
    }
  }

  lemma PeerHelloAccounted(s: Server, i: nat, l: Link, c: Child, version: nat)
    requires Accounted(s, i, l, c)
    ensures Accounted(s, i, PeerHello(s, l, version), c)
  {
    AnnouncementSent(s, l.(peer := version, seen := Synced), LiveOf(c));
    hide Live, LiveOf;
  }

  /** A vote that will not come: the link is closed, or the reload as a whole still has its round to settle. */
  lemma UnvotedAccounted(s: Server, i: nat, l: Link, c: Child)
    requires LinkOk(s, i, l, c) && Accounted(s, i, l, c) && l.round.Asked?
    ensures Accounted(Failing(s, l), i, Unvoted(l), c)
  {
    hide Live, LiveOf;
  }

  lemma LinkStep(k: Cluster, step: Step)
    requires Inv(k) && AllAccounted(k) && Enabled(k, step)
    requires step.ServerCloses? || step.HelloArrives? || step.HelloAgain? || step.VoteArrives? || step.VoteMissing?
             || step.SendCall? || step.Reconcile? || step.Conclude?
    ensures AllAccounted(Next(k, step))
  {
    hide Inv, AllAccounted, Enabled, Next;
    match step
    case ServerCloses(i) => ServerClosesAccounted(k, i);
    case HelloArrives(i) => HelloAccounted(k, i);
    case HelloAgain(i) => HelloAgainAccounted(k, i);
    case VoteArrives(i) => VoteAccounted(k, i);
    case VoteMissing(i) => MissingAccounted(k, i);
    case Reconcile(i) => ReconciledAccounted(k, i);
    case Conclude(i) => ConcludedAccounted(k, i);
    case SendCall(i, root) => CallAccounted(k, i, root);
    case _ =>
  }

  /** What is known of a link and the child at its end. */
  lemma LinkKnown(k: Cluster, i: nat)
    requires Inv(k) && AllAccounted(k) && i < |k.links|
    ensures var l := k.links[i];
            l.child < |k.children| && LinkOk(k.server, i, l, k.children[l.child]) && Accounted(k.server, i, l, k.children[l.child])
  {
    hide LinkOk, Accounted, ServerOk;
  }

  lemma ServerClosesAccounted(k: Cluster, i: nat)
    requires Inv(k) && AllAccounted(k) && Enabled(k, ServerCloses(i))
    ensures AllAccounted(Next(k, ServerCloses(i)))
  {
    hide Inv, AllAccounted, Live, LiveOf, LinkOk;
    LinkKnown(k, i);
    var l := k.links[i];
    if l.round.Asked? {
      OverLink(k, Failing(k.server, l), i, Unvoted(l).(serverOpen := false));
    } else {
      OverLink(k, k.server, i, l.(serverOpen := false));
    }
  }

  lemma HelloAccounted(k: Cluster, i: nat)
    requires Inv(k) && AllAccounted(k) && Enabled(k, HelloArrives(i))
    ensures AllAccounted(Next(k, HelloArrives(i)))
  {
    hide Inv, AllAccounted, Live, LiveOf, LinkOk;
    LinkKnown(k, i);
    var l := k.links[i];
    PeerHelloAccounted(k.server, i, l.(up := l.up[1..]), k.children[l.child], l.up[0].version);
    OverLink(k, k.server, i, PeerHello(k.server, l.(up := l.up[1..]), l.up[0].version));
  }

  lemma HelloAgainAccounted(k: Cluster, i: nat)
    requires Inv(k) && AllAccounted(k) && Enabled(k, HelloAgain(i))
    ensures AllAccounted(Next(k, HelloAgain(i)))
  {
    hide Inv, AllAccounted, Live, LiveOf, LinkOk;
    LinkKnown(k, i);
    var l := k.links[i];
    PeerHelloAccounted(k.server, i, l, k.children[l.child], l.peer);
    OverLink(k, k.server, i, PeerHello(k.server, l, l.peer));
  }

  lemma MissingAccounted(k: Cluster, i: nat)
    requires Inv(k) && AllAccounted(k) && Enabled(k, VoteMissing(i))
    ensures AllAccounted(Next(k, VoteMissing(i)))
  {
    hide Inv, AllAccounted, Live, LiveOf, LinkOk;
    LinkKnown(k, i);
    var l := k.links[i];
    UnvotedAccounted(k.server, i, l, k.children[l.child]);
    OverLink(k, Failing(k.server, l), i, Unvoted(l));
  }

  lemma ReconciledAccounted(k: Cluster, i: nat)
    requires Inv(k) && AllAccounted(k) && Enabled(k, Reconcile(i))
    ensures AllAccounted(Next(k, Reconcile(i)))
  {
    hide Inv, AllAccounted, Live, LiveOf, LinkOk;
    LinkKnown(k, i);
    var l := k.links[i];
    ReconcileAccounted(k.server, i, l, k.children[l.child]);
    OverLink(k, Reconciled(k.server, l).0, i, Reconciled(k.server, l).1);
  }

  lemma ConcludedAccounted(k: Cluster, i: nat)
    requires Inv(k) && AllAccounted(k) && Enabled(k, Conclude(i))
    ensures AllAccounted(Next(k, Conclude(i)))
  {
    hide Inv, AllAccounted, Live, LiveOf, LinkOk;
    LinkKnown(k, i);
    var l := k.links[i];
    ConcludeAccounted(k.server, i, l, k.children[l.child]);
    OverLink(k, k.server, i, Concluded(k.server, l));
  }

  lemma CallAccounted(k: Cluster, i: nat, root: nat)
    requires Inv(k) && AllAccounted(k) && Enabled(k, SendCall(i, root))
    ensures AllAccounted(Next(k, SendCall(i, root)))
  {
    hide Inv, AllAccounted, Live, LiveOf, LinkOk;
    LinkKnown(k, i);
    var l := k.links[i];
    PlainSent(l, LiveOf(k.children[l.child]), Call(root));
    OverLink(k, k.server, i, l.Send([Call(root)]));
  }

  lemma VoteAccounted(k: Cluster, i: nat)
    requires Inv(k) && AllAccounted(k) && Enabled(k, VoteArrives(i))
    ensures AllAccounted(Next(k, VoteArrives(i)))
  {
    var was := k.links[i];
    var c := k.children[was.child];
    var l, vote := was.(up := was.up[1..]), was.up[0];
    assert LinkOk(k.server, i, was, c) && Accounted(k.server, i, was, c);
    hide Live, LiveOf;
    if !l.round.Asked? || l.round.id != vote.id {
      OverLink(k, k.server, i, l);
    } else if vote.ok {
      OverLink(k, k.server, i, l.(round := Agreed(l.round.id, l.round.version)));
    } else {
      UnvotedAccounted(k.server, i, was, c);
      OverLink(k, Failing(k.server, l), i, Unvoted(l));
    }
  }

  lemma ReconcileAccounted(s: Server, i: nat, l: Link, c: Child)
    requires Accounted(s, i, l, c) && l.serverOpen && l.round == Quiet && s.phase == Idle
    ensures var (t, m) := Reconciled(s, l); Accounted(t, i, m, c)
  {
    AnnouncementSent(s, l.(seen := Synced), LiveOf(c));
    AnnouncementSent(s, l, LiveOf(c));
    var a, f := l.Send(s.Announcement()), Prepare(s.rounds + 1, s.current);
    LiveAppend(LiveOf(c), a.down, f);
    assert l.down + (s.Announcement() + [f]) == a.down + [f];
    hide Live, LiveOf;
  }

  lemma ConcludeAccounted(s: Server, i: nat, l: Link, c: Child)
    requires Accounted(s, i, l, c) && l.round.Agreed?
    ensures Accounted(s, i, Concluded(s, l), c)
  {
    LiveAppend(LiveOf(c), l.down, Abort(l.round.id));
    LiveAppend(LiveOf(c), l.down, Commit(l.round.id));
    hide Live, LiveOf;
  }

  /** A step of the server over all its links. */
  lemma OverLinks(k: Cluster, t: Server, f: (nat, Link) -> Link)
    requires AllAccounted(k)
    requires forall i :: 0 <= i < |k.links| ==>
               f(i, k.links[i]).child == k.links[i].child && Accounted(t, i, f(i, k.links[i]), k.children[k.links[i].child])
    ensures AllAccounted(Cluster(t, Everywhere(k.links, f), k.children))
  {
    hide Accounted;
  }

  lemma RetireAccounted(k: Cluster)
    requires AllAccounted(k) && Enabled(k, ServerRetires)
    ensures AllAccounted(Next(k, ServerRetires))
  {
    var s := k.server;
    var f := Retires(s.previous.value);
    forall i | 0 <= i < |k.links|
      ensures f(i, k.links[i]).child == k.links[i].child
      ensures Accounted(s.(previous := None), i, f(i, k.links[i]), k.children[k.links[i].child])
    {
      assert Accounted(s, i, k.links[i], k.children[k.links[i].child]);
      PlainSent(k.links[i], LiveOf(k.children[k.links[i].child]), Retire(s.previous.value));
      hide Live, LiveOf;
    }
    OverLinks(k, s.(previous := None), f);
  }

  lemma AskAccounted(k: Cluster)
    requires Inv(k) && AllAccounted(k) && Enabled(k, Ask)
    ensures AllAccounted(Next(k, Ask))
  {
    var s, t := k.server, Next(k, Ask).server;
    var f := Asks(t.phase.participants, t.rounds, s.phase.version);
    forall i | 0 <= i < |k.links|
      ensures f(i, k.links[i]).child == k.links[i].child
      ensures Accounted(t, i, f(i, k.links[i]), k.children[k.links[i].child])
    {
      var l, c := k.links[i], k.children[k.links[i].child];
      assert LinkOk(s, i, l, c) && Accounted(s, i, l, c);
      AskedAccounted(s, t, i, l, c);
    }
    OverLinks(k, t, f);
  }

  lemma AskedAccounted(s: Server, t: Server, i: nat, l: Link, c: Child)
    requires LinkOk(s, i, l, c) && Accounted(s, i, l, c) && s.phase.Beginning? && t.phase.Voting?
    requires i in t.phase.participants ==> i in s.phase.synced
    ensures Accounted(t, i, Asks(t.phase.participants, t.rounds, s.phase.version)(i, l), c)
  {
    LiveAppend(LiveOf(c), l.down, Prepare(t.rounds, s.phase.version));
    hide Live, LiveOf;
  }

  lemma DecideAccounted(k: Cluster)
    requires Inv(k) && AllAccounted(k) && Enabled(k, Decide)
    ensures AllAccounted(Next(k, Decide))
  {
    hide Inv, AllAccounted;
    var p, t := k.server.phase, Next(k, Decide).server;
    if p.failed || p.local == Broken {
      AbortsAccounted(k, t);
    } else {
      CommitsAccounted(k, t);
    }
  }

  lemma AbortsAccounted(k: Cluster, t: Server)
    requires Inv(k) && AllAccounted(k) && k.server.phase.Voting? && t.phase == Ending
    ensures AllAccounted(Cluster(t, Everywhere(k.links, Aborts(k.server.phase.participants, k.server.phase.id)), k.children))
  {
    var f := Aborts(k.server.phase.participants, k.server.phase.id);
    forall i | 0 <= i < |k.links|
      ensures f(i, k.links[i]).child == k.links[i].child
      ensures Accounted(t, i, f(i, k.links[i]), k.children[k.links[i].child])
    {
      LinkKnown(k, i);
      hide Inv, AllAccounted, LinkOk, Accounted;
      AbortAccounted(k.server, t, i, k.links[i], k.children[k.links[i].child]);
    }
    OverLinks(k, t, f);
  }

  lemma CommitsAccounted(k: Cluster, t: Server)
    requires Inv(k) && AllAccounted(k) && k.server.phase.Voting? && t.phase == Ending
    ensures AllAccounted(Cluster(t, Everywhere(k.links, Commits(k.server.phase.participants, k.server.phase.id,
                                                                k.server.phase.version)), k.children))
  {
    var f := Commits(k.server.phase.participants, k.server.phase.id, k.server.phase.version);
    forall i | 0 <= i < |k.links|
      ensures f(i, k.links[i]).child == k.links[i].child
      ensures Accounted(t, i, f(i, k.links[i]), k.children[k.links[i].child])
    {
      LinkKnown(k, i);
      hide Inv, AllAccounted, LinkOk, Accounted;
      CommitAccounted(k.server, t, i, k.links[i], k.children[k.links[i].child]);
    }
    OverLinks(k, t, f);
  }

  /** Over an open link to a participant the server has nothing to settle but this reload. */
  lemma ParticipantOwes(s: Server, i: nat, l: Link, c: Child)
    requires LinkOk(s, i, l, c) && s.phase.Voting? && i in s.phase.participants && l.childOpen && l.serverOpen
    ensures l.seen == Synced && Outstanding(s, i, l) == {s.phase.id}
  {
  }

  /** The frame that settles what is outstanding leaves nothing. */
  lemma Settles(s: Server, t: Server, i: nat, l: Link, m: Link, c: Child, f: Control)
    requires f.Abort? || f.Commit?
    requires Accounted(s, i, l, c) && (l.childOpen && l.serverOpen ==> Outstanding(s, i, l) == {f.id})
    requires m.down == l.Send([f]).down && m.childOpen == l.childOpen && m.serverOpen == l.serverOpen
    ensures Accounted(t, i, m, c)
  {
    LiveAppend(LiveOf(c), l.down, f);
    hide Live, LiveOf;
  }

  lemma AbortAccounted(s: Server, t: Server, i: nat, l: Link, c: Child)
    requires LinkOk(s, i, l, c) && Accounted(s, i, l, c) && s.phase.Voting? && t.phase == Ending
    ensures Accounted(t, i, Aborts(s.phase.participants, s.phase.id)(i, l), c)
  {
    hide LinkOk, Live, LiveOf;
    if i in s.phase.participants {
      if l.childOpen && l.serverOpen {
        ParticipantOwes(s, i, l, c);
      }
      Settles(s, t, i, l, Aborts(s.phase.participants, s.phase.id)(i, l), c, Abort(s.phase.id));
    }
  }

  lemma CommitAccounted(s: Server, t: Server, i: nat, l: Link, c: Child)
    requires LinkOk(s, i, l, c) && Accounted(s, i, l, c) && s.phase.Voting? && t.phase == Ending
    ensures Accounted(t, i, Commits(s.phase.participants, s.phase.id, s.phase.version)(i, l), c)
  {
    hide LinkOk, Live, LiveOf;
    if i in s.phase.participants {
      if l.childOpen && l.serverOpen {
        ParticipantOwes(s, i, l, c);
      }
      Settles(s, t, i, l, Commits(s.phase.participants, s.phase.id, s.phase.version)(i, l), c, Commit(s.phase.id));
    }
  }

  lemma PhaseAccounted(k: Cluster, step: Step)
    requires AllAccounted(k) && Enabled(k, step) && (step.Begin? || step.BeginFails? || step.LocalDone? || step.EndReload?)
    ensures AllAccounted(Next(k, step))
  {
    hide Live, LiveOf;
    var t := Next(k, step).server;
    assert Next(k, step) == k.(server := t);
    forall i | 0 <= i < |k.links|
      ensures Accounted(t, i, k.links[i], k.children[k.links[i].child])
    {
      assert Accounted(k.server, i, k.links[i], k.children[k.links[i].child]);
    }
  }

  /** A child goes on alone: it works on nothing new. */
  lemma ChildAlone(k: Cluster, c: nat, child: Child, replies: seq<Reply>)
    requires AllAccounted(k) && c < |k.children| && LiveOf(child) <= LiveOf(k.children[c])
    ensures AllAccounted(Reported(k, c, child, replies)) && AllAccounted(SetChild(k, c, child))
  {
    forall i | 0 <= i < |k.links|
      ensures Live(LiveOf(child), k.links[i].down) <= Live(LiveOf(k.children[c]), k.links[i].down)
    {
      LiveLess(LiveOf(child), LiveOf(k.children[c]), k.links[i].down);
    }
    hide Live, LiveOf;
    var a, b := Reported(k, c, child, replies), SetChild(k, c, child);
    forall i | 0 <= i < |k.links|
      ensures k.links[i].child < |k.children| && Accounted(k.server, i, a.links[i], a.children[a.links[i].child])
      ensures Accounted(k.server, i, b.links[i], b.children[b.links[i].child])
    {
      assert Accounted(k.server, i, k.links[i], k.children[k.links[i].child]);
    }
  }

  lemma ReceiveAccounted(k: Cluster, i: nat)
    requires Inv(k) && AllAccounted(k) && Enabled(k, ChildReceives(i))
    ensures AllAccounted(Next(k, ChildReceives(i)))
  {
    var l := k.links[i];
    var c := k.children[l.child];
    assert LinkOk(k.server, i, l, c);
    LiveTaken(c, l.down);
    LiveLess(LiveOf(c.Receive(l.down[0])), Told(LiveOf(c), l.down[0]), l.down[1..]);
    assert Live(LiveOf(c), l.down) == Live(Told(LiveOf(c), l.down[0]), l.down[1..]);
    hide LiveOf, Live, LinkOk, Told;
    var k' := Next(k, ChildReceives(i));
    forall j | 0 <= j < |k'.links|
      ensures k'.links[j].child < |k'.children| && Accounted(k'.server, j, k'.links[j], k'.children[k'.links[j].child])
    {
      assert Accounted(k.server, j, k.links[j], k.children[k.links[j].child]);
      assert j != i && k.links[j].childOpen ==> k.links[j].child != l.child;
    }
  }

  lemma ConnectAccounted(k: Cluster, c: nat)
    requires Inv(k) && AllAccounted(k) && Enabled(k, Connect(c))
    ensures AllAccounted(Next(k, Connect(c)))
  {
    var k' := Next(k, Connect(c));
    assert ChildOk(k.server, k.children[c]);
    assert LiveOf(k.children[c]) == {};
    forall i | 0 <= i < |k.links|
      ensures k'.links[i].child < |k'.children| && Accounted(k'.server, i, k'.links[i], k'.children[k'.links[i].child])
    {
      assert Accounted(k.server, i, k.links[i], k.children[k.links[i].child]);
    }
  }

  lemma CloseAccounted(k: Cluster, i: nat)
    requires AllAccounted(k) && Enabled(k, ChildCloses(i))
    ensures AllAccounted(Next(k, ChildCloses(i)))
  {
    var c := k.links[i].child;
    var child := k.children[c].Cancelled().(upstream := None);
    ChildAlone(k, c, child, []);
    hide Live, LiveOf;
    var b, k' := SetChild(k, c, child), Next(k, ChildCloses(i));
    forall j | 0 <= j < |k'.links|
      ensures k'.links[j].child < |k'.children| && Accounted(k'.server, j, k'.links[j], k'.children[k'.links[j].child])
    {
      assert Accounted(b.server, j, b.links[j], b.children[b.links[j].child]);
    }
  }

  lemma NextAccounted(k: Cluster, step: Step)
    requires Inv(k) && AllAccounted(k) && Enabled(k, step)
    ensures AllAccounted(Next(k, step))
  {
    hide Inv, AllAccounted;
    match step
    case Spawn => SpawnAccounted(k);
    case Connect(c) => ConnectAccounted(k, c);
    case ChildCloses(i) => CloseAccounted(k, i);
    case Begin => PhaseAccounted(k, step);
    case BeginFails => PhaseAccounted(k, step);
    case LocalDone(_, _) => PhaseAccounted(k, step);
    case EndReload => PhaseAccounted(k, step);
    case ServerRetires => RetireAccounted(k);
    case Ask => AskAccounted(k);
    case Decide => DecideAccounted(k);
    case ChildReceives(i) => ReceiveAccounted(k, i);
    case ChildLoads(c) => ChildAlone(k, c, Next(k, step).children[c], []);
    case ChildRetires(c) => ChildAlone(k, c, Next(k, step).children[c], []);
    case ChildForced(c) => ChildAlone(k, c, Next(k, step).children[c], []);
    case ChildPrepares(c) =>
      var op := k.children[c].operation.value;
      ChildAlone(k, c, k.children[c].(operation := Some(op.(progress := Prepared))), [Vote(op.id, true)]);
    case ChildFails(c) =>
      var op := k.children[c].operation.value;
      ChildAlone(k, c, k.children[c].(operation := None, busy := false), if op.cancelled then [] else [Vote(op.id, false)]);
    case ChildUnwinds(c) => ChildAlone(k, c, Next(k, step).children[c], []);
    case _ => LinkStep(k, step);
  }

  lemma SpawnAccounted(k: Cluster)
    requires AllAccounted(k)
    ensures AllAccounted(Next(k, Spawn))
  {
    var k' := Next(k, Spawn);
    hide Accounted;
    forall i | 0 <= i < |k'.links|
      ensures k'.links[i].child < |k'.children| && Accounted(k'.server, i, k'.links[i], k'.children[k'.links[i].child])
    {
      assert Accounted(k.server, i, k.links[i], k.children[k.links[i].child]);
    }
  }

  lemma {:induction false} RunAccounted(run: seq<Cluster>, n: nat)
    requires IsRun(run) && n < |run|
    ensures Inv(run[n]) && AllAccounted(run[n])
  {
    hide Inv, Leads, AllAccounted, Init;
    RunInv(run, n);
    if n != 0 {
      RunAccounted(run, n - 1);
      assert Stepped(run, n - 1);
      LeadsAccounted(run[n - 1], run[n]);
    } else {
      InitAccounted(run[0]);
    }
  }

  lemma InitAccounted(k: Cluster)
    requires Init(k)
    ensures AllAccounted(k)
  {
  }

  lemma LeadsAccounted(k: Cluster, k': Cluster)
    requires Inv(k) && AllAccounted(k) && Leads(k, k')
    ensures AllAccounted(k')
  {
    hide Inv, Enabled, Next, AllAccounted;
    var step :| Enabled(k, step) && k' == Next(k, step);
    NextAccounted(k, step);
  }

  // What is decided

  /** The reload of the server cannot be committed any more: a vote failed, or the server's own part did. */
  predicate Vetoed(s: Server) {
    s.phase.Voting? && (s.phase.failed || s.phase.local == Broken)
  }

  /**
   The decision. With nothing failed the server runs the proposed version, keeping its old one as the previous, and every
   participant whose link is open at both ends runs that version once it took what is on the link. Otherwise the server
   and every such participant stay with the version they had. Either way nothing of the reload is left there.
   */
  lemma Decides(run: seq<Cluster>, n: nat)
    requires IsRun(run) && n + 1 < |run| && Enabled(run[n], Decide) && run[n + 1] == Next(run[n], Decide)
    ensures var s, t := run[n].server, run[n + 1].server;
            if Vetoed(s) then t.current == s.current && t.previous == s.previous && t.installed == s.installed
            else t.current == s.phase.version > s.current && t.previous == Some(s.current)
    ensures forall i :: i in run[n].server.phase.participants && Reached(run[n], i) ==> SettledAt(run[n + 1], i)
  {
    RunAccounted(run, n);
    RunAccounted(run, n + 1);
    hide AllAccounted, LinksOk, ChildrenOk;
    var k, k' := run[n], run[n + 1];
    forall i | i in k.server.phase.participants && Reached(k, i)
      ensures SettledAt(k', i)
    {
      LinkKnown(k, i);
      LinkKnown(k', i);
      ParticipantOwes(k.server, i, k.links[i], k.children[k.links[i].child]);
      hide LinkOk, Accounted, ServerOk;
      SyncedSettles(k', i);
    }
  }

  /** The link is open at both ends. */
  predicate Reached(k: Cluster, i: nat) {
    i < |k.links| && k.links[i].childOpen && k.links[i].serverOpen
  }

  /** The child at the end of the link runs the server's version once it took what is on the link, with nothing left to do. */
  predicate SettledAt(k: Cluster, i: nat) {
    i < |k.links| && k.links[i].child < |k.children| &&
    var c := ReceiveAll(k.children[k.links[i].child], k.links[i].down);
    c.current == k.server.current && (c.operation.Some? ==> c.operation.value.cancelled)
  }

  lemma SyncedSettles(k: Cluster, i: nat)
    requires Inv(k) && AllAccounted(k) && i < |k.links|
    requires var l := k.links[i]; l.childOpen && l.serverOpen && l.seen == Synced && l.round == Quiet && !k.server.phase.Voting?
    ensures SettledAt(k, i)
  {
    LinkKnown(k, i);
    var l := k.links[i];
    var c := k.children[l.child];
    hide Inv, AllAccounted;
    Reaches(c, l.down);
    LiveReceived(c, l.down);
  }

  /** What makes a reload fail: the server's own part, a vote against it, or one that will not come. */
  predicate Vetoes(k: Cluster, step: Step)
    requires Enabled(k, step)
  {
    match step
    case LocalDone(ok, _) => !ok
    case VoteArrives(i) =>
      var l := k.links[i];
      l.seen == Synced && l.round.Asked? && l.round.id == l.up[0].id && !l.up[0].ok
    case VoteMissing(i) => k.links[i].seen == Synced
    case ServerCloses(i) => k.links[i].seen == Synced && k.links[i].round.Asked?
    case _ => false
  }

  /** A veto holds until the decision, whatever else happens; and without one nothing is vetoed. */
  lemma VetoHolds(k: Cluster, step: Step)
    requires Enabled(k, step) && k.server.phase.Voting? && step != Decide
    ensures var s, t := k.server, Next(k, step).server;
            && t.phase.Voting? && t.phase.version == s.phase.version && t.phase.id == s.phase.id
            && t.phase.participants == s.phase.participants && t.current == s.current
            && (Vetoed(t) <==> Vetoed(s) || Vetoes(k, step))
  {
    hide Reconciled, Concluded, PeerHello, Decided, Child.Receive, Child.Answer, Child.Cancelled, Server.Announcement;
  }

  /** The vote of a child that came back behind (cluster.ts:149-157): it comes to the version it was asked for, if that still is the server's. */
  lemma Catches(run: seq<Cluster>, n: nat, i: nat)
    requires IsRun(run) && n + 1 < |run| && Enabled(run[n], Conclude(i)) && run[n + 1] == Next(run[n], Conclude(i))
    requires Reached(run[n], i)
    ensures var k, k' := run[n], run[n + 1];
            var l := k.links[i];
            && k'.server == k.server && l.child < |k'.children|
            && var c := ReceiveAll(k'.children[l.child], k'.links[i].down);
               && (c.operation.Some? ==> c.operation.value.cancelled)
               && c.current == (if l.round.version == k.server.current then k.server.current else l.peer)
               && k'.links[i].peer == c.current
  {
    RunAccounted(run, n);
    RunAccounted(run, n + 1);
    hide AllAccounted, LinksOk, ChildrenOk;
    LinkKnown(run[n], i);
    LinkKnown(run[n + 1], i);
    var l := run[n + 1].links[i];
    Reaches(run[n + 1].children[l.child], l.down);
    LiveReceived(run[n + 1].children[l.child], l.down);
  }

  /** A child that is told what the server retired may drop it, once it took what is on its link. */
  lemma ToldReaches(s: Server, c: Child, l: Link)
    requires l.serverOpen
    ensures var m := l.Send(s.Announcement());
            m.serverOpen && ReceiveAll(c, m.down).allowed + 1 >= s.Oldest()
  {
    var m := l.Send(s.Announcement());
    if s.Oldest() > 1 {
      assert m.down[|l.down|] == Retire(s.Oldest() - 1);
    }
    AllowedGrows(c, m.down);
  }

  /**
   A child the server knows to run its version is synced as soon as no reload runs, and may then drop whatever the server
   did.
   */
  lemma Syncs(k: Cluster, step: Step, c: Child)
    requires Enabled(k, step) && (step.Reconcile? || step.HelloAgain?) && k.links[step.link].peer == k.server.current
    ensures var l := Next(k, step).links[step.link];
            l.seen == Synced && l.serverOpen && ReceiveAll(c, l.down).allowed + 1 >= k.server.Oldest()
  {
    ToldReaches(k.server, c, k.links[step.link]);
  }

  lemma HelloSyncs(k: Cluster, i: nat, c: Child)
    requires Enabled(k, HelloArrives(i)) && k.server.phase == Idle
    ensures var version, l := k.links[i].up[0].version, Next(k, HelloArrives(i)).links[i];
            && (version == k.server.current ==>
                  l.seen == Synced && l.serverOpen && ReceiveAll(c, l.down).allowed + 1 >= k.server.Oldest())
            && (version < k.server.current ==> l.seen == Reconciling && l.serverOpen && l.peer == version)
            && (version > k.server.current ==> !l.serverOpen)
  {
    ToldReaches(k.server, c, k.links[i]);
  }

  // What becomes of a child

  /** The child `c` takes the commit of what it prepared. */
  predicate TakesCommit(k: Cluster, step: Step, c: nat)
    requires Enabled(k, step) && c < |k.children|
  {
    step.ChildReceives? && k.links[step.link].child == c
    && var op, f := k.children[c].operation, k.links[step.link].down[0];
       f.Commit? && op.Some? && op.value.id == f.id && op.value.progress == Prepared
  }

  /** The child `c` takes a proposal with its reload slot free. */
  predicate TakesOn(k: Cluster, step: Step, c: nat)
    requires Enabled(k, step) && c < |k.children|
  {
    step.ChildReceives? && k.links[step.link].child == c && k.links[step.link].down[0].Prepare?
    && !k.children[c].busy && k.children[c].operation == None
  }

  /**
   A child changes its version only by the commit of what it prepared, keeping the old one until it drops that; its reload
   slot is taken by a proposal, and free again after the commit, a failure, or once what was aborted is undone.
   */
  lemma ChildChanges(k: Cluster, step: Step, c: nat)
    requires Enabled(k, step) && c < |k.children|
    ensures c < |Next(k, step).children|
    ensures var a, b, commits := k.children[c], Next(k, step).children[c], TakesCommit(k, step, c);
            && b.current == (if commits then a.operation.value.version else a.current)
            && b.previous == (if commits then Some(a.current)
                              else if step == ChildRetires(c) || step == ChildForced(c) then None else a.previous)
            && b.busy == (if TakesOn(k, step, c) then true
                          else if commits || step == ChildFails(c) || step == ChildUnwinds(c) then false else a.busy)
  {
  }

  /** Whatever it cannot take on or fails at, the child says no, and the server hears of it. */
  lemma SaysNo(k: Cluster, step: Step, c: nat)
    requires Enabled(k, step) && c < |k.children| && k.children[c].upstream.Some? && k.children[c].upstream.value < |k.links|
    requires if step.ChildReceives? then
               step.link == k.children[c].upstream.value && k.links[step.link].child == c && k.links[step.link].down[0].Prepare?
               && (k.children[c].busy || k.children[c].operation.Some?)
             else step == ChildFails(c) && !k.children[c].operation.value.cancelled
    ensures var i := k.children[c].upstream.value;
            var id := if step.ChildReceives? then k.links[i].down[0].id else k.children[c].operation.value.id;
            Next(k, step).links[i].up == k.links[i].up + [Vote(id, false)]
  {
  }

  /** The server may begin again once it ended a reload, however that one went. */
  lemma BeginsAgain(k: Cluster)
    requires Enabled(k, EndReload)
    ensures Enabled(Next(k, EndReload), Begin) && Next(k, EndReload) == k.(server := k.server.(phase := Idle))
  {
  }

  lemma {:induction false} AllowedGrows(c: Child, d: seq<Control>)
    ensures ReceiveAll(c, d).allowed >= c.allowed
    ensures forall upTo :: Retire(upTo) in d ==> ReceiveAll(c, d).allowed >= upTo
    decreases |d|
  {
    if d != [] {
      AllowedGrows(c.Receive(d[0]), d[1..]);
      assert forall f :: f in d ==> f == d[0] || f in d[1..];
    }
  }

  /** When the server drops a version every child it reaches may drop it too, once it took what is on the link. */
  lemma RetireReaches(k: Cluster, i: nat)
    requires Enabled(k, ServerRetires) && Reached(k, i) && k.links[i].child < |k.children|
    ensures var k' := Next(k, ServerRetires);
            k'.server.previous == None && ReceiveAll(k.children[k.links[i].child], k'.links[i].down).allowed >= k.server.previous.value
  {
    var k' := Next(k, ServerRetires);
    var v := k.server.previous.value;
    assert k'.links[i].down == k.links[i].down + [Retire(v)];
    assert Retire(v) in k'.links[i].down;
    AllowedGrows(k.children[k.links[i].child], k'.links[i].down);
  }

  // A reload that commits

  lemma Extends(run: seq<Cluster>, step: Step) returns (more: seq<Cluster>)
    requires IsRun(run) && Enabled(run[|run| - 1], step)
    ensures IsRun(more) && |more| == |run| + 1 && more[..|run|] == run && more[|run|] == Next(run[|run| - 1], step)
  {
    hide Enabled, Next, Init;
    more := run + [Next(run[|run| - 1], step)];
    assert Leads(run[|run| - 1], more[|run|]);
    forall n | 0 <= n < |more| - 1
      ensures Stepped(more, n)
    {
      if n < |run| - 1 {
        assert Stepped(run, n);
      }
    }
  }

  const START: Server := Server(1, None, 1, {1}, 0, Phase.Idle)

  const FIRST: Child := Newborn.(upstream := Some(0))

  /** The link of a child that runs the server's version 1. */
  const LINKED: Link := Link(0, true, true, [], [], Synced, 1, Quiet, {1})

  /** A child connects, and says which version it runs. */
  lemma Joins() returns (run: seq<Cluster>)
    ensures IsRun(run) && |run| == 4 && run[3] == Cluster(START, [LINKED], [FIRST])
  {
    run := [Cluster(START, [], [])];
    run := Extends(run, Spawn);
    assert run[1] == Cluster(START, [], [Newborn]);
    run := Extends(run, Connect(0));
    assert Newborn.Retained() == {1};
    assert run[2].links[0] == LINKED.(up := [Hello(1)], seen := Unseen, peer := 0) && run[2].children[0] == FIRST;
    assert run[2] == Cluster(START, [LINKED.(up := [Hello(1)], seen := Unseen, peer := 0)], [FIRST]);
    run := Extends(run, HelloArrives(0));
    assert run[3].links[0] == LINKED;
  }

  const ASKING: Server := START.(rounds := 1, phase := Voting(2, 1, {0}, false, Running))

  const WORKING: Child := FIRST.(operation := Some(Operation(1, 2, Loading, false)), busy := true)

  /** The server proposes version 2, and both prepare it. */
  lemma Proposes(before: seq<Cluster>) returns (run: seq<Cluster>)
    requires IsRun(before) && |before| == 4 && before[3] == Cluster(START, [LINKED], [FIRST])
    ensures IsRun(run) && |run| == 8
    ensures run[7] == Cluster(ASKING.(seqNo := 2, phase := ASKING.phase.(local := Ready)),
                              [LINKED.(round := Asked(1, 2))], [WORKING])
  {
    run := Extends(before, Begin);
    assert run[4].server.phase.synced == {0};
    assert run[4] == Cluster(START.(phase := Beginning(2, {0})), [LINKED], [FIRST]);
    run := Extends(run, Ask);
    assert run[5].server.phase.participants == {0};
    assert run[5].links[0] == LINKED.(down := [Prepare(1, 2)], round := Asked(1, 2));
    assert run[5] == Cluster(ASKING, [LINKED.(down := [Prepare(1, 2)], round := Asked(1, 2))], [FIRST]);
    run := Extends(run, LocalDone(true, true));
    run := Extends(run, ChildReceives(0));
    assert run[7].links[0] == LINKED.(round := Asked(1, 2));
    assert run[7].children[0] == WORKING;
  }

  /** The child votes for it. */
  lemma VotesFor(before: seq<Cluster>) returns (run: seq<Cluster>)
    requires IsRun(before) && |before| == 8
    requires before[7] == Cluster(ASKING.(seqNo := 2, phase := ASKING.phase.(local := Ready)),
                                  [LINKED.(round := Asked(1, 2))], [WORKING])
    ensures IsRun(run) && |run| == 11
    ensures run[10] == Cluster(ASKING.(seqNo := 2, phase := ASKING.phase.(local := Ready)), [LINKED.(round := Agreed(1, 2))],
                               [WORKING.(operation := Some(Operation(1, 2, Prepared, false)))])
  {
    run := Extends(before, ChildLoads(0));
    assert run[8].children[0] == WORKING.(operation := Some(Operation(1, 2, Preparing, false)));
    run := Extends(run, ChildPrepares(0));
    assert run[9].links[0] == LINKED.(round := Asked(1, 2), up := [Vote(1, true)]);
    run := Extends(run, VoteArrives(0));
    assert run[10].links[0] == LINKED.(round := Agreed(1, 2));
  }

  /** A whole reload: the server commits, and the child follows it from version 1 to version 2. */
  lemma CommitHappens() returns (run: seq<Cluster>)
    ensures IsRun(run) && |run| == 13
    ensures |run[11].children| == |run[12].children| == 1
    ensures run[10].server.current == run[11].children[0].current == 1 && run[11].server.current == run[12].children[0].current == 2
  {
    run := Joins();
    run := Proposes(run);
    run := VotesFor(run);
    run := Extends(run, Decide);
    assert run[11].links[0].down == [Commit(1)];
    run := Extends(run, ChildReceives(0));
  }
}
