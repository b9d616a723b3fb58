/**
 A provider and a binding over one ordered link: every run, with any interleaving of writes, deliveries, shape changes,
 acknowledgements and flushes (packages/chord/src/connection.ts:460-619, 940-1080; remote.ts:245-383).
 */
module DirectLink {
  import opened Streams
  import opened FlowControl
  import opened Providing
  import opened Bindings
  import opened Replication

  /** What the peer sends back: its hello, then cumulative acknowledgements. */
  datatype Back = Hello(acks: bool) | Ack(n: nat)

  /** `received` counts the frames the peer has processed; `hold` is the hold `b` is bound to. */
  datatype Link = Link(p: Provider, hold: nat, b: Binding, received: nat, back: seq<Back>)

  datatype Action = Provide(step: Step) | Receive | Acknowledge | BackArrives

  ghost predicate Can(s: Link, a: Action) {
    match a
    case Provide(step) => step.Acknowledged? == false && !step.PeerHello? && Enabled(s.p, step)
                          && step != DropHold(s.hold)
    case Receive => s.p.conn.out != []
    case Acknowledge => s.received > 0 && Hello(false) !in s.back && s.p.conn.peerAcks != Some(false)
    case BackArrives => s.back != []
  }

  /** The provider closes the link when an acknowledgement is out of range; `Open` proves it never is. */
  ghost predicate Open(s: Link) {
    s.back != [] && s.back[0].Ack? ==> s.p.conn.AckInRange(s.back[0].n)
  }

  ghost function Act(s: Link, a: Action): (t: Link)
    requires s.p.Valid() && Can(s, a) && Open(s)
  {
    match a
    case Provide(step) => s.(p := Next(s.p, step))
    case Receive =>
      var out := s.p.conn.out;
      s.(p := s.p.(conn := s.p.conn.(out := out[1..])), b := s.b.Receive(s.hold, out[0]), received := s.received + 1)
    case Acknowledge => s.(back := s.back + [Ack(s.received)])
    case BackArrives =>
      var step := if s.back[0].Hello? then PeerHello(s.back[0].acks) else Acknowledged(s.back[0].n);
      s.(p := Next(s.p, step), back := s.back[1..])
  }

  /** A fresh connection, and a binding that is new or lost its previous link (`again`: it keeps its values). */
  ghost predicate Init(s: Link) {
    var c := s.p.conn;
    && c.order == [] && c.slots == map[] && c.units == {} && c.pendingBytes == 0 && c.awaiting == {}
    && c.out == [] && c.sent == c.acked == c.unackedBytes == 0 && c.unacked == [] && c.peerAcks == None
    && s.p.feeds == map[] && s.p.shapes == map[] && s.p.unitSent == {}
    && s.hold in s.p.contracts && s.p.contracts[s.hold] == s.b.contract
    && s.b.Settled() && s.b.pending.None? && !s.b.live
    && s.received == 0 && (exists acks :: s.back == [Hello(acks)])
  }

  // ------------------------------------------------------------------------------------------- acknowledgements

  /** Every acknowledgement on its way back is between what was acknowledged and what the peer received. */
  ghost predicate AcksInOrder(back: seq<Back>, low: nat, high: nat)
    decreases |back|
  {
    back == [] || (back[0].Ack? && low <= back[0].n <= high && AcksInOrder(back[1..], back[0].n, high))
  }

  ghost predicate Counting(s: Link) {
    var c := s.p.conn;
    match c.peerAcks
    case None => c.acked == 0 && c.sent == s.received + |c.out| && s.back != [] && s.back[0].Hello?
                 && if s.back[0].acks then AcksInOrder(s.back[1..], 0, s.received) else s.back == [Hello(false)]
    case Some(true) => c.sent == s.received + |c.out| && c.acked <= s.received && AcksInOrder(s.back, c.acked, s.received)
    case Some(false) => s.back == []
  }

  lemma {:induction false} AcksAppend(back: seq<Back>, low: nat, high: nat)
    requires AcksInOrder(back, low, high) && low <= high
    ensures AcksInOrder(back + [Ack(high)], low, high)
    decreases |back|
  {
    if back != [] {
      assert (back + [Ack(high)])[1..] == back[1..] + [Ack(high)];
      AcksAppend(back[1..], back[0].n, high);
    }
  }

  lemma {:induction false} AcksGrow(back: seq<Back>, low: nat, high: nat)
    requires AcksInOrder(back, low, high)
    ensures AcksInOrder(back, low, high + 1)
    decreases |back|
  {
    if back != [] {
      AcksGrow(back[1..], back[0].n, high);
    }
  }

  /** acked <= received <= sent in every step, so the range check of `#onAck` never fires. */
  lemma CountingKept(s: Link, a: Action)
    requires s.p.Valid() && Can(s, a) && Counting(s)
    requires a.Provide? ==> Sends(s.p.conn, Next(s.p, a.step).conn)
    ensures Open(s) && Counting(Act(s, a))
  {
    hide Provider.Valid;
    match a
    case Provide(step) =>
    case Receive =>
      AcksGrowAll(s);
    case Acknowledge =>
      if s.p.conn.peerAcks == None {
        AcksAppend(s.back[1..], 0, s.received);
        assert (s.back + [Ack(s.received)])[1..] == s.back[1..] + [Ack(s.received)];
      } else {
        AcksAppend(s.back, s.p.conn.acked, s.received);
      }
    case BackArrives =>
  }

  lemma AcksGrowAll(s: Link)
    requires Counting(s)
    ensures s.p.conn.peerAcks == Some(true) ==> AcksInOrder(s.back, s.p.conn.acked, s.received + 1)
    ensures s.p.conn.peerAcks == None && s.back[0].acks ==> AcksInOrder(s.back[1..], 0, s.received + 1)
  {
    if s.p.conn.peerAcks == Some(true) {
      AcksGrow(s.back, s.p.conn.acked, s.received);
    } else if s.p.conn.peerAcks == None && s.back[0].acks {
      AcksGrow(s.back[1..], 0, s.received);
    }
  }

  lemma StepSends(p: Provider, step: Step)
    requires p.Valid() && Enabled(p, step) && !step.Acknowledged? && !step.PeerHello?
    ensures Sends(p.conn, Next(p, step).conn)
  {
    hide Conn.Counted, Provider.ShapesOk, Provider.FeedsOk, Provider.ReShape, Provider.FlushOne, Conn.SendState;
    match step
    case Write(k, event) =>
    case Deliver(k) =>
      NextFrameTarget(p, k);
      SendStateSends(p.conn, NextFrame(p, k), false);
    case ReShape(h, shape) => ReShapeSends(p, h, shape);
    case FlushOne => FlushSends(p);
    case Resync(k) =>
    case DropHold(h) => DropGone(p.conn, set k | k in p.feeds && k.hold == h);
    case SendOther =>
  }

  lemma ReShapeSends(p: Provider, h: nat, shape: Shaped)
    requires p.Valid() && Enabled(p, ReShape(h, shape))
    ensures Sends(p.conn, Next(p, ReShape(h, shape)).conn)
  {
    hide Conn.Counted, Provider.ShapesOk, Provider.FeedsOk, Provider.SendUnit;
    var q := p.Pruned(h, shape);
    DropGone(p.conn, p.(shapes := p.shapes[h := shape]).Gone(h));
    PrunedShapes(p, h, shape);
    if q.Urgent(h) {
      UnitSends(q, h);
    }
  }

  lemma FlushSends(p: Provider)
    requires p.Valid() && Enabled(p, FlushOne)
    ensures Sends(p.conn, Next(p, FlushOne).conn)
  {
    FlushReady(p);
    hide Provider.Valid, Provider.SendUnit, SlotFrames, Conn.SendAll;
    match p.conn.order[0]
    case UnitSlot(h) => UnitSends(p, h);
    case StateSlot(k) => SendAllSends(p.conn.Remove(k), SlotFrames(k, p.conn.slots[k]));
  }

  lemma UnitSends(p: Provider, h: nat)
    requires p.Readable(h)
    ensures Sends(p.conn, p.SendUnit(h).conn)
  {
    if h in p.shapes {
      var q := p.(conn := p.conn.ForgetUnit(h));
      AttachAllShape(q, h, q.Listed(h));
      SendAllSends(q.conn, q.UnitFrames(h));
    }
  }

  // --------------------------------------------------------------------------------------------------- hydration

  /** What the binding will be once it consumed everything on the link. */
  function Ahead(s: Link): (b: Binding) {
    s.b.Consume(s.hold, s.p.conn.out)
  }

  /** Each fed member of the hold is in the applied shape, and `a` knows it as the provider thinks. */
  ghost predicate Knows(p: Provider, hold: nat, a: Binding) {
    && a.Settled() && a.pending.None? && hold in p.contracts && a.contract == p.contracts[hold]
    && (hold in p.unitSent ==> a.ViewLive() && a.shape.Some?)
    && (forall k :: k in p.feeds && k.hold == hold ==>
          a.shape.Some? && k.member in a.Wanted(a.shape.value) && k.member in a.members)
    && (forall m :: p.Serves(Key(hold, m), a.Lookup(m)))
  }

  ghost predicate Inv(s: Link) {
    && s.p.Valid() && Counting(s)
    && s.b.SettledAlong(s.hold, s.p.conn.out) && Knows(s.p, s.hold, Ahead(s))
  }

  lemma InitInv(s: Link)
    requires Init(s)
    ensures Inv(s)
  {
    var acks :| s.back == [Hello(acks)];
    assert s.p.ConnOk() by {
      assert Waiting(s.p.conn.order, s.p.conn.slots) == 0;
    }
  }

  /** A frame of a stream the provider feeds, or one that is not about the hold. */
  ghost predicate OfStream(p: Provider, hold: nat, f: Frame) {
    match f
    case Shape(h, _, _, _) => h != hold
    case Base(k, _) => k.hold == hold ==> k in p.feeds
    case Ops(k, _, _) => k.hold == hold ==> k in p.feeds
    case Other => true
  }

  /** Stream frames move each member as they move its replica, and leave the applied shape alone. */
  lemma {:induction false} StreamFrames(p: Provider, hold: nat, a: Binding, fs: seq<Frame>)
    requires a.Settled() && a.pending.None? && (forall m :: !a.Lookup(m).Corrupt?)
    requires forall k :: k in p.feeds && k.hold == hold ==>
      a.shape.Some? && k.member in a.Wanted(a.shape.value) && k.member in a.members
    requires forall i :: 0 <= i < |fs| ==> OfStream(p, hold, fs[i])
    requires forall m :: m in a.members ==> !TakeAll(a.Lookup(m), Key(hold, m), fs).Corrupt?
    ensures a.SettledAlong(hold, fs)
    ensures var c := a.Consume(hold, fs);
            c == a.(members := c.members) && c.members.Keys == a.members.Keys
            && forall m :: c.Lookup(m) == TakeAll(a.Lookup(m), Key(hold, m), fs)
    decreases |fs|
  {
    if fs != [] {
      var c := a.Receive(hold, fs[0]);
      assert OfStream(p, hold, fs[0]);
      forall m
        ensures TakeAll(a.Lookup(m), Key(hold, m), fs) == TakeAll(Take(a.Lookup(m), Key(hold, m), fs[0]), Key(hold, m), fs[1..])
        ensures m in a.members ==> !Take(a.Lookup(m), Key(hold, m), fs[0]).Corrupt?
      {
        TakeAllFirst(a.Lookup(m), Key(hold, m), fs);
        CorruptStays(Key(hold, m), fs[1..]);
      }
      StreamFrame(p, hold, a, fs[0]);
      hide Binding.Receive, Take, TakeAll, OfStream;
      StreamFrames(p, hold, c, fs[1..]);
    }
  }

  lemma StreamFrame(p: Provider, hold: nat, a: Binding, f: Frame)
    requires a.Settled() && a.pending.None? && (forall m :: !a.Lookup(m).Corrupt?)
    requires forall k :: k in p.feeds && k.hold == hold ==>
      a.shape.Some? && k.member in a.Wanted(a.shape.value) && k.member in a.members
    requires OfStream(p, hold, f) && forall m :: m in a.members ==> !Take(a.Lookup(m), Key(hold, m), f).Corrupt?
    ensures var c := a.Receive(hold, f);
            c == a.(members := c.members) && c.members.Keys == a.members.Keys && c.Settled()
            && forall m :: c.Lookup(m) == Take(a.Lookup(m), Key(hold, m), f)
  {
  }

  /** What a unit's snapshots hold. */
  function UnitValues(p: Provider, hold: nat): (r: map<string, Replica>)
    requires hold in p.shapes && p.Readable(hold)
  {
    AttachAllShape(p, hold, p.Listed(hold));
    Snapshots(map[], p.Listed(hold), p.AttachAll(hold, p.Listed(hold)).1)
  }

  /** The binding is ready for a unit of `hold`: it has every member the provider already feeds. */
  ghost predicate Ready(p: Provider, hold: nat, a: Binding) {
    && hold in p.shapes && p.Readable(hold) && Distinct(p.shapes[hold].members)
    && a.Settled() && a.pending.None? && (forall m :: !a.Lookup(m).Corrupt?)
    && hold in p.contracts && a.contract == p.contracts[hold]
    && (forall k :: k in p.feeds && k.hold == hold ==> k.member in a.members)
  }

  /** The binding with the shape of a unit waiting for its snapshots. */
  function Begun(p: Provider, hold: nat, a: Binding): (b: Binding)
    requires hold in p.shapes
  {
    a.(pending := Some(Incoming(p.shapes[hold], set m | m in p.Listed(hold), map[])))
  }

  lemma UnitBegins(p: Provider, hold: nat, a: Binding)
    requires Ready(p, hold, a)
    ensures var b := Begun(p, hold, a);
            && a.Receive(hold, p.UnitFrames(hold)[0]) == (if p.Listed(hold) == [] then b.Apply() else b)
            && Covered(b, p.shapes[hold], b.pending.value.missing)
  {
    UnitMissing(p, hold, a);
    UnitCovered(p, hold, a);
    hide Provider.Listed, Provider.Readable, Binding.Wanted, Covered;
    var listed := p.Listed(hold);
    if listed != [] {
      assert listed[0] in Begun(p, hold, a).pending.value.missing;
    }
  }

  /** What a unit lists is wanted, so all of it is missing at first. */
  lemma UnitMissing(p: Provider, hold: nat, a: Binding)
    requires Ready(p, hold, a)
    ensures ((set m | m in p.Listed(hold)) + {}) * a.Wanted(p.shapes[hold]) == set m | m in p.Listed(hold)
  {
    assert a.Wanted(p.shapes[hold]) == set m | m in p.Members(hold);
    forall m | m in p.Listed(hold)
      ensures m in p.Members(hold)
    {
    }
  }

  /** What it does not list, the binding has. */
  lemma UnitCovered(p: Provider, hold: nat, a: Binding)
    requires Ready(p, hold, a)
    ensures Covered(Begun(p, hold, a), p.shapes[hold], set m | m in p.Listed(hold))
  {
    assert Begun(p, hold, a).Wanted(p.shapes[hold]) == set m | m in p.Members(hold);
  }

  lemma UnitApplies(p: Provider, hold: nat, a: Binding)
    requires Ready(p, hold, a)
    ensures var fs := p.UnitFrames(hold);
            a.SettledAlong(hold, fs) && Applied(a, a.Consume(hold, fs), p.shapes[hold], UnitValues(p, hold))
  {
    var listed := p.Listed(hold);
    var fs := p.UnitFrames(hold);
    var b := Begun(p, hold, a);
    UnitBegins(p, hold, a);
    AttachAllShape(p, hold, listed);
    ListedDistinct(p, hold);
    assert fs[1..] == p.AttachAll(hold, listed).1;
    var values := UnitValues(p, hold);
    hide Provider.UnitFrames, Provider.AttachAll, Provider.Listed, Provider.Readable, UnitValues;
    UnitConsumed(a, b, hold, listed, fs, values);
  }

  lemma UnitConsumed(a: Binding, b: Binding, hold: nat, listed: seq<string>, fs: seq<Frame>, values: map<string, Replica>)
    requires b == a.(pending := b.pending) && b.pending.Some?
    requires fs != [] && a.Receive(hold, fs[0]) == (if listed == [] then b.Apply() else b)
    requires Distinct(listed) && SnapshotFrames(hold, listed, fs[1..]) && a.Settled()
    requires b.pending.value.missing == (set m | m in listed)
    requires b.pending.value.values == map[] && values == Snapshots(map[], listed, fs[1..])
    requires Covered(b, b.pending.value.shape, b.pending.value.missing)
    ensures a.SettledAlong(hold, fs) && Applied(a, a.Consume(hold, fs), b.pending.value.shape, values)
  {
    assert b.Settled();
    hide Binding.Receive;
    if listed == [] {
      assert fs[1..] == [];
      ApplyApplies(b);
    } else {
      assert b.pending.value.missing + b.pending.value.values.Keys == b.pending.value.missing;
      UnitArrives(b, hold, listed, fs[1..]);
    }
  }

  lemma UnitReads(p: Provider, hold: nat, m: string, r: Replica)
    requires hold in p.shapes && p.Readable(hold) && Distinct(p.shapes[hold].members) && !r.Corrupt?
    ensures var values := UnitValues(p, hold);
            var t := TakeAll(r, Key(hold, m), p.UnitFrames(hold));
            if m in p.Listed(hold) then m in values && values[m] == t else m !in values && t == r
  {
    var listed := p.Listed(hold);
    var fs := p.UnitFrames(hold);
    AttachAllShape(p, hold, listed);
    ListedDistinct(p, hold);
    assert fs[1..] == p.AttachAll(hold, listed).1;
    TakeAllFirst(r, Key(hold, m), fs);
    SnapshotsRead(map[], hold, listed, fs[1..], m, r);
  }

  /** A whole unit of the hold: once its last snapshot is there the binding is live in the new shape. */
  lemma UnitSettles(p: Provider, hold: nat, a: Binding)
    requires Ready(p, hold, a)
    ensures var fs := p.UnitFrames(hold);
            var c := a.Consume(hold, fs);
            && a.SettledAlong(hold, fs)
            && c.pending.None? && c.ViewLive() && c.contract == a.contract && c.shape == Some(p.shapes[hold])
            && c.members.Keys == c.Wanted(p.shapes[hold])
            && (forall m :: m in c.members ==> c.Lookup(m) == TakeAll(a.Lookup(m), Key(hold, m), fs))
  {
    UnitApplies(p, hold, a);
    var fs := p.UnitFrames(hold);
    forall m
      ensures var values := UnitValues(p, hold);
              var t := TakeAll(a.Lookup(m), Key(hold, m), fs);
              if m in p.Listed(hold) then m in values && values[m] == t else m !in values && t == a.Lookup(m)
    {
      assert !a.Lookup(m).Corrupt?;
      UnitReads(p, hold, m, a.Lookup(m));
    }
    hide Binding.Consume, Provider.UnitFrames, Provider.Listed, UnitValues, Binding.SettledAlong, Ready;
  }

  lemma ListedDistinct(p: Provider, h: nat)
    requires h in p.shapes && Distinct(p.shapes[h].members)
    ensures Distinct(p.Listed(h))
  {
    if h in p.contracts {
      MembersDistinct(p.contracts[h], p.shapes[h].variant, p.shapes[h].members);
    }
    UnfedDistinct(p, h, p.Members(h));
  }

  lemma {:induction false} MembersDistinct(contract: Contract, variant: string, members: seq<string>)
    requires Distinct(members)
    ensures Distinct(StateMembers(contract, variant, members))
  {
    if members != [] {
      MembersDistinct(contract, variant, members[1..]);
      assert members[0] !in members[1..];
    }
  }

  lemma {:induction false} UnfedDistinct(p: Provider, h: nat, names: seq<string>)
    requires Distinct(names)
    ensures Distinct(p.Unfed(h, names))
  {
    if names != [] {
      UnfedDistinct(p, h, names[1..]);
      assert names[0] !in names[1..];
    }
  }

  /** Stream frames keep what the binding knows, whatever the step did elsewhere. */
  lemma StreamKeeps(p: Provider, q: Provider, hold: nat, a: Binding, fs: seq<Frame>)
    requires p.Valid() && Knows(p, hold, a) && (forall i :: 0 <= i < |fs| ==> OfStream(p, hold, fs[i]))
    requires forall m :: q.Serves(Key(hold, m), TakeAll(a.Lookup(m), Key(hold, m), fs))
    requires q.contracts == p.contracts && (hold in q.unitSent ==> hold in p.unitSent)
    requires forall k :: k in q.feeds && k.hold == hold ==> k in p.feeds
    ensures a.SettledAlong(hold, fs) && Knows(q, hold, a.Consume(hold, fs))
  {
    StreamFrames(p, hold, a, fs);
  }

  lemma UnitKeeps(p: Provider, q: Provider, hold: nat, a: Binding)
    requires Ready(p, hold, a) && q.ShapesOk() && q.contracts == p.contracts && q.shapes == p.shapes
    requires forall m :: q.Serves(Key(hold, m), TakeAll(a.Lookup(m), Key(hold, m), p.UnitFrames(hold)))
    ensures var fs := p.UnitFrames(hold); a.SettledAlong(hold, fs) && Knows(q, hold, a.Consume(hold, fs))
  {
    UnitSettles(p, hold, a);
    var c := a.Consume(hold, p.UnitFrames(hold));
    UnitKnown(p, q, hold, a, c);
  }

  lemma UnitKnown(p: Provider, q: Provider, hold: nat, a: Binding, c: Binding)
    requires Ready(p, hold, a) && q.ShapesOk() && q.contracts == p.contracts && q.shapes == p.shapes
    requires forall m :: q.Serves(Key(hold, m), TakeAll(a.Lookup(m), Key(hold, m), p.UnitFrames(hold)))
    requires c.pending.None? && c.ViewLive() && c.contract == a.contract && c.shape == Some(p.shapes[hold])
    requires c.members.Keys == c.Wanted(p.shapes[hold])
    requires forall m :: m in c.members ==> c.Lookup(m) == TakeAll(a.Lookup(m), Key(hold, m), p.UnitFrames(hold))
    ensures Knows(q, hold, c)
  {
    hide Provider.UnitFrames;
    assert forall m :: m in q.Members(hold) <==> m in c.members;
    forall m
      ensures q.Serves(Key(hold, m), c.Lookup(m))
    {
      if m in c.members {
        assert c.Lookup(m) == TakeAll(a.Lookup(m), Key(hold, m), p.UnitFrames(hold));
      } else {
        assert Key(hold, m) !in q.feeds;
      }
    }
  }

  // -------------------------------------------------------------------------------------------------- every step

  lemma ProvideKnows(p: Provider, step: Step, hold: nat, a: Binding)
    requires p.Valid() && Enabled(p, step) && step != DropHold(hold) && Knows(p, hold, a)
    ensures var q := Next(p, step);
            var fs := Frames(p, step);
            q.Valid() && q.conn.out == p.conn.out + fs && a.SettledAlong(hold, fs) && Knows(q, hold, a.Consume(hold, fs))
  {
    var q := Next(p, step);
    var fs := Frames(p, step);
    forall m
      ensures Follows(p, q, fs, Key(hold, m), a.Lookup(m))
    {
      assert p.Serves(Key(hold, m), a.Lookup(m));
      StepFollows(p, step, Key(hold, m), a.Lookup(m));
    }
    assert Follows(p, q, fs, Key(hold, ""), a.Lookup(""));
    assert forall m :: q.Serves(Key(hold, m), TakeAll(a.Lookup(m), Key(hold, m), fs)) by {
      forall m
        ensures q.Serves(Key(hold, m), TakeAll(a.Lookup(m), Key(hold, m), fs))
      {
        assert Follows(p, q, fs, Key(hold, m), a.Lookup(m));
      }
    }
    StepKnows(p, step, hold, a);
  }

  /** Which unit of `hold`, if any, a step sends, and from which state. */
  ghost predicate SendsUnit(p: Provider, step: Step, hold: nat) {
    match step
    case ReShape(h, shape) => h == hold && p.Pruned(h, shape).Urgent(h)
    case FlushOne => p.conn.order != [] && p.conn.order[0] == UnitSlot(hold) && hold in p.shapes
    case _ => false
  }

  lemma StepKnows(p: Provider, step: Step, hold: nat, a: Binding)
    requires p.Valid() && Enabled(p, step) && step != DropHold(hold) && Knows(p, hold, a)
    requires Next(p, step).Valid()
    requires forall m :: Next(p, step).Serves(Key(hold, m), TakeAll(a.Lookup(m), Key(hold, m), Frames(p, step)))
    ensures var fs := Frames(p, step);
            a.SettledAlong(hold, fs) && Knows(Next(p, step), hold, a.Consume(hold, fs))
  {
    var q := Next(p, step);
    if SendsUnit(p, step, hold) {
      var r := if step.ReShape? then p.Pruned(hold, step.shape) else p;
      UnitSource(p, step, hold, a);
      UnitKeeps(r, q, hold, a);
    } else {
      StepOfStream(p, step, hold);
      StreamKeeps(p, q, hold, a, Frames(p, step));
    }
  }

  lemma UnitSource(p: Provider, step: Step, hold: nat, a: Binding)
    requires p.Valid() && Enabled(p, step) && Knows(p, hold, a) && SendsUnit(p, step, hold)
    ensures var r := if step.ReShape? then p.Pruned(hold, step.shape) else p;
            && Ready(r, hold, a) && Frames(p, step) == r.UnitFrames(hold)
            && Next(p, step).contracts == r.contracts && Next(p, step).shapes == r.shapes
  {
    hide Conn.Counted, Provider.FeedsOk;
    forall m
      ensures !a.Lookup(m).Corrupt?
    {
      assert p.Serves(Key(hold, m), a.Lookup(m));
    }
    if step.ReShape? {
      PrunedShapes(p, hold, step.shape);
      var r := p.Pruned(hold, step.shape);
      AttachAllShape(r.(conn := r.conn.ForgetUnit(hold)), hold, r.(conn := r.conn.ForgetUnit(hold)).Listed(hold));
    } else {
      AttachAllShape(p.(conn := p.conn.ForgetUnit(hold)), hold, p.(conn := p.conn.ForgetUnit(hold)).Listed(hold));
    }
  }

  /** `fs` are frames of streams already fed or of other holds, and the step to `q` started no stream of `hold`. */
  ghost predicate OnlyStreams(p: Provider, q: Provider, hold: nat, fs: seq<Frame>) {
    && (forall i :: 0 <= i < |fs| ==> OfStream(p, hold, fs[i]))
    && q.contracts == p.contracts && (hold in q.unitSent ==> hold in p.unitSent)
    && (forall k :: k in q.feeds && k.hold == hold ==> k in p.feeds)
  }

  lemma StepOfStream(p: Provider, step: Step, hold: nat)
    requires p.Valid() && Enabled(p, step) && step != DropHold(hold) && !SendsUnit(p, step, hold)
    ensures OnlyStreams(p, Next(p, step), hold, Frames(p, step))
  {
    hide Conn.Counted, Provider.FeedsOk, Conn.SendState, Conn.Acknowledge, Conn.ResetLater, Provider.SendUnit, Provider.Pruned,
         Provider.ReShape, Provider.ShapesOk;
    match step
    case ReShape(h, shape) =>
      PrunedShapes(p, h, shape);
      ReShapeOfStream(p, h, shape, hold);
    case FlushOne => FlushOfStream(p, hold);
    case Deliver(k) =>
    case _ =>
  }

  lemma FlushOfStream(p: Provider, hold: nat)
    requires p.Valid() && Enabled(p, FlushOne) && !SendsUnit(p, FlushOne, hold)
    ensures (FlushReady(p); OnlyStreams(p, p.FlushOne(), hold, Flushed(p)))
  {
    FlushReady(p);
    match p.conn.order[0]
    case UnitSlot(h) =>
      hide Provider.Valid, Provider.SendUnit, Unit, OnlyStreams;
      UnitOfOther(p, p, h, hold);
    case StateSlot(k) =>
      hide Provider.Valid, OnlyStreams;
      SlotOfStream(p, k, hold);
  }

  lemma SlotOfStream(p: Provider, k: Key, hold: nat)
    requires k in p.conn.slots && k in p.feeds && k in p.current
    ensures OnlyStreams(p, p.(conn := p.conn.Remove(k)).Resend(k), hold, [p.Snapshot(k)])
    ensures OnlyStreams(p, p.(conn := p.conn.FlushSlot(k)), hold, SlotFrames(k, p.conn.slots[k]))
  {
    hide Conn.Send, Conn.FlushSlot, Conn.Remove;
  }

  lemma ReShapeOfStream(p: Provider, h: nat, shape: Shaped, hold: nat)
    requires p.(shapes := p.shapes[h := shape]).Readable(h) && p.Pruned(h, shape).Readable(h)
    requires h == hold ==> !p.Pruned(h, shape).Urgent(h)
    ensures OnlyStreams(p, p.ReShape(h, shape), hold, ReShapeFrames(p, h, shape))
  {
    if p.Pruned(h, shape).Urgent(h) {
      UnitOfOther(p.Pruned(h, shape), p, h, hold);
    }
  }

  lemma UnitOfOther(p: Provider, p0: Provider, h: nat, hold: nat)
    requires p.Readable(h) && (h == hold ==> h !in p.shapes)
    requires p.contracts == p0.contracts && p.unitSent == p0.unitSent && p.feeds.Keys <= p0.feeds.Keys
    ensures OnlyStreams(p0, p.SendUnit(h), hold, Unit(p, h))
  {
    if h in p.shapes {
      UnitFramesOfOther(p, p0, h, hold);
      var r := p.(conn := p.conn.ForgetUnit(h));
      AttachAllShape(r, h, r.Listed(h));
      hide Provider.UnitFrames, Provider.AttachAll, Provider.Listed, Conn.SendAll, Conn.ForgetUnit;
    }
  }

  lemma UnitFramesOfOther(p: Provider, p0: Provider, h: nat, hold: nat)
    requires p.Readable(h) && h in p.shapes && h != hold
    ensures var fs := p.UnitFrames(h); forall i :: 0 <= i < |fs| ==> OfStream(p0, hold, fs[i])
  {
    AttachAllShape(p, h, p.Listed(h));
  }

  // ------------------------------------------------------------------------------------------------------- runs

  lemma ActInv(s: Link, a: Action)
    requires Inv(s) && Can(s, a)
    ensures Open(s) && Inv(Act(s, a))
  {
    hide Provider.Valid, Counting, Knows, Provider.Serves;
    if a.Provide? {
      StepSends(s.p, a.step);
    }
    CountingKept(s, a);
    var out := s.p.conn.out;
    match a
    case Provide(step) => ProvideInv(s, s.p, step);
    case Receive => ReceiveInv(s);
    case Acknowledge =>
    case BackArrives =>
      var step := if s.back[0].Hello? then PeerHello(s.back[0].acks) else Acknowledged(s.back[0].n);
      ProvideInv(s, s.p, step);
  }

  lemma ProvideInv(s: Link, p: Provider, step: Step)
    requires p.Valid() && Enabled(p, step) && step != DropHold(s.hold)
    requires s.b.SettledAlong(s.hold, p.conn.out) && Knows(p, s.hold, s.b.Consume(s.hold, p.conn.out))
    ensures var q := Next(p, step);
            q.Valid() && s.b.SettledAlong(s.hold, q.conn.out) && Knows(q, s.hold, s.b.Consume(s.hold, q.conn.out))
  {
    hide Provider.Valid, Knows, Provider.Serves;
    var a := s.b.Consume(s.hold, p.conn.out);
    ProvideKnows(p, step, s.hold, a);
    ConsumeConcat(s.b, s.hold, p.conn.out, Frames(p, step));
    SettledConcat(s.b, s.hold, p.conn.out, Frames(p, step));
  }

  lemma ReceiveInv(s: Link)
    requires Inv(s) && s.p.conn.out != []
    ensures var t := Act(s, Receive); t.p.Valid() && t.b.SettledAlong(t.hold, t.p.conn.out) && Knows(t.p, t.hold, Ahead(t))
  {
    var t := Act(s, Receive);
    ReceiveValid(s.p);
    assert Ahead(t) == Ahead(s);
    forall m
      ensures t.p.Serves(Key(t.hold, m), Ahead(t).Lookup(m))
    {
      assert s.p.Serves(Key(s.hold, m), Ahead(s).Lookup(m));
    }
    hide Provider.Valid, Binding.Consume, Provider.Serves, Binding.Lookup;
  }

  lemma ReceiveValid(p: Provider)
    requires p.Valid() && p.conn.out != []
    ensures p.(conn := p.conn.(out := p.conn.out[1..])).Valid()
  {
    var q := p.(conn := p.conn.(out := p.conn.out[1..]));
    UncountedOut(p.conn);
    hide Conn.Counted, Provider.ShapesOk, Provider.FeedsOk;
    SameOk(p, q);
  }

  lemma UncountedOut(c: Conn)
    requires c.Counted() && c.out != []
    ensures c.(out := c.out[1..]).Counted()
  {
  }

  /** A run: from a fresh connection, any actions that can happen. */
  ghost predicate IsRun(run: seq<Link>) {
    && run != [] && Init(run[0])
    && forall i :: 0 <= i < |run| - 1 ==> Leads(run[i], run[i + 1])
  }

  ghost predicate Leads(s: Link, t: Link) {
    s.p.Valid() && Open(s) && exists a :: Can(s, a) && t == Act(s, a)
  }

  lemma {:induction false} RunInv(run: seq<Link>)
    requires IsRun(run)
    ensures Inv(run[|run| - 1])
  {
    hide Inv, Init, Leads;
    if |run| == 1 {
      InitInv(run[0]);
    } else {
      var init := run[..|run| - 1];
      assert forall i :: 0 <= i < |init| - 1 ==> Leads(init[i], init[i + 1]);
      RunInv(init);
      assert Leads(run[|run| - 2], run[|run| - 1]);
      LeadsInv(init[|init| - 1], run[|run| - 1]);
    }
  }

  lemma LeadsInv(s: Link, t: Link)
    requires Inv(s) && Leads(s, t)
    ensures Inv(t)
  {
    hide Inv, Provider.Valid, Open, Act;
    var a :| Can(s, a) && t == Act(s, a);
    ActInv(s, a);
  }

  /** What waits for a member on the provider: played on what the peer will have, it gives the value followed so far. */
  function Outstanding(p: Provider, k: Key, t: Replica): (r: Replica)
    requires k in p.current
  {
    if k !in p.conn.slots then t
    else if p.conn.slots[k].lazy then Known(p.current[k], p.nextStream, 0)
    else Play(if p.conn.slots[k].base.Some? then Started(p.conn.slots[k].base.value) else t, p.conn.slots[k].ops)
  }

  /**
   In every reachable state, folding the frames already on the link and then what waits in the member's slot, and then
   the events its listener has yet to get, gives the source's current value. A lazy slot stands for that value itself.
   */
  lemma Converges(run: seq<Link>, k: Key)
    requires IsRun(run)
    requires var s := run[|run| - 1]; k in s.p.feeds && k.hold == s.hold
    ensures var s := run[|run| - 1];
            && k in s.p.current
            && var r := Outstanding(s.p, k, Ahead(s).Lookup(k.member));
               r.Known? && if k in s.p.conn.slots && s.p.conn.slots[k].lazy then r.value == s.p.current[k]
                           else After(r.value, s.p.feeds[k].queued) == s.p.current[k]
  {
    RunInv(run);
    var s := run[|run| - 1];
    assert s.p.Serves(Key(s.hold, k.member), Ahead(s).Lookup(k.member));
    assert k == Key(s.hold, k.member);
  }

  /** When nothing is on its way and nothing waits, the binding's value is the source's. */
  lemma QuietMeansEqual(run: seq<Link>, k: Key)
    requires IsRun(run)
    requires var s := run[|run| - 1];
             k in s.p.feeds && k.hold == s.hold && s.p.conn.out == [] && k !in s.p.conn.slots && s.p.feeds[k].queued == []
    ensures var s := run[|run| - 1];
            k in s.p.current && k.member in s.b.members && s.b.members[k.member].Known?
            && s.b.members[k.member].value == s.p.current[k]
  {
    Converges(run, k);
    RunInv(run);
  }

  /**
   The binding is settled after every frame: once a shape was applied, a live view has every state member of it. When it
   has consumed what is on the link, no unit is incomplete, and it is live if a unit was ever sent; no decoder ever met
   an op of another stream or out of order.
   */
  lemma AlwaysHydrated(run: seq<Link>)
    requires IsRun(run)
    ensures var s := run[|run| - 1];
            && s.b.SettledAlong(s.hold, s.p.conn.out)
            && Ahead(s).pending.None?
            && (s.hold in s.p.unitSent ==> Ahead(s).ViewLive())
            && (forall k :: k in s.p.feeds && k.hold == s.hold ==> k.member in Ahead(s).members)
            && (forall m :: m in s.b.members ==> !s.b.members[m].Corrupt?)
  {
    RunInv(run);
  }

  /** Over an ordered link the acknowledgement range check never closes the connection, and the byte counters hold. */
  lemma NeverViolates(run: seq<Link>)
    requires IsRun(run)
    ensures var s := run[|run| - 1];
            var c := s.p.conn;
            && Open(s)
            && c.pendingBytes == FlowControl.Waiting(c.order, c.slots) <= c.cap && c.unackedBytes == Sum(c.unacked)
            && (c.peerAcks == Some(true) ==> c.acked <= s.received <= c.sent)
  {
    RunInv(run);
  }
}
