/**
 A hold relayed over a middle host (packages/chord/src/connection.ts:129-253): the provider's frames pass through the
 relay's own window towards the consumer; a relay that must drop what waits asks the provider for a reset and forwards
 no ops of that member until it arrives.
 */
module Relaying {
  import opened Streams
  import opened FlowControl
  import opened Providing
  import opened Bindings
  import opened Replication
  import DirectLink

  /** The relay: its connection to the consumer, the holds whose first shape passed, and what skips the window. */
  datatype Relay = Relay(origin: Conn, shaped: set<nat>, again: set<nat>, urgent: set<Key>)
  {
    /** `RelayRef.shape` */
    function Shape(f: Frame): (r: Relay)
      requires f.Shape?
    {
      var first := f.hold !in shaped && f.hold !in again;
      this.(shaped := shaped + {f.hold},
            urgent := if first then urgent + set m | m in f.listed :: Key(f.hold, m) else urgent,
            origin := origin.Send(f))
    }

    /** `RelayRef.state` */
    function State(f: Frame): (r: Relay)
      requires f.Base? || f.Ops?
    {
      var k := f.key;
      if k in origin.awaiting && f.Ops? then this
      else
        var o := origin.(awaiting := origin.awaiting - {k});
        if k in urgent then this.(urgent := urgent - {k}, origin := o.Send(f))
        else this.(origin := o.SendState(f, true))
    }

    function Pass(f: Frame): (r: Relay) {
      if f.Shape? then Shape(f) else if f.Other? then this else State(f)
    }
  }

  function At(m: map<Key, Replica>, k: Key): (r: Replica) {
    if k in m then m[k] else Unknown
  }

  function TakeIn(m: map<Key, Replica>, f: Frame): (r: map<Key, Replica>) {
    if f.Base? || f.Ops? then m[f.key := Take(At(m, f.key), f.key, f)] else m
  }

  /**
   Provider, relay and consumer. `got` and `seen` record what the relay received of each member and what reached the
   consumer; `b` is the binding of `hold`.
   */
  datatype Chain = Chain(p: Provider, r: Relay, hold: nat, b: Binding, got: map<Key, Replica>, seen: map<Key, Replica>)

  datatype Action = Provide(step: Step) | Forward | Flush | Ack(n: nat) | Hello(acks: bool) | Busy | Consume | AskArrives

  ghost predicate Can(s: Chain, a: Action) {
    match a
    case Provide(step) => Enabled(s.p, step)
    case Forward => s.p.conn.out != []
    case Flush => s.r.origin.order != [] && s.r.origin.order[0].StateSlot? && s.r.origin.order[0].key in s.r.origin.slots
    case Ack(n) => s.r.origin.AckInRange(n) && n <= s.r.origin.acked + |s.r.origin.unacked|
    case Consume => s.r.origin.out != []
    case AskArrives => s.r.origin.asks != []
    case _ => true
  }

  ghost function Act(s: Chain, a: Action): (t: Chain)
    requires s.p.Valid() && Can(s, a)
  {
    var o := s.r.origin;
    match a
    case Provide(step) => s.(p := Next(s.p, step))
    case Forward =>
      var f := s.p.conn.out[0];
      s.(p := s.p.(conn := s.p.conn.(out := s.p.conn.out[1..])), r := s.r.Pass(f), got := TakeIn(s.got, f))
    case Flush => s.(r := s.r.(origin := o.FlushSlot(o.order[0].key)))
    case Ack(n) => s.(r := s.r.(origin := o.Acknowledge(n)))
    case Hello(acks) => s.(r := s.r.(origin := o.Hello(acks)))
    case Busy => s.(r := s.r.(origin := o.Send(Other)))
    case Consume =>
      s.(r := s.r.(origin := o.(out := o.out[1..])), b := s.b.Receive(s.hold, o.out[0]), seen := TakeIn(s.seen, o.out[0]))
    case AskArrives => s.(r := s.r.(origin := o.(asks := o.asks[1..])), p := s.p.Resync(o.asks[0]))
  }

  // ------------------------------------------------------------------------------------------------- invariants

  /** A reset of `k` is on its way from the provider, or will be built there. */
  predicate Coming(p: Provider, k: Key) {
    || (k in p.conn.slots && (p.conn.slots[k].lazy || p.conn.slots[k].base.Some?))
    || exists i :: 0 <= i < |p.conn.out| && p.conn.out[i].Base? && p.conn.out[i].key == k
  }

  /** On the link no state of `h` comes before its first shape. */
  predicate ShapeFirst(out: seq<Frame>, h: nat) {
    out == [] || (out[0].Shape? && out[0].hold == h)
    || (!((out[0].Base? || out[0].Ops?) && out[0].key.hold == h) && ShapeFirst(out[1..], h))
  }

  predicate ShapeIn(out: seq<Frame>, h: nat) {
    exists i :: 0 <= i < |out| && out[i].Shape? && out[i].hold == h
  }

  /** What the provider still owes the relay. */
  ghost predicate Upstream(p: Provider, got: map<Key, Replica>) {
    p.Valid() && forall k :: p.Serves(k, TakeAll(At(got, k), k, p.conn.out))
  }

  /** What the relay still owes the consumer: after what is on the link and what waits, exactly what the relay received. */
  ghost predicate Downstream(o: Conn, got: map<Key, Replica>, seen: map<Key, Replica>) {
    && o.Relayed()
    && (forall k :: k in got ==> !got[k].Corrupt?)
    && (forall k :: var t := TakeAll(At(seen, k), k, o.out); !t.Corrupt? && Caught(o, k, t, At(got, k)))
  }

  /** Members that skip the window have nothing waiting, and holds without a shape have nothing at all. */
  ghost predicate Fresh(p: Provider, r: Relay) {
    && (forall k :: k in r.urgent ==> k !in r.origin.slots && k !in r.origin.awaiting)
    && (forall h :: h !in r.shaped ==> ShapeFirst(p.conn.out, h))
    && (forall k :: k in r.origin.slots || k in r.origin.awaiting ==> k.hold in r.shaped)
    && (forall k :: k in p.feeds ==> k.hold in r.shaped || ShapeIn(p.conn.out, k.hold))
  }

  ghost predicate Recovering(p: Provider, o: Conn) {
    forall k :: k in o.awaiting && k in p.feeds ==> k in o.asks || Coming(p, k)
  }

  /** What a binding knows of a member, applied or waiting. */
  function Held(b: Binding, m: string): (r: Replica) {
    if b.pending.Some? && m in b.pending.value.values then b.pending.value.values[m] else b.Lookup(m)
  }

  /** A binding holds what reached it, or has let it go. */
  ghost predicate Tracks(b: Binding, hold: nat, seen: map<Key, Replica>) {
    && (forall m :: Held(b, m) == At(seen, Key(hold, m)) || Held(b, m).Unknown?)
    && (forall m :: m in b.members ==> b.InVariant(m))
  }

  ghost predicate Inv(s: Chain) {
    && Upstream(s.p, s.got) && Downstream(s.r.origin, s.got, s.seen)
    && Fresh(s.p, s.r) && Recovering(s.p, s.r.origin) && Tracks(s.b, s.hold, s.seen)
  }

  ghost predicate EmptyConn(c: Conn) {
    && c.order == [] && c.slots == map[] && c.units == {} && c.pendingBytes == 0 && c.awaiting == {} && c.asks == []
    && c.out == [] && c.sent == c.acked == c.unackedBytes == 0 && c.unacked == [] && c.peerAcks == None
  }

  /** Fresh connections; the binding may keep values of an earlier hold. */
  ghost predicate Init(s: Chain) {
    && EmptyConn(s.p.conn) && EmptyConn(s.r.origin)
    && s.p.feeds == map[] && s.p.shapes == map[] && s.p.unitSent == {}
    && s.r.shaped == {} && s.r.urgent == {}
    && s.got == s.seen && (forall k :: k in s.seen ==> !s.seen[k].Corrupt?)
    && s.b.pending.None? && Tracks(s.b, s.hold, s.seen)
  }

  // --------------------------------------------------------------------------------------- relay to consumer

  /** What the relay sends on at once. */
  function PassedOn(r: Relay, f: Frame): (fs: seq<Frame>)
    requires f.Base? || f.Ops?
  {
    if f.key in r.origin.awaiting && f.Ops? then []
    else if f.key in r.urgent then [f]
    else Passed(r.origin, f)
  }

  lemma StateCaught(r: Relay, f: Frame, x: Key, t: Replica, target: Replica)
    requires (f.Base? || f.Ops?) && !t.Corrupt? && !target.Corrupt? && !Take(target, x, f).Corrupt?
    requires Caught(r.origin, x, t, target)
    requires f.key in r.urgent ==> f.key !in r.origin.slots && f.key !in r.origin.awaiting
    ensures var o := r.State(f).origin;
            var u := TakeAll(t, x, PassedOn(r, f));
            o.out == r.origin.out + PassedOn(r, f) && !u.Corrupt? && Caught(o, x, u, Take(target, x, f))
  {
    var o := r.origin;
    if f.key in o.awaiting && f.Ops? {
      assert o.out + [] == o.out;
    } else {
      TakeAllOne(t, x, PassedOn(r, f));
      if f.key !in r.urgent {
        var c := o.(awaiting := o.awaiting - {f.key});
        var goal := if x == f.key && x in o.awaiting then t else target;
        assert Caught(c, x, t, goal);
        SendStateCaught(c, f, true, x, t, goal);
        if x == f.key && PassedOn(r, f) == [f] {
          PassesWhole(c, f);
        }
      }
    }
  }

  lemma PassesWhole(c: Conn, f: Frame)
    requires (f.Base? || f.Ops?) && Passed(c, f) == [f] && f.key !in c.awaiting
    ensures f.key !in c.SendState(f, true).slots && f.key !in c.SendState(f, true).awaiting
  {
  }

  /** Slots of a relay stay a relay's, and whatever is dropped is asked for. */
  ghost predicate Asks(c: Conn, d: Conn) {
    && (forall k :: k in c.asks ==> k in d.asks)
    && (forall k :: k in d.awaiting ==> k in c.awaiting || k in d.asks)
  }

  lemma {:induction false} MakeRoomAsks(c: Conn, todo: seq<SlotKey>, size: nat, current: Key)
    requires c.Relayed() && current in c.slots
    ensures var d := c.MakeRoom(todo, size, current);
            d.Relayed() && Asks(c, d) && (forall k :: k in d.slots ==> k in c.slots)
            && (forall k :: k in d.awaiting ==> k in c.awaiting || k in c.slots)
    decreases |todo|
  {
    if c.pendingBytes + size > c.cap && todo != [] {
      MakeRoomAsks(if c.Droppable(todo[0], current) then c.Drop(todo[0].key) else c, todo[1..], size, current);
    }
  }

  lemma SendStateAsks(c: Conn, f: Frame)
    requires c.Relayed() && (f.Base? || f.Ops?)
    ensures var d := c.SendState(f, true);
            d.Relayed() && Asks(c, d) && (forall k :: k in d.slots ==> k in c.slots || k == f.key)
            && (forall k :: k in d.awaiting ==> k in c.awaiting || k in c.slots || k == f.key)
  {
    if Passed(c, f) == [] {
      var e := c.NewSlot(f.key, true);
      if f.Ops? {
        MakeRoomAsks(e, e.order, f.size, f.key);
      }
    }
  }

  lemma StateAsks(r: Relay, f: Frame)
    requires r.origin.Relayed() && (f.Base? || f.Ops?)
    ensures var o := r.State(f).origin;
            o.Relayed() && Asks(r.origin, o) && (forall k :: k in o.slots ==> k in r.origin.slots || k == f.key)
            && (forall k :: k in o.awaiting ==> k in r.origin.awaiting || k in r.origin.slots || k == f.key)
            && r.State(f).urgent <= r.urgent && (f.key in r.urgent && f.key !in r.origin.awaiting ==> f.key !in r.State(f).urgent)
            && r.State(f).shaped == r.shaped
            && (f.Base? ==> f.key in o.awaiting ==> f.key in o.asks)
  {
    if !(f.key in r.origin.awaiting && f.Ops?) {
      SendStateAsks(r.origin.(awaiting := r.origin.awaiting - {f.key}), f);
    }
  }

  /** Whatever the relay receives, it still owes the consumer exactly that. */
  lemma PassDownstream(r: Relay, f: Frame, got: map<Key, Replica>, seen: map<Key, Replica>)
    requires Downstream(r.origin, got, seen)
    requires forall k :: k in r.urgent ==> k !in r.origin.slots && k !in r.origin.awaiting
    requires forall k :: !Take(At(got, k), k, f).Corrupt?
    ensures Downstream(r.Pass(f).origin, TakeIn(got, f), seen)
  {
    var o := r.Pass(f).origin;
    if f.Base? || f.Ops? {
      StateAsks(r, f);
    }
    assert forall k :: k in TakeIn(got, f) ==> !TakeIn(got, f)[k].Corrupt? by {
      forall k | k in TakeIn(got, f)
        ensures !TakeIn(got, f)[k].Corrupt?
      {
        assert !Take(At(got, k), k, f).Corrupt?;
      }
    }
    forall k
      ensures var t := TakeAll(At(seen, k), k, o.out); !t.Corrupt? && Caught(o, k, t, At(TakeIn(got, f), k))
    {
      PassDownstreamOne(r, f, got, seen, k);
    }
  }

  lemma PassDownstreamOne(r: Relay, f: Frame, got: map<Key, Replica>, seen: map<Key, Replica>, k: Key)
    requires Downstream(r.origin, got, seen)
    requires forall k :: k in r.urgent ==> k !in r.origin.slots && k !in r.origin.awaiting
    requires !Take(At(got, k), k, f).Corrupt?
    ensures var o := r.Pass(f).origin;
            var t := TakeAll(At(seen, k), k, o.out); !t.Corrupt? && Caught(o, k, t, At(TakeIn(got, f), k))
  {
    var o := r.origin;
    var t := TakeAll(At(seen, k), k, o.out);
    assert !t.Corrupt? && Caught(o, k, t, At(got, k));
    assert At(TakeIn(got, f), k) == Take(At(got, k), k, f);
    if f.Shape? {
      TakeAllConcat(At(seen, k), k, o.out, [f]);
      TakeAllOne(t, k, [f]);
    } else if !f.Other? {
      StateCaught(r, f, k, t, At(got, k));
      TakeAllConcat(At(seen, k), k, o.out, PassedOn(r, f));
    }
  }

  /**
   The first shape of a hold that is no re-hold lets the snapshots it lists pass the window, once each: they are what the
   consumer waits for.
   */
  lemma FirstUnitPasses(r: Relay, f: Frame, m: string, start: Start)
    requires f.Shape? && f.hold !in r.shaped && f.hold !in r.again && m in f.listed
    requires Key(f.hold, m) !in r.origin.awaiting
    ensures var q, base := r.Shape(f), Base(Key(f.hold, m), start);
            && q.origin.out == r.origin.out + [f] && base.key in q.urgent
            && q.State(base).origin.out == q.origin.out + [base] && q.State(base).urgent == q.urgent - {base.key}
  {
  }

  /** Any other shape goes on as well, and the snapshots it lists wait as others do. */
  lemma OtherUnitsWait(r: Relay, f: Frame)
    requires f.Shape? && (f.hold in r.shaped || f.hold in r.again)
    ensures r.Shape(f).origin == r.origin.Send(f) && r.Shape(f).urgent == r.urgent
  {
  }

  // ------------------------------------------------------------------------------------ a reset keeps coming

  lemma ComingGrows(p: Provider, q: Provider, k: Key, fs: seq<Frame>)
    requires q.conn.out == p.conn.out + fs
    requires Coming(p, k) || exists i :: 0 <= i < |fs| && fs[i].Base? && fs[i].key == k
    requires k in p.conn.slots && (p.conn.slots[k].lazy || p.conn.slots[k].base.Some?) ==>
      (k in q.conn.slots && (q.conn.slots[k].lazy || q.conn.slots[k].base.Some?))
      || exists i :: 0 <= i < |fs| && fs[i].Base? && fs[i].key == k
    ensures Coming(q, k)
  {
    if i :| 0 <= i < |fs| && fs[i].Base? && fs[i].key == k {
      assert q.conn.out[|p.conn.out| + i] == fs[i];
    } else if i :| 0 <= i < |p.conn.out| && p.conn.out[i].Base? && p.conn.out[i].key == k {
      assert q.conn.out[i] == p.conn.out[i];
    }
  }

  /** A promised reset stays promised in its slot. */
  predicate Promised(c: Conn, k: Key) {
    k in c.slots && (c.slots[k].lazy || c.slots[k].base.Some?)
  }

  lemma {:induction false} MakeRoomPromised(c: Conn, todo: seq<SlotKey>, size: nat, current: Key, k: Key)
    requires c.Local() && current in c.slots && Promised(c, k)
    ensures Promised(c.MakeRoom(todo, size, current), k)
    decreases |todo|
  {
    if c.pendingBytes + size > c.cap && todo != [] {
      MakeRoomPromised(if c.Droppable(todo[0], current) then c.Drop(todo[0].key) else c, todo[1..], size, current, k);
    }
  }

  lemma SendStatePromised(c: Conn, f: Frame, k: Key)
    requires c.Local() && (f.Base? || f.Ops?) && Promised(c, k)
    ensures Promised(c.SendState(f, false), k)
  {
    if Passed(c, f) == [] {
      var e := c.NewSlot(f.key, false);
      if f.Ops? && !e.slots[f.key].lazy {
        MakeRoomPromised(e, e.order, f.size, f.key, k);
      }
    }
  }

  lemma UnitComing(p: Provider, h: nat, k: Key)
    requires p.Readable(h) && k in p.SendUnit(h).feeds && (k in p.feeds ==> Coming(p, k))
    ensures Coming(p.SendUnit(h), k)
  {
    var q := p.(conn := p.conn.ForgetUnit(h));
    if h !in p.shapes {
      ComingGrows(p, q, k, []);
    } else {
      UnitAdds(q, h, k);
      hide Provider.UnitSent, Provider.UnitFrames, Conn.ForgetUnit, Coming;
      if k in p.feeds {
        ComingGrows(p, p.SendUnit(h), k, q.UnitFrames(h));
      }
    }
  }

  /** A unit goes out whole, and every stream it starts has its snapshot in it. */
  lemma UnitAdds(q: Provider, h: nat, k: Key)
    requires q.Readable(h) && h in q.shapes
    ensures var r := q.UnitSent(h);
            && r.conn.out == q.conn.out + q.UnitFrames(h) && r.conn.slots == q.conn.slots
            && (k in r.feeds && k !in q.feeds ==> Coming(r, k))
  {
    var fs := q.UnitFrames(h);
    var listed := q.Listed(h);
    AttachAllShape(q, h, listed);
    SendAllOut(q.conn, fs);
    hide Provider.AttachAll, Provider.Listed, Conn.SendAll;
    var r := q.UnitSent(h);
    if k in r.feeds && k !in q.feeds {
      var i :| 0 <= i < |listed| && listed[i] == k.member;
      assert r.conn.out[|q.conn.out| + i + 1] == fs[i + 1];
    }
  }

  lemma ReShapeComing(p: Provider, h: nat, shape: Shaped, k: Key)
    requires p.Valid() && Enabled(p, ReShape(h, shape))
    requires k in p.ReShape(h, shape).feeds && (k in p.feeds ==> Coming(p, k))
    ensures Coming(p.ReShape(h, shape), k)
  {
    var q := p.Pruned(h, shape);
    PrunedShapes(p, h, shape);
    DropGone(p.conn, p.(shapes := p.shapes[h := shape]).Gone(h));
    if k in q.feeds {
      ComingGrows(p, q, k, []);
    }
    hide Provider.Pruned, Conn.Counted;
    if q.Urgent(h) {
      UnitComing(q, h, k);
    } else {
      ComingGrows(q, q.(conn := q.conn.QueueUnit(h)), k, []);
    }
  }

  lemma FlushComing(p: Provider, k: Key)
    requires p.Valid() && Enabled(p, FlushOne)
    requires k in Next(p, FlushOne).feeds && (k in p.feeds ==> Coming(p, k))
    ensures Coming(Next(p, FlushOne), k)
  {
    FlushReady(p);
    match p.conn.order[0]
    case UnitSlot(h) => UnitComing(p, h, k);
    case StateSlot(x) =>
      var q := p.FlushOne();
      var fs := if p.conn.slots[x].lazy then [p.Snapshot(x)] else SlotFrames(x, p.conn.slots[x]);
      SendAllOut(p.conn.Remove(x), SlotFrames(x, p.conn.slots[x]));
      if x == k && Promised(p.conn, k) {
        assert fs[0].Base? && fs[0].key == k;
      }
      ComingGrows(p, q, k, fs);
  }

  lemma StepComing(p: Provider, step: Step, k: Key)
    requires p.Valid() && Enabled(p, step) && k in Next(p, step).feeds && (k in p.feeds ==> Coming(p, k))
    ensures Coming(Next(p, step), k)
  {
    hide Conn.Counted, Provider.ShapesOk, Provider.FeedsOk, Provider.ReShape, Provider.FlushOne, Conn.SendState;
    var q := Next(p, step);
    match step
    case Deliver(x) =>
      NextFrameTarget(p, x);
      SendStateAdds(p.conn, NextFrame(p, x), false);
      if Promised(p.conn, k) {
        SendStatePromised(p.conn, NextFrame(p, x), k);
      }
      ComingGrows(p, q, k, Passed(p.conn, NextFrame(p, x)));
    case ReShape(h, shape) => ReShapeComing(p, h, shape, k);
    case FlushOne => FlushComing(p, k);
    case DropHold(h) => DropHoldComing(p, h, k);
    case SendOther => ComingGrows(p, q, k, [Other]);
    case _ => ComingGrows(p, q, k, []);
  }

  lemma DropHoldComing(p: Provider, h: nat, k: Key)
    requires p.Valid() && k in p.DropHold(h).feeds && Coming(p, k)
    ensures Coming(p.DropHold(h), k)
  {
    DropGone(p.conn, set x | x in p.feeds && x.hold == h);
    hide Conn.Counted, Provider.ShapesOk, Provider.FeedsOk;
    ComingGrows(p, p.DropHold(h), k, []);
  }

  // ---------------------------------------------------------------------------------------- the first shape

  lemma {:induction false} ShapeFirstConcat(out: seq<Frame>, fs: seq<Frame>, h: nat)
    requires ShapeFirst(out, h) && (ShapeIn(out, h) || ShapeFirst(fs, h))
    ensures ShapeFirst(out + fs, h)
  {
    if out == [] {
      assert out + fs == fs;
    } else if !(out[0].Shape? && out[0].hold == h) {
      assert (out + fs)[1..] == out[1..] + fs;
      if i :| 0 <= i < |out| && out[i].Shape? && out[i].hold == h {
        assert out[1..][i - 1] == out[i];
      }
      ShapeFirstConcat(out[1..], fs, h);
    }
  }

  lemma {:induction false} NoStateShapeFirst(fs: seq<Frame>, h: nat)
    requires forall i :: 0 <= i < |fs| ==> !((fs[i].Base? || fs[i].Ops?) && fs[i].key.hold == h)
    ensures ShapeFirst(fs, h)
  {
    if fs != [] {
      NoStateShapeFirst(fs[1..], h);
    }
  }

  /** The provider starts no stream of a hold before its shape. */
  lemma StepShapeFirst(p: Provider, step: Step, h: nat)
    requires p.Valid() && Enabled(p, step) && ShapeFirst(p.conn.out, h)
    requires forall k :: k in p.feeds && k.hold == h ==> ShapeIn(p.conn.out, h)
    requires Next(p, step).conn.out == p.conn.out + Frames(p, step)
    ensures ShapeFirst(Next(p, step).conn.out, h)
    ensures forall k :: k in Next(p, step).feeds && k.hold == h ==> ShapeIn(Next(p, step).conn.out, h)
  {
    var q := Next(p, step);
    var fs := Frames(p, step);
    var sends := DirectLink.SendsUnit(p, step, h);
    hide Conn.Counted, Provider.FeedsOk, Provider.ShapesOk, Frames, DirectLink.SendsUnit, Provider.ReShape, Provider.FlushOne, Provider.Deliver;
    if sends {
      UnitStarts(p, step, h);
      assert q.conn.out[|p.conn.out|] == fs[0];
    } else if step != DropHold(h) {
      DirectLink.StepOfStream(p, step, h);
      if !ShapeIn(p.conn.out, h) {
        assert forall i :: 0 <= i < |fs| ==> DirectLink.OfStream(p, h, fs[i]);
        NoStateShapeFirst(fs, h);
      }
    }
    hide Provider.Valid;
    ShapeFirstConcat(p.conn.out, fs, h);
    if i :| 0 <= i < |p.conn.out| && p.conn.out[i].Shape? && p.conn.out[i].hold == h {
      assert q.conn.out[i] == p.conn.out[i];
    }
  }

  lemma UnitStarts(p: Provider, step: Step, h: nat)
    requires p.Valid() && Enabled(p, step) && DirectLink.SendsUnit(p, step, h)
    ensures var fs := Frames(p, step); fs != [] && fs[0].Shape? && fs[0].hold == h
  {
    if step.ReShape? {
      PrunedShapes(p, h, step.shape);
    } else {
      FlushReady(p);
    }
  }

  // ------------------------------------------------------------------------------------------------ every step

  lemma ProvideUpstream(p: Provider, got: map<Key, Replica>, step: Step)
    requires Upstream(p, got) && Enabled(p, step)
    ensures var q := Next(p, step); Upstream(q, got) && q.conn.out == p.conn.out + Frames(p, step)
  {
    var q := Next(p, step);
    forall k
      ensures q.Valid() && q.conn.out == p.conn.out + Frames(p, step)
              && q.Serves(k, TakeAll(At(got, k), k, q.conn.out))
    {
      hide Provider.Valid, Provider.Serves, Enabled, Next, Frames;
      var t := TakeAll(At(got, k), k, p.conn.out);
      assert p.Serves(k, t);
      StepFollows(p, step, k, t);
      TakeAllConcat(At(got, k), k, p.conn.out, Frames(p, step));
    }
    assert q.Serves(Key(0, ""), TakeAll(At(got, Key(0, "")), Key(0, ""), q.conn.out));
  }

  lemma ProvideInv(s: Chain, step: Step)
    requires Upstream(s.p, s.got) && Fresh(s.p, s.r) && Recovering(s.p, s.r.origin) && Enabled(s.p, step)
    ensures var q := Next(s.p, step); Upstream(q, s.got) && Fresh(q, s.r) && Recovering(q, s.r.origin)
  {
    hide Provider.Valid, Provider.Serves, Enabled, Next, Frames, Coming, ShapeFirst, ShapeIn;
    var q := Next(s.p, step);
    ProvideUpstream(s.p, s.got, step);
    forall h | h !in s.r.shaped
      ensures ShapeFirst(q.conn.out, h)
      ensures forall k :: k in q.feeds && k.hold == h ==> ShapeIn(q.conn.out, h)
    {
      StepShapeFirst(s.p, step, h);
    }
    forall k | k in s.r.origin.awaiting && k in q.feeds
      ensures k in s.r.origin.asks || Coming(q, k)
    {
      if k !in s.r.origin.asks {
        StepComing(s.p, step, k);
      }
    }
  }

  lemma ForwardUpstream(s: Chain)
    requires Upstream(s.p, s.got) && s.p.conn.out != []
    ensures var t := Act(s, Forward); Upstream(t.p, t.got)
    ensures forall k :: !Take(At(s.got, k), k, s.p.conn.out[0]).Corrupt?
  {
    var out := s.p.conn.out;
    var p := s.p.(conn := s.p.conn.(out := out[1..]));
    DirectLink.ReceiveValid(s.p);
    assert Act(s, Forward).p == p && Act(s, Forward).got == TakeIn(s.got, out[0]);
    hide Provider.Valid, Act;
    forall k
      ensures p.Serves(k, TakeAll(At(TakeIn(s.got, out[0]), k), k, out[1..])) && !Take(At(s.got, k), k, out[0]).Corrupt?
    {
      assert s.p.Serves(k, TakeAll(At(s.got, k), k, out));
      TakenFirst(s.got, k, out);
    }
  }

  lemma TakenFirst(got: map<Key, Replica>, k: Key, out: seq<Frame>)
    requires out != [] && !TakeAll(At(got, k), k, out).Corrupt?
    ensures TakeAll(At(TakeIn(got, out[0]), k), k, out[1..]) == TakeAll(At(got, k), k, out)
    ensures !Take(At(got, k), k, out[0]).Corrupt?
  {
    TakeAllFirst(At(got, k), k, out);
    CorruptStays(k, out[1..]);
    hide TakeAll;
  }

  lemma ForwardFresh(s: Chain)
    requires s.p.Valid()
    requires s.p.conn.out != [] && Fresh(s.p, s.r) && s.r.origin.Relayed()
    ensures var t := Act(s, Forward); Fresh(t.p, t.r)
  {
    hide Provider.Valid;
    var out := s.p.conn.out;
    var f := out[0];
    var t := Act(s, Forward);
    if f.Base? || f.Ops? {
      StateAsks(s.r, f);
      assert f.key.hold !in s.r.shaped ==> ShapeFirst(out, f.key.hold);
    }
    forall k | k in t.p.feeds
      ensures k.hold in t.r.shaped || ShapeIn(t.p.conn.out, k.hold)
    {
      if k.hold !in t.r.shaped {
        var i :| 0 <= i < |out| && out[i].Shape? && out[i].hold == k.hold;
        assert t.p.conn.out[i - 1] == out[i];
      }
    }
    forall h | h !in t.r.shaped
      ensures ShapeFirst(t.p.conn.out, h)
    {
      assert ShapeFirst(out, h);
    }
  }

  lemma ForwardRecovering(s: Chain)
    requires s.p.Valid()
    requires s.p.conn.out != [] && Recovering(s.p, s.r.origin) && s.r.origin.Relayed()
    ensures var t := Act(s, Forward); Recovering(t.p, t.r.origin)
  {
    hide Provider.Valid;
    var out := s.p.conn.out;
    var f := out[0];
    var t := Act(s, Forward);
    if f.Base? || f.Ops? {
      StateAsks(s.r, f);
    }
    forall k | k in t.r.origin.awaiting && k in t.p.feeds
      ensures k in t.r.origin.asks || Coming(t.p, k)
    {
      if k in s.r.origin.awaiting && k !in t.r.origin.asks && !Promised(s.p.conn, k) {
        var i :| 0 <= i < |out| && out[i].Base? && out[i].key == k;
        assert i > 0;
        assert t.p.conn.out[i - 1] == out[i];
      }
    }
  }

  lemma ForwardInv(s: Chain)
    requires Inv(s) && s.p.conn.out != []
    ensures Inv(Act(s, Forward))
  {
    hide Provider.Valid;
    ForwardUpstream(s);
    ForwardFresh(s);
    ForwardRecovering(s);
    PassDownstream(s.r, s.p.conn.out[0], s.got, s.seen);
  }

  lemma FlushDownstream(o: Conn, k: Key, got: map<Key, Replica>, seen: map<Key, Replica>)
    requires Downstream(o, got, seen) && k in o.slots
    ensures Downstream(o.FlushSlot(k), got, seen)
  {
    var fs := SlotFrames(k, o.slots[k]);
    var d := o.FlushSlot(k);
    FlushSlotSends(o, k);
    assert k !in o.awaiting by {
      assert Caught(o, k, TakeAll(At(seen, k), k, o.out), At(got, k));
    }
    hide Conn.FlushSlot, SlotFrames, Play, TakeAll, Caught;
    forall x
      ensures var t := TakeAll(At(seen, x), x, d.out); !t.Corrupt? && Caught(d, x, t, At(got, x))
    {
      FlushDownstreamOne(o, k, x, TakeAll(At(seen, x), x, o.out), At(got, x));
      TakeAllConcat(At(seen, x), x, o.out, fs);
    }
  }

  lemma FlushDownstreamOne(o: Conn, k: Key, x: Key, t: Replica, target: Replica)
    requires k in o.slots && !o.slots[k].lazy && k !in o.awaiting
    requires !t.Corrupt? && !target.Corrupt? && Caught(o, x, t, target)
    ensures var u := TakeAll(t, x, SlotFrames(k, o.slots[k])); !u.Corrupt? && Caught(o.FlushSlot(k), x, u, target)
  {
    FlushSlotCaught(o, k, x, t, target);
    FlushSlotSends(o, k);
    if x != k {
      FlushedElsewhere(k, o.slots[k], x, t);
    }
    hide Conn.FlushSlot, SlotFrames, Play, TakeAll;
  }

  lemma FlushInv(s: Chain)
    requires Inv(s) && Can(s, Flush)
    ensures Inv(Act(s, Flush))
  {
    var o := s.r.origin;
    var k := o.order[0].key;
    FlushDownstream(o, k, s.got, s.seen);
    SendAllOut(o.Remove(k), SlotFrames(k, o.slots[k]));
    hide Upstream, Tracks, Downstream, ShapeFirst, ShapeIn, Coming;
  }

  lemma BusyInv(s: Chain)
    requires Inv(s)
    ensures Inv(Act(s, Busy))
  {
    BusyDownstream(s.r.origin, s.got, s.seen);
    hide Provider.Valid, Tracks, Upstream, Downstream, ShapeFirst, ShapeIn, Coming;
  }

  lemma BusyDownstream(o: Conn, got: map<Key, Replica>, seen: map<Key, Replica>)
    requires Downstream(o, got, seen)
    ensures Downstream(o.Send(Other), got, seen)
  {
    var d := o.Send(Other);
    assert d.slots == o.slots && d.awaiting == o.awaiting && d.out == o.out + [Other];
    hide Conn.Send;
    forall x
      ensures var t := TakeAll(At(seen, x), x, d.out); !t.Corrupt? && Caught(d, x, t, At(got, x))
    {
      var t := TakeAll(At(seen, x), x, o.out);
      assert !t.Corrupt? && Caught(o, x, t, At(got, x));
      TakeAllConcat(At(seen, x), x, o.out, [Other]);
      TakeAllOne(t, x, [Other]);
      hide TakeAll, Play;
    }
  }

  lemma ConsumeDownstream(o: Conn, got: map<Key, Replica>, seen: map<Key, Replica>)
    requires Downstream(o, got, seen) && o.out != []
    ensures Downstream(o.(out := o.out[1..]), got, TakeIn(seen, o.out[0]))
    ensures forall k :: !Take(At(seen, k), k, o.out[0]).Corrupt?
  {
    var d := o.(out := o.out[1..]);
    var next := TakeIn(seen, o.out[0]);
    forall x
      ensures var u := TakeAll(At(next, x), x, d.out); !u.Corrupt? && Caught(d, x, u, At(got, x))
      ensures !Take(At(seen, x), x, o.out[0]).Corrupt?
    {
      var u := TakeAll(At(seen, x), x, o.out);
      assert !u.Corrupt? && Caught(o, x, u, At(got, x));
      TakeAllFirst(At(seen, x), x, o.out);
      CorruptStays(x, o.out[1..]);
    }
  }

  lemma ConsumeInv(s: Chain)
    requires Inv(s) && s.r.origin.out != []
    ensures Inv(Act(s, Consume))
  {
    ConsumeDownstream(s.r.origin, s.got, s.seen);
    ConsumeTracks(s.b, s.hold, s.seen, s.r.origin.out[0]);
    hide Upstream, Tracks, Downstream, ShapeFirst, ShapeIn, Coming, TakeIn;
  }

  /** A binding that lets go of a member never applies ops to it again before its next snapshot. */
  lemma ConsumeTracks(b: Binding, hold: nat, seen: map<Key, Replica>, f: Frame)
    requires Tracks(b, hold, seen) && (forall k :: !Take(At(seen, k), k, f).Corrupt?)
    ensures Tracks(b.Receive(hold, f), hold, TakeIn(seen, f))
  {
    match f
    case Shape(h, variant, names, listed) =>
      if h == hold {
        ShapeHolds(b, Shaped(variant, names), listed);
      }
    case Base(k, start) =>
      assert !Take(At(seen, k), k, f).Corrupt?;
      if k.hold == hold {
        StateTracks(b, hold, seen, k.member, f);
      }
    case Ops(k, ops, size) =>
      assert !Take(At(seen, k), k, f).Corrupt?;
      if k.hold == hold {
        StateTracks(b, hold, seen, k.member, f);
      }
    case Other =>
  }

  /** Applying a shape keeps each member's value or lets it go. */
  lemma ApplyHolds(b: Binding)
    requires b.pending.Some?
    ensures forall m :: Held(b.Apply(), m) == Held(b, m) || Held(b.Apply(), m).Unknown?
    ensures forall m :: m in b.Apply().members ==> b.Apply().InVariant(m)
  {
  }

  lemma ShapeHolds(b: Binding, shape: Shaped, listed: seq<string>)
    requires forall m :: m in b.members ==> b.InVariant(m)
    ensures var c := b.Shape(shape, listed);
            && (forall m :: Held(c, m) == Held(b, m) || Held(c, m).Unknown?)
            && (forall m :: m in c.members ==> c.InVariant(m))
  {
    var before := if b.pending.Some? then b.pending.value.missing else {};
    var values := if b.pending.Some? then b.pending.value.values else map[];
    var missing := ((set m | m in listed) + before) * b.Wanted(shape);
    var c := b.(pending := Some(Incoming(shape, missing, values)));
    assert forall m :: Held(c, m) == Held(b, m);
    ApplyHolds(c);
  }

  lemma StateTracks(b: Binding, hold: nat, seen: map<Key, Replica>, m: string, f: Frame)
    requires Tracks(b, hold, seen) && (f.Base? || f.Ops?) && f.key == Key(hold, m)
    requires !Take(At(seen, f.key), f.key, f).Corrupt?
    ensures Tracks(b.State(m, f), hold, TakeIn(seen, f))
  {
    var c := b.State(m, f);
    StateHolds(b, m, f);
    assert Held(b, m) == At(seen, f.key) || Held(b, m).Unknown?;
    forall x
      ensures Held(c, x) == At(TakeIn(seen, f), Key(hold, x)) || Held(c, x).Unknown?
    {
      assert Held(b, x) == At(seen, Key(hold, x)) || Held(b, x).Unknown?;
    }
  }

  lemma StateHolds(b: Binding, m: string, f: Frame)
    requires (f.Base? || f.Ops?) && (forall x :: x in b.members ==> b.InVariant(x))
    ensures var c := b.State(m, f);
            && (forall x :: x != m ==> Held(c, x) == Held(b, x) || Held(c, x).Unknown?)
            && (Held(c, m).Unknown? || Held(c, m) == if f.Base? then Started(f.start) else Play(Held(b, m), f.ops))
            && (forall x :: x in c.members ==> c.InVariant(x))
  {
    if f.Base? && b.pending.Some? && (m in b.pending.value.missing || m in b.pending.value.values) {
      var p := b.pending.value;
      var d := b.(pending := Some(Incoming(p.shape, p.missing - {m}, p.values[m := Started(f.start)])));
      assert forall x :: Held(d, x) == if x == m then Started(f.start) else Held(b, x);
      ApplyHolds(d);
      hide Binding.Apply;
    } else {
      assert forall x :: x != m ==> Held(b.State(m, f), x) == Held(b, x);
    }
  }

  lemma ActInv(s: Chain, a: Action)
    requires Inv(s) && Can(s, a)
    ensures Inv(Act(s, a))
  {
    hide Provider.Valid, Fresh, Recovering, Tracks;
    match a
    case Provide(step) => ProvideInv(s, step);
    case Forward => ForwardInv(s);
    case Flush => FlushInv(s);
    case Ack(n) => BackInv(s, a);
    case Hello(acks) => BackInv(s, a);
    case Busy => BusyInv(s);
    case Consume => ConsumeInv(s);
    case AskArrives => AskInv(s);
  }

  lemma BackInv(s: Chain, a: Action)
    requires Inv(s) && Can(s, a) && (a.Ack? || a.Hello?)
    ensures Inv(Act(s, a))
  {
    hide Provider.Valid, Tracks;
    var o, d := s.r.origin, Act(s, a).r.origin;
    assert forall k, t, target :: Caught(d, k, t, target) <==> Caught(o, k, t, target);
  }

  lemma AskInv(s: Chain)
    requires Inv(s) && Can(s, AskArrives)
    ensures Inv(Act(s, AskArrives))
  {
    hide Provider.Valid, Tracks, Fresh;
    var o := s.r.origin;
    var t := Act(s, AskArrives);
    ProvideInv(s, Resync(o.asks[0]));
    assert t.p == Next(s.p, Resync(o.asks[0]));
    assert Fresh(t.p, t.r) by {
      AskFresh(t.p, s.r);
    }
    assert forall k, u, target :: Caught(t.r.origin, k, u, target) <==> Caught(o, k, u, target);
    forall k | k in t.r.origin.awaiting && k in t.p.feeds
      ensures k in t.r.origin.asks || Coming(t.p, k)
    {
    }
  }

  lemma AskFresh(p: Provider, r: Relay)
    requires Fresh(p, r) && r.origin.asks != []
    ensures Fresh(p, r.(origin := r.origin.(asks := r.origin.asks[1..])))
  {
  }

  // ------------------------------------------------------------------------------------------------------- runs

  ghost predicate Leads(s: Chain, t: Chain) {
    s.p.Valid() && exists a :: Can(s, a) && t == Act(s, a)
  }

  ghost predicate IsRun(run: seq<Chain>) {
    run != [] && Init(run[0]) && forall i :: 0 <= i < |run| - 1 ==> Leads(run[i], run[i + 1])
  }

  lemma InitInv(s: Chain)
    requires Init(s)
    ensures Inv(s)
  {
  }

  lemma {:induction false} RunInv(run: seq<Chain>)
    requires IsRun(run)
    ensures Inv(run[|run| - 1])
  {
    hide Inv, Init, Leads;
    if |run| == 1 {
      InitInv(run[0]);
    } else {
      var init := run[..|run| - 1];
      assert forall i :: 0 <= i < |init| - 1 ==> Leads(init[i], init[i + 1]);
      RunInv(init);
      assert Leads(run[|run| - 2], run[|run| - 1]);
      LeadsInv(init[|init| - 1], run[|run| - 1]);
    }
  }

  lemma LeadsInv(s: Chain, t: Chain)
    requires Inv(s) && Leads(s, t)
    ensures Inv(t)
  {
    hide Inv, Provider.Valid, Act;
    var a :| Can(s, a) && t == Act(s, a);
    ActInv(s, a);
  }

  /**
   Through a relay that drops whatever it must, the consumer never applies ops to a value they were not computed from:
   what it holds of a member is never nonsense.
   */
  lemma NeverMisapplies(run: seq<Chain>, m: string)
    requires IsRun(run)
    ensures var s := run[|run| - 1]; !Held(s.b, m).Corrupt?
  {
    RunInv(run);
    var s := run[|run| - 1];
    var k := Key(s.hold, m);
    var out := s.r.origin.out;
    assert Held(s.b, m) == At(s.seen, k) || Held(s.b, m).Unknown?;
    assert !TakeAll(At(s.seen, k), k, out).Corrupt?;
    CorruptStays(k, out);
  }

  /**
   Unless its reset is awaited, the frames forwarded of a member, then what waits at the relay, fold to what the relay
   received of it; while it is awaited nothing of it waits, and the reset is asked for, promised or on its way.
   */
  lemma ForwardsWhatItReceived(run: seq<Chain>, k: Key)
    requires IsRun(run)
    ensures var s := run[|run| - 1];
            var o := s.r.origin;
            var t := TakeAll(At(s.seen, k), k, o.out);
            if k !in o.awaiting then
              (if k in o.slots then
                 Play(if o.slots[k].base.Some? then Started(o.slots[k].base.value) else t, o.slots[k].ops)
               else t) == At(s.got, k)
            else k !in o.slots && (k in s.p.feeds ==> k in o.asks || Coming(s.p, k))
  {
    RunInv(run);
    var s := run[|run| - 1];
    assert Caught(s.r.origin, k, TakeAll(At(s.seen, k), k, s.r.origin.out), At(s.got, k));
  }

  /** Once nothing is on the way or waiting anywhere, a member the consumer holds has the source's value. */
  lemma QuietChainEqual(run: seq<Chain>, k: Key)
    requires IsRun(run)
    requires var s := run[|run| - 1];
             && k in s.p.feeds && k.hold == s.hold && s.p.feeds[k].queued == []
             && s.p.conn.out == [] && k !in s.p.conn.slots
             && s.r.origin.out == [] && s.r.origin.asks == [] && k !in s.r.origin.slots
    ensures var s := run[|run| - 1];
            && k !in s.r.origin.awaiting && k in s.p.current
            && At(s.seen, k).Known? && At(s.seen, k).value == s.p.current[k]
            && (Held(s.b, k.member).Known? ==> Held(s.b, k.member).value == s.p.current[k])
  {
    RunInv(run);
    ForwardsWhatItReceived(run, k);
    var s := run[|run| - 1];
    assert s.p.Serves(k, TakeAll(At(s.got, k), k, s.p.conn.out));
    assert k == Key(s.hold, k.member);
    assert Held(s.b, k.member) == At(s.seen, k) || Held(s.b, k.member).Unknown?;
  }
}
