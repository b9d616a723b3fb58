/**
 Every operation of the provider keeps its promise to the peer: what the link carries and what waits in a slot add up to
 the member's value (packages/chord/src/connection.ts:468-609, 936-1080).
 */
module Replication {
  import opened Streams
  import opened FlowControl
  import opened Providing

  /** What a provider can do, in the order the single thread and the peer's frames happen to choose. */
  datatype Step =
    | Write(key: Key, event: Event)
    | Deliver(key: Key)
    | ReShape(hold: nat, shape: Shaped)
    | FlushOne
    | Resync(key: Key)
    | DropHold(hold: nat)
    | SendOther
    | Acknowledged(n: nat)
    | PeerHello(acks: bool)

  ghost predicate Enabled(p: Provider, s: Step) {
    match s
    case Write(k, _) => k in p.current
    case Deliver(k) => k in p.feeds && p.feeds[k].queued != []
    case ReShape(h, shape) => p.(shapes := p.shapes[h := shape]).Readable(h) && Distinct(shape.members)
    case FlushOne => p.conn.order != [] && !p.conn.Full()
    case Acknowledged(n) => p.conn.AckInRange(n)
    case _ => true
  }

  ghost function Next(p: Provider, s: Step): (q: Provider)
    requires p.Valid() && Enabled(p, s)
  {
    match s
    case Write(k, event) => p.Write(k, event)
    case Deliver(k) => p.Deliver(k)
    case ReShape(h, shape) => p.ReShape(h, shape)
    case FlushOne => FlushReady(p); p.FlushOne()
    case Resync(k) => p.Resync(k)
    case DropHold(h) => p.DropHold(h)
    case SendOther => p.(conn := p.conn.Send(Other))
    case Acknowledged(n) => p.(conn := p.conn.Acknowledge(n))
    case PeerHello(acks) => p.(conn := p.conn.Hello(acks))
  }

  lemma FlushReady(p: Provider)
    requires p.Valid() && p.conn.order != []
    ensures var first := p.conn.order[0];
            if first.UnitSlot? then p.Readable(first.hold)
            else first.key in p.conn.slots && first.key in p.feeds && first.key in p.current
  {
    var first := p.conn.order[0];
    assert first in p.conn.order;
    if first.UnitSlot? && first.hold !in p.shapes {
      assert p.Members(first.hold) == [];
    }
  }

  /** `q` follows `p` by sending `fs`: whatever of `x` the peer lacked then and lacks now is what waits for it. */
  ghost predicate Follows(p: Provider, q: Provider, fs: seq<Frame>, x: Key, t: Replica) {
    q.Valid() && q.conn.out == p.conn.out + fs && q.Serves(x, TakeAll(t, x, fs))
  }

  lemma Quiet(p: Provider, q: Provider, x: Key, t: Replica)
    requires q.conn.out == p.conn.out && q.Valid() && q.Serves(x, t)
    ensures Follows(p, q, [], x, t)
  {
    hide Provider.Valid, Provider.Serves;
    assert p.conn.out + [] == p.conn.out;
  }

  lemma ShapesSame(p: Provider, q: Provider)
    requires p.ShapesOk() && q.shapes == p.shapes && q.contracts == p.contracts
    requires q.current.Keys == p.current.Keys && q.feeds.Keys <= p.feeds.Keys
    ensures q.ShapesOk()
  {
    forall h | h in q.shapes
      ensures q.Readable(h)
    {
      assert p.Readable(h) && q.Members(h) == p.Members(h);
    }
    assert forall h :: q.Members(h) == p.Members(h);
  }

  /** The same shapes and values, with no stream the old state did not have. */
  lemma SameOk(p: Provider, q: Provider)
    requires p.ShapesOk() && p.FeedsOk()
    requires q.shapes == p.shapes && q.contracts == p.contracts && q.current == p.current
    requires forall k :: k in q.feeds ==> k in p.feeds && q.feeds[k] == p.feeds[k]
    ensures q.ShapesOk() && q.FeedsOk()
  {
    hide Provider.ShapesOk;
    ShapesSame(p, q);
  }

  lemma WriteFollows(p: Provider, k: Key, event: Event, x: Key, t: Replica)
    requires p.Valid() && p.Serves(x, t) && k in p.current
    ensures Follows(p, p.Write(k, event), [], x, t)
  {
    hide Conn.Counted, Provider.ShapesOk, Provider.FeedsOk;
    var q := p.Write(k, event);
    WriteFeeds(p, k, event);
    ShapesSame(p, q);
    Quiet(p, q, x, t);
  }

  /** The source's value moves, and a listener that follows it has the event to come, after what was queued. */
  lemma WriteMoves(p: Provider, k: Key, event: Event)
    requires k in p.current
    ensures var q := p.Write(k, event);
            && q.current.Keys == p.current.Keys && (forall x :: x in q.current && x != k ==> q.current[x] == p.current[x])
            && q.current[k] == (if event.ResetEvent? then event.value else Apply(p.current[k], event.ops))
            && q.feeds.Keys == p.feeds.Keys && q.conn == p.conn
            && (forall x :: x in q.feeds ==>
                  q.feeds[x] == p.feeds[x].(queued := if x == k then p.feeds[x].queued + [event] else p.feeds[x].queued))
  {
    assert [event][..|[event]| - 1] == [];
    assert After(p.current[k], []) == p.current[k];
    assert After(p.current[k], [event]) == if event.ResetEvent? then event.value else Apply(p.current[k], event.ops);
  }

  /** Ops go as ops, numbered on from the ones before; only a reset starts a new stream. */
  lemma DeliverStreams(p: Provider, k: Key)
    requires k in p.feeds && p.feeds[k].queued != []
    ensures var f, event := NextFrame(p, k), p.feeds[k].queued[0];
            && f.key == k && (f.Ops? <==> event.OpsEvent?) && (f.Base? <==> event.ResetEvent?)
            && (f.Ops? ==> |f.ops| == |event.ops| && forall i :: 0 <= i < |f.ops| ==>
                  f.ops[i] == Wire(p.feeds[k].stream, p.feeds[k].next + i, event.ops[i]))
            && p.Deliver(k).feeds.Keys == p.feeds.Keys && p.Deliver(k).feeds[k].queued == p.feeds[k].queued[1..]
  {
    var feed := p.feeds[k];
    if feed.queued[0].OpsEvent? {
      EncodeAt(feed.stream, feed.next, feed.queued[0].ops);
    }
  }

  lemma {:induction false} EncodeAt(stream: nat, next: nat, ops: seq<Op>)
    ensures forall i :: 0 <= i < |ops| ==> Encode(stream, next, ops)[i] == Wire(stream, next + i, ops[i])
    decreases |ops|
  {
    if ops != [] {
      EncodeAt(stream, next + 1, ops[1..]);
      var wires, rest := Encode(stream, next, ops), Encode(stream, next + 1, ops[1..]);
      forall i | 0 <= i < |ops|
        ensures wires[i] == Wire(stream, next + i, ops[i])
      {
        if i > 0 {
          assert wires[i] == rest[i - 1] && ops[1..][i - 1] == ops[i];
        }
      }
    }
  }

  lemma WriteFeeds(p: Provider, k: Key, event: Event)
    requires p.FeedsOk() && k in p.current
    ensures p.Write(k, event).FeedsOk()
  {
    if k in p.feeds {
      var all := p.feeds[k].queued + [event];
      assert all[..|all| - 1] == p.feeds[k].queued;
      assert After(p.current[k], [event][..0]) == p.current[k] by {
        assert [event][..0] == [];
      }
      assert After(p.feeds[k].seen, all) == After(p.current[k], [event]);
    }
  }

  /** The frame `#feedEvent` makes of the next event of `k`. */
  function NextFrame(p: Provider, k: Key): (f: Frame)
    requires k in p.feeds && p.feeds[k].queued != []
  {
    var feed := p.feeds[k];
    match feed.queued[0]
    case OpsEvent(ops, size) => Ops(k, Encode(feed.stream, feed.next, ops), size)
    case ResetEvent(value) => Base(k, Start(value, p.nextStream))
  }

  /** It takes the peer's decoder to where the encoder is, and the followed value one event further. */
  lemma NextFrameTarget(p: Provider, k: Key)
    requires k in p.feeds && p.feeds[k].queued != []
    ensures var f := NextFrame(p, k);
            p.Deliver(k).conn == p.conn.SendState(f, false)
            && Take(p.feeds[k].Target(), k, f) == p.Deliver(k).feeds[k].Target()
  {
    var feed := p.feeds[k];
    if feed.queued[0].OpsEvent? {
      PlayEncoded(feed.seen, feed.stream, feed.next, feed.queued[0].ops);
    }
  }

  lemma DeliverFollows(p: Provider, k: Key, x: Key, t: Replica)
    requires p.Valid() && p.Serves(x, t) && k in p.feeds && p.feeds[k].queued != []
    ensures Follows(p, p.Deliver(k), Passed(p.conn, NextFrame(p, k)), x, t)
  {
    DeliverValid(p, k);
    DeliverServes(p, k, x, t);
  }

  lemma DeliverServes(p: Provider, k: Key, x: Key, t: Replica)
    requires p.ConnOk() && p.Serves(x, t) && k in p.feeds && p.feeds[k].queued != []
    ensures var q := p.Deliver(k);
            var fs := Passed(p.conn, NextFrame(p, k));
            q.conn.out == p.conn.out + fs && q.Serves(x, TakeAll(t, x, fs))
  {
    hide Conn.Counted;
    var f := NextFrame(p, k);
    NextFrameTarget(p, k);
    if x in p.feeds {
      SendStateCaught(p.conn, f, false, x, t, p.feeds[x].Target());
      TakeAllOne(t, x, Passed(p.conn, f));
    } else {
      SendStateAdds(p.conn, f, false);
      TakeAllOther(t, x, Passed(p.conn, f));
    }
  }

  lemma DeliverValid(p: Provider, k: Key)
    requires p.Valid() && k in p.feeds && p.feeds[k].queued != []
    ensures p.Deliver(k).Valid()
  {
    var q := p.Deliver(k);
    var f := NextFrame(p, k);
    NextFrameTarget(p, k);
    SendStateCounted(p.conn, f, false);
    SendStateLocal(p.conn, f);
    ShapesSame(p, q);
    DeliverFeeds(p, k);
  }

  lemma DeliverFeeds(p: Provider, k: Key)
    requires p.FeedsOk() && k in p.feeds && p.feeds[k].queued != []
    ensures p.Deliver(k).FeedsOk()
  {
    var feed := p.feeds[k];
    AfterFirst(feed.seen, feed.queued);
    assert [feed.queued[0]][..0] == [];
  }

  /** A local frame changes only its own slot, or turns others lazy. */
  lemma SendStateLocal(c: Conn, f: Frame)
    requires c.Local() && (f.Base? || f.Ops?)
    ensures c.SendState(f, false).Local()
    ensures forall k :: k in c.SendState(f, false).slots ==> k in c.slots || k == f.key
  {
    var e := c.NewSlot(f.key, false);
    if !(f.key !in c.slots && !c.Full()) && f.Ops? && !e.slots[f.key].lazy {
      MakeRoomLocal(e, e.order, f.size, f.key);
    }
  }

  lemma {:induction false} MakeRoomLocal(c: Conn, todo: seq<SlotKey>, size: nat, current: Key)
    requires c.Local() && current in c.slots
    ensures c.MakeRoom(todo, size, current).Local()
    ensures c.MakeRoom(todo, size, current).slots.Keys == c.slots.Keys
    decreases |todo|
  {
    if c.pendingBytes + size > c.cap && todo != [] {
      if c.Droppable(todo[0], current) {
        MakeRoomLocal(c.Drop(todo[0].key), todo[1..], size, current);
      } else {
        MakeRoomLocal(c, todo[1..], size, current);
      }
    }
  }

  /** Nothing but the frame itself goes out. */
  lemma SendStateAdds(c: Conn, f: Frame, relay: bool)
    requires f.Base? || f.Ops?
    ensures c.SendState(f, relay).out == c.out + Passed(c, f)
  {
    if Passed(c, f) == [] {
      var e := c.NewSlot(f.key, relay);
      if f.Ops? && !e.slots[f.key].lazy {
        MakeRoomOut(e, e.order, f.size, f.key);
      }
      assert c.out + [] == c.out;
    }
  }

  /** A full window sends nothing, and an open one whatever no slot waits for; nothing overtakes what waits. */
  lemma WindowHonoured(c: Conn, f: Frame, relay: bool)
    requires f.Base? || f.Ops?
    ensures var full := c.peerAcks == Some(true) && c.unackedBytes >= c.window;
            c.SendState(f, relay).out == if full || f.key in c.slots then c.out else c.out + [f]
  {
    SendStateAdds(c, f, relay);
    assert c.out + [] == c.out;
  }

  lemma {:induction false} MakeRoomOut(c: Conn, todo: seq<SlotKey>, size: nat, current: Key)
    requires current in c.slots
    ensures c.MakeRoom(todo, size, current).out == c.out
    decreases |todo|
  {
    if c.pendingBytes + size > c.cap && todo != [] {
      MakeRoomOut(if c.Droppable(todo[0], current) then c.Drop(todo[0].key) else c, todo[1..], size, current);
    }
  }

  // ------------------------------------------------------------------------------------------------- units

  /** Attaching `names` makes one snapshot each, in order, and leaves every other stream alone. */
  lemma {:induction false} AttachAllShape(p: Provider, h: nat, names: seq<string>)
    requires forall m :: m in names ==> Key(h, m) in p.current
    ensures var (q, frames) := p.AttachAll(h, names);
            && q == p.(feeds := q.feeds, nextStream := q.nextStream)
            && |frames| == |names|
            && (forall i :: 0 <= i < |names| ==> frames[i].Base? && frames[i].key == Key(h, names[i]))
            && (forall k :: k in q.feeds <==> k in p.feeds || (k.hold == h && k.member in names))
            && (forall k :: k in q.feeds ==>
                  if k.hold == h && k.member in names then q.feeds[k].seen == p.current[k] && q.feeds[k].queued == []
                  else q.feeds[k] == p.feeds[k])
    decreases |names|
  {
    if names != [] {
      AttachAllShape(p.Attach(Key(h, names[0])), h, names[1..]);
    }
  }

  /** Once the peer took the snapshots, it knows each of `names` as its new feed does. */
  lemma {:induction false} AttachAllTaken(p: Provider, h: nat, names: seq<string>, x: Key, t: Replica)
    requires forall m :: m in names ==> Key(h, m) in p.current
    requires !t.Corrupt?
    ensures var (q, frames) := p.AttachAll(h, names);
            if x.hold == h && x.member in names then x in q.feeds && TakeAll(t, x, frames) == q.feeds[x].Target()
            else TakeAll(t, x, frames) == t
    decreases |names|
  {
    if names != [] {
      var k := Key(h, names[0]);
      var r := p.Attach(k);
      var (q, frames) := p.AttachAll(h, names);
      TakeAllFirst(t, x, frames);
      assert frames[1..] == r.AttachAll(h, names[1..]).1;
      AttachAllTaken(r, h, names[1..], x, Take(t, x, frames[0]));
      AttachAllShape(r, h, names[1..]);
    }
  }

  function Unit(p: Provider, h: nat): (fs: seq<Frame>)
    requires p.Readable(h)
  {
    if h in p.shapes then p.UnitFrames(h) else []
  }

  lemma SendUnitFollows(p: Provider, h: nat, x: Key, t: Replica)
    requires p.Valid() && p.Readable(h) && p.Serves(x, t)
    ensures Follows(p, p.SendUnit(h), Unit(p, h), x, t)
  {
    hide Conn.Counted, Provider.ShapesOk, Provider.FeedsOk;
    UnitsCounted(p.conn, h);
    var q := p.(conn := p.conn.ForgetUnit(h));
    SameOk(p, q);
    if h !in p.shapes {
      Quiet(p, q, x, t);
    } else {
      ForgetUnitFrames(p, h);
      UnitSentValid(q, h);
      UnitSentServes(q, h, x, t);
    }
  }

  /** A unit does not depend on the connection. */
  lemma ForgetUnitFrames(p: Provider, h: nat)
    requires h in p.shapes && p.Readable(h)
    ensures var q := p.(conn := p.conn.ForgetUnit(h)); q.Readable(h) && q.UnitFrames(h) == p.UnitFrames(h)
  {
    var q := p.(conn := p.conn.ForgetUnit(h));
    assert q.Members(h) == p.Members(h);
    UnfedSame(p, q, h, p.Members(h));
    AttachAllSame(p, q, h, p.Listed(h));
  }

  lemma {:induction false} UnfedSame(p: Provider, q: Provider, h: nat, names: seq<string>)
    requires p.feeds == q.feeds
    ensures p.Unfed(h, names) == q.Unfed(h, names)
  {
    if names != [] {
      UnfedSame(p, q, h, names[1..]);
    }
  }

  lemma {:induction false} AttachAllSame(p: Provider, q: Provider, h: nat, names: seq<string>)
    requires p.current == q.current && p.nextStream == q.nextStream
    requires forall m :: m in names ==> Key(h, m) in p.current
    ensures p.AttachAll(h, names).1 == q.AttachAll(h, names).1
    decreases |names|
  {
    if names != [] {
      AttachAllSame(p.Attach(Key(h, names[0])), q.Attach(Key(h, names[0])), h, names[1..]);
    }
  }

  lemma UnitSentValid(q: Provider, h: nat)
    requires q.Valid() && h in q.shapes && q.Readable(h)
    ensures q.UnitSent(h).Valid()
  {
    var listed := q.Listed(h);
    AttachAllShape(q, h, listed);
    var p := q.UnitSent(h);
    SendAllCounted(q.conn, q.UnitFrames(h));
    SendAllOut(q.conn, q.UnitFrames(h));
    assert p.ShapesOk() by {
      assert forall g :: p.Members(g) == q.Members(g);
      assert forall g :: g in p.shapes ==> q.Readable(g);
    }
  }

  lemma UnitSentServes(q: Provider, h: nat, x: Key, t: Replica)
    requires q.ConnOk() && h in q.shapes && q.Readable(h) && q.Serves(x, t)
    ensures var p := q.UnitSent(h);
            p.conn.out == q.conn.out + q.UnitFrames(h) && p.Serves(x, TakeAll(t, x, q.UnitFrames(h)))
  {
    var listed := q.Listed(h);
    var fs := q.UnitFrames(h);
    SendAllOut(q.conn, fs);
    TakeAllFirst(t, x, fs);
    assert fs[1..] == q.AttachAll(h, listed).1;
    AttachAllTaken(q, h, listed, x, t);
    AttachAllShape(q, h, listed);
  }

  lemma PrunedFollows(p: Provider, h: nat, shape: Shaped, x: Key, t: Replica)
    requires p.Valid() && p.(shapes := p.shapes[h := shape]).Readable(h) && Distinct(shape.members) && p.Serves(x, t)
    ensures Follows(p, p.Pruned(h, shape), [], x, t)
    ensures p.Pruned(h, shape).conn.out == p.conn.out && p.Pruned(h, shape).Readable(h)
  {
    hide Conn.Counted, Provider.ShapesOk, Provider.FeedsOk;
    var r := p.(shapes := p.shapes[h := shape]);
    var q := p.Pruned(h, shape);
    DropGone(p.conn, r.Gone(h));
    PrunedShapes(p, h, shape);
    SameFeeds(p, q);
    Quiet(p, q, x, t);
  }

  lemma PrunedShapes(p: Provider, h: nat, shape: Shaped)
    requires p.ShapesOk() && p.(shapes := p.shapes[h := shape]).Readable(h) && Distinct(shape.members)
    ensures p.Pruned(h, shape).ShapesOk() && p.Pruned(h, shape).Readable(h)
  {
    var q := p.Pruned(h, shape);
    var r := p.(shapes := p.shapes[h := shape]);
    assert forall g :: q.Members(g) == r.Members(g);
    assert forall g :: g != h ==> q.Members(g) == p.Members(g);
    assert forall g :: g != h && g in q.shapes ==> p.Readable(g);
  }

  /** The unit goes out at once, or is queued. */
  function ReShapeFrames(p: Provider, h: nat, shape: Shaped): (fs: seq<Frame>)
    requires p.Pruned(h, shape).Readable(h)
  {
    if p.Pruned(h, shape).Urgent(h) then Unit(p.Pruned(h, shape), h) else []
  }

  lemma ReShapeFollows(p: Provider, h: nat, shape: Shaped, x: Key, t: Replica)
    requires p.Valid() && p.(shapes := p.shapes[h := shape]).Readable(h) && Distinct(shape.members) && p.Serves(x, t)
    ensures p.Pruned(h, shape).Readable(h)
    ensures Follows(p, p.ReShape(h, shape), ReShapeFrames(p, h, shape), x, t)
  {
    hide Conn.Counted, Provider.ShapesOk, Provider.FeedsOk;
    var q := p.Pruned(h, shape);
    PrunedFollows(p, h, shape, x, t);
    if q.Urgent(h) {
      SendUnitFollows(q, h, x, t);
    } else {
      UnitsCounted(q.conn, h);
      QueueFollows(q, h, x, t);
    }
  }

  /**
   Streams of members that stay go on. The first unit of a hold that is no re-hold goes out at once, shape first; any
   other waits, and nothing is sent yet.
   */
  lemma ReShapeSends(p: Provider, h: nat, shape: Shaped)
    requires p.Valid() && p.(shapes := p.shapes[h := shape]).Readable(h) && Distinct(shape.members)
    requires p.Pruned(h, shape).Readable(h)
    ensures var q, stays := p.ReShape(h, shape), p.(shapes := p.shapes[h := shape]).Members(h);
            && q.shapes == p.shapes[h := shape]
            && (forall k :: k in p.feeds && (k.hold != h || k.member in stays) ==> k in q.feeds && q.feeds[k] == p.feeds[k])
            && (if (forall m :: m in stays ==> Key(h, m) !in p.feeds) && !(h in p.again && h !in p.unitSent) then
                  |q.conn.out| > |p.conn.out| && q.conn.out[|p.conn.out|] == Shape(h, shape.variant, shape.members, stays)
                else q.conn.out == p.conn.out && h in q.conn.units && forall k :: k in q.feeds ==> k in p.feeds)
  {
    var r := p.Pruned(h, shape);
    var stays := p.(shapes := p.shapes[h := shape]).Members(h);
    DropGone(p.conn, p.(shapes := p.shapes[h := shape]).Gone(h));
    PrunedLeaves(p, h, shape);
    hide Provider.Valid, Provider.Pruned, Provider.SendUnit;
    if r.Urgent(h) {
      UnitOpens(r, h, stays);
    }
  }

  lemma PrunedLeaves(p: Provider, h: nat, shape: Shaped)
    requires p.ConnOk()
    ensures var r, stays := p.Pruned(h, shape), p.(shapes := p.shapes[h := shape]).Members(h);
            && r.shapes == p.shapes[h := shape] && r.Members(h) == stays && r.conn.out == p.conn.out
            && r.again == p.again && r.unitSent == p.unitSent && r.current == p.current
            && (forall k :: k in r.feeds <==> k in p.feeds && (k.hold != h || k.member in stays))
            && (forall k :: k in r.feeds ==> r.feeds[k] == p.feeds[k])
  {
    DropGone(p.conn, p.(shapes := p.shapes[h := shape]).Gone(h));
    hide Conn.Counted, Conn.DropStates, StateMembers;
  }

  /** A unit of a hold that has no streams yet lists every state member. */
  lemma UnitOpens(r: Provider, h: nat, stays: seq<string>)
    requires h in r.shapes && r.Readable(h) && r.Members(h) == stays && forall k :: k in r.feeds ==> k.hold != h
    ensures var q, shape := r.SendUnit(h), r.shapes[h];
            && |q.conn.out| > |r.conn.out| && q.conn.out[|r.conn.out|] == Shape(h, shape.variant, shape.members, stays)
            && q.shapes == r.shapes && forall k :: k in r.feeds ==> k in q.feeds && q.feeds[k] == r.feeds[k]
  {
    var p := r.(conn := r.conn.ForgetUnit(h));
    assert p.Members(h) == stays;
    AllUnfed(p, h, stays);
    AttachAllShape(p, h, p.Listed(h));
    SendAllOut(p.conn, p.UnitFrames(h));
    assert p.UnitFrames(h)[0] == Shape(h, r.shapes[h].variant, r.shapes[h].members, stays);
    hide Provider.AttachAll, Conn.SendAll, Provider.UnitFrames, Provider.Unfed;
  }

  lemma {:induction false} AllUnfed(p: Provider, h: nat, names: seq<string>)
    requires forall m :: m in names ==> Key(h, m) !in p.feeds
    ensures p.Unfed(h, names) == names
  {
    if names != [] {
      AllUnfed(p, h, names[1..]);
    }
  }

  lemma QueueFollows(p: Provider, h: nat, x: Key, t: Replica)
    requires p.Valid() && p.Serves(x, t) && p.conn.QueueUnit(h).Counted()
    ensures Follows(p, p.(conn := p.conn.QueueUnit(h)), [], x, t)
  {
    hide Conn.Counted, Provider.ShapesOk, Provider.FeedsOk;
    BackFollows(p, p.conn.QueueUnit(h), x, t);
  }

  // ---------------------------------------------------------------------------------------- the other steps

  lemma ResendFollows(p: Provider, k: Key, x: Key, t: Replica)
    requires p.Valid() && !t.Corrupt? && (x != k ==> p.Serves(x, t))
    requires k in p.feeds && k in p.current && k !in p.conn.slots
    ensures Follows(p, p.Resend(k), [p.Snapshot(k)], x, t)
  {
    hide Conn.Counted, Provider.ShapesOk, Provider.FeedsOk;
    SendCounted(p.conn, p.Snapshot(k));
    ShapesSame(p, p.Resend(k));
    ResendFeeds(p, k);
    TakeAllOne(t, x, [p.Snapshot(k)]);
  }

  lemma ResendFeeds(p: Provider, k: Key)
    requires p.FeedsOk() && k in p.feeds
    ensures p.Resend(k).FeedsOk()
  {
    assert After(p.current[k], []) == p.current[k];
  }

  /** What a round of the flush loop sends. */
  function Flushed(p: Provider): (fs: seq<Frame>)
    requires p.conn.order != []
    requires var first := p.conn.order[0];
             if first.UnitSlot? then p.Readable(first.hold) else first.key in p.conn.slots && first.key in p.current
  {
    match p.conn.order[0]
    case UnitSlot(h) => Unit(p, h)
    case StateSlot(k) => if p.conn.slots[k].lazy then [p.Snapshot(k)] else SlotFrames(k, p.conn.slots[k])
  }

  lemma FlushOneFollows(p: Provider, x: Key, t: Replica)
    requires p.Valid() && p.Serves(x, t) && Enabled(p, FlushOne)
    ensures (FlushReady(p); Follows(p, p.FlushOne(), Flushed(p), x, t))
  {
    hide Conn.Counted, Provider.ShapesOk, Provider.FeedsOk;
    FlushReady(p);
    match p.conn.order[0]
    case UnitSlot(h) => SendUnitFollows(p, h, x, t);
    case StateSlot(k) =>
      if p.conn.slots[k].lazy {
        RemoveCounted(p.conn, k);
        var q := p.(conn := p.conn.Remove(k));
        SameOk(p, q);
        ResendFollows(q, k, x, t);
      } else {
        FlushSlotFollows(p, k, x, t);
      }
  }

  lemma FlushSlotFollows(p: Provider, k: Key, x: Key, t: Replica)
    requires p.Valid() && p.Serves(x, t) && k in p.conn.slots && !p.conn.slots[k].lazy
    ensures Follows(p, p.(conn := p.conn.FlushSlot(k)), SlotFrames(k, p.conn.slots[k]), x, t)
  {
    FlushSlotServes(p, k, x, t);
    hide Conn.Counted, Provider.ShapesOk, Provider.FeedsOk, SlotFrames, Play, TakeAll, Conn.FlushSlot, Provider.Serves;
    FlushSlotCounted(p.conn, k);
    FlushSlotSends(p.conn, k);
    SameOk(p, p.(conn := p.conn.FlushSlot(k)));
  }

  lemma FlushSlotServes(p: Provider, k: Key, x: Key, t: Replica)
    requires p.conn.Local() && p.Serves(x, t) && k in p.conn.slots && k in p.feeds && !p.conn.slots[k].lazy
    ensures p.(conn := p.conn.FlushSlot(k)).Serves(x, TakeAll(t, x, SlotFrames(k, p.conn.slots[k])))
  {
    hide SlotFrames, Play, TakeAll, Conn.FlushSlot;
    FlushSlotSends(p.conn, k);
    if x in p.feeds {
      FlushSlotCaught(p.conn, k, x, t, p.feeds[x].Target());
    }
    if x != k {
      FlushedElsewhere(k, p.conn.slots[k], x, t);
    }
  }

  lemma ResyncFollows(p: Provider, k: Key, x: Key, t: Replica)
    requires p.Valid() && p.Serves(x, t)
    ensures Follows(p, p.Resync(k), [], x, t)
  {
    hide Conn.Counted, Provider.ShapesOk, Provider.FeedsOk;
    ResetLaterCounted(p.conn, k);
    SameOk(p, p.Resync(k));
    Quiet(p, p.Resync(k), x, t);
  }

  lemma DropHoldFollows(p: Provider, h: nat, x: Key, t: Replica)
    requires p.Valid() && p.Serves(x, t)
    ensures Follows(p, p.DropHold(h), [], x, t)
  {
    hide Conn.Counted, Provider.ShapesOk, Provider.FeedsOk;
    var gone := set k | k in p.feeds && k.hold == h;
    var q := p.Forget(gone);
    DropGone(p.conn, gone);
    UnitsCounted(q.conn, h);
    var r := p.DropHold(h);
    DropHoldShapes(p, h);
    SameFeeds(p, r);
    Quiet(p, r, x, t);
  }

  /** A released hold has no stream, slot or unit left; every other hold has what it had. */
  lemma DropHoldForgets(p: Provider, h: nat)
    requires p.Valid()
    ensures var q := p.DropHold(h);
            && (forall k :: k in q.feeds <==> k in p.feeds && k.hold != h)
            && (forall k :: k in q.feeds ==> q.feeds[k] == p.feeds[k])
            && (forall k :: k in q.conn.slots <==> k in p.conn.slots && k.hold != h)
            && (forall k :: k in q.conn.slots ==> q.conn.slots[k] == p.conn.slots[k])
            && q.conn.units == p.conn.units - {h} && q.shapes == p.shapes - {h} && q.unitSent == p.unitSent - {h}
            && q.conn.out == p.conn.out
  {
    DropGone(p.conn, set k | k in p.feeds && k.hold == h);
    hide Conn.Counted, Conn.DropStates, Provider.ShapesOk, Provider.FeedsOk;
  }

  lemma DropHoldShapes(p: Provider, h: nat)
    requires p.ShapesOk()
    ensures p.DropHold(h).ShapesOk()
  {
    var r := p.DropHold(h);
    assert forall g :: g != h ==> r.Members(g) == p.Members(g);
    assert forall g :: g in r.shapes ==> p.Readable(g);
  }

  lemma SameFeeds(p: Provider, q: Provider)
    requires p.FeedsOk() && q.current == p.current
    requires forall k :: k in q.feeds ==> k in p.feeds && q.feeds[k] == p.feeds[k]
    ensures q.FeedsOk()
  {
  }

  lemma SendOtherFollows(p: Provider, x: Key, t: Replica)
    requires p.Valid() && p.Serves(x, t)
    ensures Follows(p, p.(conn := p.conn.Send(Other)), [Other], x, t)
  {
    hide Conn.Counted, Provider.ShapesOk, Provider.FeedsOk;
    SendCounted(p.conn, Other);
    SameOk(p, p.(conn := p.conn.Send(Other)));
    TakeAllOne(t, x, [Other]);
  }

  /** What the peer's acknowledgements and hello change. */
  lemma BackFollows(p: Provider, c: Conn, x: Key, t: Replica)
    requires p.Valid() && p.Serves(x, t) && c.Counted()
    requires c.out == p.conn.out && c.slots == p.conn.slots && c.awaiting == p.conn.awaiting
    ensures Follows(p, p.(conn := c), [], x, t)
  {
    hide Conn.Counted, Provider.ShapesOk, Provider.FeedsOk;
    SameOk(p, p.(conn := c));
    Quiet(p, p.(conn := c), x, t);
  }

  lemma BackCounted(c: Conn, n: nat, acks: bool)
    requires c.Counted()
    ensures c.AckInRange(n) ==> n <= c.acked + |c.unacked| && c.Acknowledge(n).Counted()
    ensures c.Hello(acks).Counted()
  {
  }

  /** The frames a step sends. */
  ghost function Frames(p: Provider, s: Step): (fs: seq<Frame>)
    requires p.Valid() && Enabled(p, s)
  {
    match s
    case Deliver(k) => Passed(p.conn, NextFrame(p, k))
    case ReShape(h, shape) => PrunedShapes(p, h, shape); ReShapeFrames(p, h, shape)
    case FlushOne => FlushReady(p); Flushed(p)
    case SendOther => [Other]
    case _ => []
  }

  /** Every step keeps the provider's invariants and its promise for every member. */
  lemma StepFollows(p: Provider, s: Step, x: Key, t: Replica)
    requires p.Valid() && p.Serves(x, t) && Enabled(p, s)
    ensures Follows(p, Next(p, s), Frames(p, s), x, t)
  {
    hide Provider.Valid, Provider.Serves, Conn.Counted;
    match s
    case Write(k, event) => WriteFollows(p, k, event, x, t);
    case Deliver(k) => DeliverFollows(p, k, x, t);
    case ReShape(h, shape) => ReShapeFollows(p, h, shape, x, t);
    case FlushOne => FlushOneFollows(p, x, t);
    case Resync(k) => ResyncFollows(p, k, x, t);
    case DropHold(h) => DropHoldFollows(p, h, x, t);
    case SendOther => SendOtherFollows(p, x, t);
    case Acknowledged(n) => AckFollows(p, n, true, x, t);
    case PeerHello(acks) => AckFollows(p, 0, acks, x, t);
  }

  lemma AckFollows(p: Provider, n: nat, acks: bool, x: Key, t: Replica)
    requires p.Valid() && p.Serves(x, t)
    ensures p.conn.AckInRange(n) ==> n <= p.conn.acked + |p.conn.unacked| && Follows(p, p.(conn := p.conn.Acknowledge(n)), [], x, t)
    ensures Follows(p, p.(conn := p.conn.Hello(acks)), [], x, t)
  {
    hide Conn.Counted, Provider.ShapesOk, Provider.FeedsOk;
    BackCounted(p.conn, n, acks);
    if p.conn.AckInRange(n) {
      BackFollows(p, p.conn.Acknowledge(n), x, t);
    }
    BackFollows(p, p.conn.Hello(acks), x, t);
  }
}
