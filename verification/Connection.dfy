/**
 The connection as the object it is: fields updated in place, loops over its slots
 (packages/chord/src/connection.ts:349-619, 936-1080). Every method is tied to the operation of `Provider` or `Conn`
 whose properties `Replication`, `DirectLink` and `Relaying` prove.
 */
module Connections {
  import opened Streams
  import opened FlowControl
  import opened Providing
  import opened Replication

  /** `#flush`: rounds while the window allows. */
  ghost function FlushAll(p: Provider): (q: Provider)
    requires p.Valid()
    decreases |p.conn.order|
  {
    if p.conn.order == [] || p.conn.Full() then p
    else
      FlushShrinks(p);
      FlushAll(Next(p, FlushOne))
  }

  lemma FlushShrinks(p: Provider)
    requires p.Valid() && p.conn.order != [] && !p.conn.Full()
    ensures Next(p, FlushOne).Valid() && |Next(p, FlushOne).conn.order| < |p.conn.order|
  {
    FlushReady(p);
    WithoutDistinct(p.conn.order, p.conn.order[0]);
    match p.conn.order[0]
    case UnitSlot(h) => UnitShrinks(p, h);
    case StateSlot(k) => StreamShrinks(p, k);
  }

  lemma UnitShrinks(p: Provider, h: nat)
    requires p.Valid() && p.Readable(h)
    ensures p.SendUnit(h).Valid() && p.SendUnit(h).conn.order == Without(p.conn.order, UnitSlot(h))
  {
    var q := p.(conn := p.conn.ForgetUnit(h));
    UnitsCounted(p.conn, h);
    hide Conn.Counted, Provider.ShapesOk, Provider.FeedsOk;
    SameOk(p, q);
    if h in p.shapes {
      ForgetUnitFrames(p, h);
      UnitSentValid(q, h);
      AttachAllShape(q, h, q.Listed(h));
      SendAllOut(q.conn, q.UnitFrames(h));
    }
  }

  lemma StreamShrinks(p: Provider, k: Key)
    requires p.Valid() && k in p.conn.slots && k in p.current && p.conn.order != [] && p.conn.order[0] == StateSlot(k)
    ensures p.FlushOne().Valid() && p.FlushOne().conn.order == Without(p.conn.order, StateSlot(k))
  {
    hide Conn.Counted, Provider.ShapesOk, Provider.FeedsOk;
    if p.conn.slots[k].lazy {
      RemoveCounted(p.conn, k);
      SendCounted(p.conn.Remove(k), p.Snapshot(k));
      var q := p.(conn := p.conn.Remove(k));
      SameOk(p, q);
      ShapesSame(q, q.Resend(k));
      ResendFeeds(q, k);
    } else {
      FlushSlotCounted(p.conn, k);
      SendAllOut(p.conn.Remove(k), SlotFrames(k, p.conn.slots[k]));
      SameOk(p, p.FlushOne());
    }
  }

  // What a flush sends

  function Flat(parts: seq<seq<Frame>>): (fs: seq<Frame>) {
    if parts == [] then [] else parts[0] + Flat(parts[1..])
  }

  function Bytes(measure: Frame -> nat, fs: seq<Frame>): (n: nat) {
    if fs == [] then 0 else measure(fs[0]) + Bytes(measure, fs[1..])
  }

  /** The window is open once these frames are sent too. */
  predicate OpenAfter(c: Conn, fs: seq<Frame>) {
    c.peerAcks == Some(true) ==> c.unackedBytes + Bytes(c.measure, fs) < c.window
  }

  /** What the peer gets for a slot: what waits, a reset to the current value, or the shape and what the consumer lacks. */
  ghost predicate SlotWent(p: Provider, x: SlotKey, fs: seq<Frame>) {
    match x
    case StateSlot(k) =>
      k in p.conn.slots &&
      if p.conn.slots[k].lazy then k in p.current && |fs| == 1 && fs[0].Base? && fs[0].key == k && fs[0].start.value == p.current[k]
      else fs == SlotFrames(k, p.conn.slots[k])
    case UnitSlot(h) =>
      if h !in p.shapes then fs == []
      else
        var listed := p.Listed(h);
        && |fs| == |listed| + 1 && fs[0] == Shape(h, p.shapes[h].variant, p.shapes[h].members, listed)
        && forall i :: 0 <= i < |listed| ==> IsSnapshot(p, Key(h, listed[i]), fs[i + 1])
  }

  ghost predicate IsSnapshot(p: Provider, k: Key, f: Frame) {
    f.Base? && f.key == k && k in p.current && f.start.value == p.current[k]
  }

  /**
   From `p` to `q` the first slots were sent, oldest first, one part each. Every one was begun while the window was open,
   and the next one was not because it closed. What a peer knew of any member goes on from there.
   */
  ghost predicate Drains(p: Provider, q: Provider, parts: seq<seq<Frame>>) {
    && |parts| <= |p.conn.order| && q.conn.order == p.conn.order[|parts|..] && q.conn.out == p.conn.out + Flat(parts)
    && (forall i :: 0 <= i < |parts| ==> SlotWent(p, p.conn.order[i], parts[i]) && OpenAfter(p.conn, Flat(parts[..i])))
    && (q.conn.order != [] ==> !OpenAfter(p.conn, Flat(parts)))
    && (forall k, t :: p.Serves(k, t) ==> Follows(p, q, Flat(parts), k, t))
  }

  lemma {:induction false} BytesConcat(measure: Frame -> nat, a: seq<Frame>, b: seq<Frame>)
    ensures Bytes(measure, a + b) == Bytes(measure, a) + Bytes(measure, b)
  {
    if a == [] {
      assert a + b == b;
    } else {
      assert (a + b)[1..] == a[1..] + b;
      BytesConcat(measure, a[1..], b);
    }
  }

  lemma {:induction false} SendAllBytes(c: Conn, fs: seq<Frame>)
    ensures var d := c.SendAll(fs);
            && d.peerAcks == c.peerAcks && d.window == c.window && d.measure == c.measure
            && (c.peerAcks == Some(true) ==> d.unackedBytes == c.unackedBytes + Bytes(c.measure, fs))
    decreases |fs|
  {
    if fs != [] {
      SendAllBytes(c.Send(fs[0]), fs[1..]);
    }
  }

  lemma {:induction false} AttachAllValues(p: Provider, h: nat, names: seq<string>)
    requires forall m :: m in names ==> Key(h, m) in p.current
    ensures var frames := p.AttachAll(h, names).1;
            |frames| == |names| && forall i :: 0 <= i < |names| ==> IsSnapshot(p, Key(h, names[i]), frames[i])
    decreases |names|
  {
    if names != [] {
      var q := p.Attach(Key(h, names[0]));
      AttachAllValues(q, h, names[1..]);
      var frames := p.AttachAll(h, names).1;
      assert frames == [p.Snapshot(Key(h, names[0]))] + q.AttachAll(h, names[1..]).1;
      forall i | 0 < i < |names|
        ensures IsSnapshot(p, Key(h, names[i]), frames[i])
      {
        assert IsSnapshot(q, Key(h, names[1..][i - 1]), q.AttachAll(h, names[1..]).1[i - 1]);
      }
    }
  }

  /** A round leaves the other slots, and what the consumer lacks of other holds, as they were. */
  ghost predicate Rest(p: Provider, q: Provider, first: SlotKey) {
    && q.current == p.current && q.shapes == p.shapes && q.contracts == p.contracts
    && (forall k :: first != StateSlot(k) ==> (k in q.conn.slots <==> k in p.conn.slots))
    && (forall k :: first != StateSlot(k) && k in p.conn.slots ==> k in q.conn.slots && q.conn.slots[k] == p.conn.slots[k])
    && (forall k: Key :: first != UnitSlot(k.hold) ==> (k in q.feeds <==> k in p.feeds))
  }

  /** What a round sends, and what it counts. */
  ghost predicate Round(p: Provider, q: Provider, fs: seq<Frame>) {
    && q.conn.out == p.conn.out + fs
    && q.conn.peerAcks == p.conn.peerAcks && q.conn.window == p.conn.window && q.conn.measure == p.conn.measure
    && (p.conn.peerAcks == Some(true) ==> q.conn.unackedBytes == p.conn.unackedBytes + Bytes(p.conn.measure, fs))
  }

  lemma UnitWent(p: Provider, h: nat)
    requires p.Readable(h)
    ensures SlotWent(p, UnitSlot(h), Unit(p, h))
  {
    if h in p.shapes {
      var fs, listed := p.UnitFrames(h), p.Listed(h);
      AttachAllValues(p, h, listed);
      assert fs[0] == Shape(h, p.shapes[h].variant, p.shapes[h].members, listed) && fs[1..] == p.AttachAll(h, listed).1;
      hide Provider.AttachAll, Provider.UnitFrames, Provider.Listed, IsSnapshot;
      forall i | 0 <= i < |listed|
        ensures IsSnapshot(p, Key(h, listed[i]), fs[i + 1])
      {
        assert fs[i + 1] == fs[1..][i];
      }
    }
  }

  lemma UnitRound(p: Provider, h: nat)
    requires p.Readable(h)
    ensures var q := p.SendUnit(h); Round(p, q, Unit(p, h)) && Rest(p, q, UnitSlot(h))
  {
    if h in p.shapes {
      var r := p.(conn := p.conn.ForgetUnit(h));
      ForgetUnitFrames(p, h);
      var fs := p.UnitFrames(h);
      AttachAllShape(r, h, r.Listed(h));
      SendAllOut(r.conn, fs);
      SendAllBytes(r.conn, fs);
      hide Provider.AttachAll, Conn.SendAll, Provider.UnitFrames, Bytes, Provider.Listed;
    } else {
      assert p.conn.out + [] == p.conn.out;
    }
  }

  lemma StreamRound(p: Provider, k: Key)
    requires k in p.conn.slots && k in p.current && k in p.feeds && p.conn.order != [] && p.conn.order[0] == StateSlot(k)
    ensures var fs := if p.conn.slots[k].lazy then [p.Snapshot(k)] else SlotFrames(k, p.conn.slots[k]);
            Round(p, p.FlushOne(), fs) && Rest(p, p.FlushOne(), StateSlot(k)) && SlotWent(p, StateSlot(k), fs)
  {
    var fs := if p.conn.slots[k].lazy then [p.Snapshot(k)] else SlotFrames(k, p.conn.slots[k]);
    SendAllOut(p.conn.Remove(k), fs);
    SendAllBytes(p.conn.Remove(k), fs);
    if p.conn.slots[k].lazy {
      assert [p.Snapshot(k)][1..] == [];
    }
    hide SlotFrames, Bytes;
  }

  /** One round: the oldest slot goes, whole. */
  lemma FlushRound(p: Provider) returns (fs: seq<Frame>)
    requires p.Valid() && p.conn.order != [] && !p.conn.Full()
    ensures var q := Next(p, FlushOne);
            && q.conn.order == p.conn.order[1..] && Round(p, q, fs) && Rest(p, q, p.conn.order[0])
            && SlotWent(p, p.conn.order[0], fs) && fs == Frames(p, FlushOne)
  {
    hide Provider.Valid, Provider.SendUnit, Unit, Rest, Round, SlotWent, Conn.FlushSlot, Conn.Remove, Provider.Resend, SlotFrames;
    hide Provider.Readable;
    FlushReady(p);
    OrderShrinks(p);
    fs := Frames(p, FlushOne);
    match p.conn.order[0]
    case UnitSlot(h) =>
      UnitRound(p, h);
      UnitWent(p, h);
    case StateSlot(k) => StreamRound(p, k);
  }

  lemma OrderShrinks(p: Provider)
    requires p.Valid() && p.conn.order != [] && !p.conn.Full()
    ensures Next(p, FlushOne).conn.order == p.conn.order[1..]
  {
    FlushReady(p);
    WithoutDistinct(p.conn.order, p.conn.order[0]);
    match p.conn.order[0]
    case UnitSlot(h) => UnitShrinks(p, h);
    case StateSlot(k) => StreamShrinks(p, k);
  }

  lemma {:induction false} UnfedAlike(p: Provider, q: Provider, h: nat, names: seq<string>)
    requires forall m :: Key(h, m) in q.feeds <==> Key(h, m) in p.feeds
    ensures p.Unfed(h, names) == q.Unfed(h, names)
  {
    if names != [] {
      UnfedAlike(p, q, h, names[1..]);
    }
  }

  /** What a later slot sends does not depend on the rounds before it. */
  lemma WentBefore(p: Provider, q: Provider, first: SlotKey, x: SlotKey, fs: seq<Frame>)
    requires Rest(p, q, first) && x != first && SlotWent(q, x, fs)
    ensures SlotWent(p, x, fs)
  {
    match x
    case StateSlot(k) =>
    case UnitSlot(h) =>
      if h in p.shapes {
        assert p.Members(h) == q.Members(h);
        UnfedAlike(p, q, h, p.Members(h));
        var listed := p.Listed(h);
        hide Provider.Unfed;
        forall i | 0 <= i < |listed|
          ensures IsSnapshot(p, Key(h, listed[i]), fs[i + 1])
        {
          assert IsSnapshot(q, Key(h, listed[i]), fs[i + 1]);
        }
      }
  }

  lemma FollowsOn(p: Provider, q: Provider, r: Provider, fs: seq<Frame>, gs: seq<Frame>, k: Key, t: Replica)
    requires Follows(p, q, fs, k, t) && Follows(q, r, gs, k, TakeAll(t, k, fs))
    ensures Follows(p, r, fs + gs, k, t)
  {
    hide Provider.Valid, Provider.Serves;
    TakeAllConcat(t, k, fs, gs);
    assert p.conn.out + fs + gs == p.conn.out + (fs + gs);
  }

  /** The rounds of a flush, put together. */
  lemma {:induction false} FlushDrains(p: Provider) returns (parts: seq<seq<Frame>>)
    requires p.Valid()
    ensures Drains(p, FlushAll(p), parts)
    decreases |p.conn.order|
  {
    if p.conn.order == [] || p.conn.Full() {
      parts := [];
      forall k, t | p.Serves(k, t)
        ensures Follows(p, p, [], k, t)
      {
        assert p.conn.out + [] == p.conn.out;
      }
    } else {
      FlushOnce(p);
      var q := Next(p, FlushOne);
      var fs := FlushRound(p);
      var rest := FlushDrains(q);
      parts := [fs] + rest;
      assert Distinct(p.conn.order);
      hide Next, FlushAll, Provider.Valid, Provider.Serves, Follows, Frames, SlotWent, Rest, Round, Drains;
      forall k, t | p.Serves(k, t)
        ensures Follows(p, q, fs, k, t)
      {
        StepFollows(p, FlushOne, k, t);
      }
      DrainsFirst(p, q, FlushAll(q), fs, rest);
    }
  }

  lemma FlushOnce(p: Provider)
    requires p.Valid() && p.conn.order != [] && !p.conn.Full()
    ensures Next(p, FlushOne).Valid() && FlushAll(p) == FlushAll(Next(p, FlushOne))
    ensures |Next(p, FlushOne).conn.order| < |p.conn.order|
  {
    FlushShrinks(p);
    hide Provider.Valid, Next;
  }

  lemma DrainsFirst(p: Provider, q: Provider, r: Provider, fs: seq<Frame>, rest: seq<seq<Frame>>)
    requires p.conn.order != [] && Distinct(p.conn.order) && !p.conn.Full() && q.conn.order == p.conn.order[1..]
    requires Round(p, q, fs) && Rest(p, q, p.conn.order[0]) && SlotWent(p, p.conn.order[0], fs) && Drains(q, r, rest)
    requires forall k, t :: p.Serves(k, t) ==> Follows(p, q, fs, k, t)
    ensures Drains(p, r, [fs] + rest)
  {
    PartsFirst(p, q, r, fs, rest);
    hide Provider.Serves, Follows, SlotWent, OpenAfter, Rest, Round;
    forall k, t | p.Serves(k, t)
      ensures Follows(p, r, Flat([fs] + rest), k, t)
    {
      ServedOn(p, q, r, fs, rest, k, t);
    }
    hide Flat;
  }

  lemma ServedOn(p: Provider, q: Provider, r: Provider, fs: seq<Frame>, rest: seq<seq<Frame>>, k: Key, t: Replica)
    requires Follows(p, q, fs, k, t) && Drains(q, r, rest)
    ensures Follows(p, r, Flat([fs] + rest), k, t)
  {
    assert ([fs] + rest)[1..] == rest;
    assert q.Serves(k, TakeAll(t, k, fs));
    hide SlotWent, OpenAfter, Provider.Valid, Provider.Serves;
    assert Follows(q, r, Flat(rest), k, TakeAll(t, k, fs));
    hide Drains, Follows;
    FollowsOn(p, q, r, fs, Flat(rest), k, t);
  }

  lemma PartsFirst(p: Provider, q: Provider, r: Provider, fs: seq<Frame>, rest: seq<seq<Frame>>)
    requires p.conn.order != [] && Distinct(p.conn.order) && !p.conn.Full() && q.conn.order == p.conn.order[1..]
    requires Round(p, q, fs) && Rest(p, q, p.conn.order[0]) && SlotWent(p, p.conn.order[0], fs) && Drains(q, r, rest)
    ensures var parts := [fs] + rest;
            && |parts| <= |p.conn.order| && r.conn.order == p.conn.order[|parts|..] && r.conn.out == p.conn.out + Flat(parts)
            && (forall i :: 0 <= i < |parts| ==> SlotWent(p, p.conn.order[i], parts[i]) && OpenAfter(p.conn, Flat(parts[..i])))
            && (r.conn.order != [] ==> !OpenAfter(p.conn, Flat(parts)))
  {
    var parts := [fs] + rest;
    assert parts[1..] == rest && Flat(parts) == fs + Flat(rest);
    assert p.conn.order[1..][|rest|..] == p.conn.order[|parts|..];
    assert p.conn.out + fs + Flat(rest) == p.conn.out + Flat(parts);
    OpenOn(p, q, fs, Flat(rest));
    hide SlotWent, OpenAfter, Flat, Follows, Provider.Serves;
    forall i | 0 <= i < |parts|
      ensures SlotWent(p, p.conn.order[i], parts[i]) && OpenAfter(p.conn, Flat(parts[..i]))
    {
      PartWent(p, q, fs, rest, i);
    }
  }

  lemma OpenOn(p: Provider, q: Provider, fs: seq<Frame>, gs: seq<Frame>)
    requires Round(p, q, fs)
    ensures OpenAfter(q.conn, gs) <==> OpenAfter(p.conn, fs + gs)
  {
    BytesConcat(p.conn.measure, fs, gs);
    hide Bytes;
  }

  lemma PartWent(p: Provider, q: Provider, fs: seq<Frame>, rest: seq<seq<Frame>>, i: nat)
    requires p.conn.order != [] && Distinct(p.conn.order) && !p.conn.Full() && q.conn.order == p.conn.order[1..]
    requires Round(p, q, fs) && Rest(p, q, p.conn.order[0]) && SlotWent(p, p.conn.order[0], fs)
    requires i <= |rest| < |p.conn.order|
    requires i > 0 ==> SlotWent(q, q.conn.order[i - 1], rest[i - 1]) && OpenAfter(q.conn, Flat(rest[..i - 1]))
    ensures SlotWent(p, p.conn.order[i], ([fs] + rest)[i]) && OpenAfter(p.conn, Flat(([fs] + rest)[..i]))
  {
    var parts := [fs] + rest;
    if i > 0 {
      hide SlotWent, Rest, Round, Bytes;
      assert parts[..i][0] == fs && parts[..i][1..] == rest[..i - 1];
      WentBefore(p, q, p.conn.order[0], p.conn.order[i], parts[i]);
      OpenOn(p, q, fs, Flat(rest[..i - 1]));
    }
  }

  class Connection {
    const window: nat
    const cap: nat
    const measure: Frame -> nat
    var peerAcks: Option<bool>
    var sent: nat
    var acked: nat
    var unacked: seq<nat>
    var unackedBytes: nat
    var order: seq<SlotKey>
    var slots: map<Key, Slot>
    var units: set<nat>
    var pendingBytes: int
    var out: seq<Frame>
    var awaiting: set<Key>
    var asks: seq<Key>
    // provider side
    var feeds: map<Key, Feed>
    var current: map<Key, Value>
    var nextStream: nat
    var contracts: map<nat, Contract>
    var shapes: map<nat, Shaped>
    var again: set<nat>
    var unitSent: set<nat>

    function Flow(): (c: Conn)
      reads this
    {
      Conn(window, cap, measure, peerAcks, sent, acked, unacked, unackedBytes, order, slots, units, pendingBytes, out,
           awaiting, asks)
    }

    function View(): (p: Provider)
      reads this
    {
      Provider(Flow(), feeds, current, nextStream, contracts, shapes, again, unitSent)
    }

    predicate Full()
      reads this
      ensures Full() == Flow().Full()
    {
      peerAcks == Some(true) && unackedBytes >= window
    }

    method Send(f: Frame)
      modifies this
      ensures View() == old(View()).(conn := old(Flow()).Send(f))
    {
      out := out + [f];
      if peerAcks == Some(false) {
        return;
      }
      sent := sent + 1;
      unacked := unacked + [measure(f)];
      unackedBytes := unackedBytes + measure(f);
    }

    method SendState(f: Frame, relay: bool)
      requires f.Base? || f.Ops?
      modifies this
      ensures View() == old(View()).(conn := old(Flow()).SendState(f, relay))
    {
      var k := f.key;
      if k !in slots && !Full() {
        Send(f);
        return;
      }
      if k !in slots {
        slots := slots[k := Slot(None, [], 0, false, relay)];
        order := order + [StateSlot(k)];
      }
      Park(f);
    }

    /** The stream waits: a snapshot or reset replaces what waits, ops are appended while they fit. */
    method Park(f: Frame)
      requires (f.Base? || f.Ops?) && f.key in slots
      modifies this
      ensures View() == old(View()).(conn := old(Flow()).SendState(f, false))
    {
      var k := f.key;
      if f.Base? {
        pendingBytes := pendingBytes - slots[k].size;
        slots := slots[k := slots[k].(base := Some(f.start), ops := [], size := 0, lazy := false)];
        return;
      }
      if slots[k].lazy {
        return;
      }
      if pendingBytes + f.size > cap {
        MakeRoom(f.size, k);
      }
      assert Flow() == old(Flow()).MakeRoom(old(order), f.size, k);
      hide Conn.MakeRoom;
      if k in slots && !slots[k].lazy {
        var slot := slots[k];
        slots := slots[k := slot.(ops := slot.ops + f.ops, size := slot.size + f.size)];
        pendingBytes := pendingBytes + f.size;
      }
    }

    /** Replaces the oldest waiting streams until `size` more bytes fit; `current` last, if needed. */
    method MakeRoom(size: nat, stream: Key)
      requires stream in slots
      modifies this
      ensures View() == old(View()).(conn := old(Flow()).MakeRoom(old(order), size, stream))
    {
      var todo := order;
      for i := 0 to |todo|
        invariant stream in slots
        invariant View() == old(View()).(conn := Flow())
        invariant Flow().MakeRoom(todo[i..], size, stream) == old(Flow()).MakeRoom(todo, size, stream)
      {
        if pendingBytes + size <= cap {
          return;
        }
        assert todo[i..][1..] == todo[i + 1..];
        var x := todo[i];
        if x.StateSlot? && x.key != stream && x.key in slots && slots[x.key].size > 0 {
          Drop(x.key);
        }
      }
      if pendingBytes + size > cap {
        Drop(stream);
      }
    }

    /** A lazy reset replaces what waits, or the relay asks for one. */
    method Drop(k: Key)
      requires k in slots
      modifies this
      ensures View() == old(View()).(conn := old(Flow()).Drop(k))
    {
      var slot := slots[k];
      pendingBytes := pendingBytes - slot.size;
      if !slot.relay {
        slots := slots[k := Slot(None, [], 0, true, false)];
        return;
      }
      slots := slots - {k};
      order := Without(order, StateSlot(k));
      awaiting := awaiting + {k};
      asks := asks + [k];
    }

    /** The peer acknowledged `n` frames; the link closes when that cannot be (`violation`). */
    method OnAck(n: nat) returns (violation: bool)
      requires unackedBytes == Sum(unacked) && (peerAcks != Some(false) ==> sent == acked + |unacked|)
      modifies `unacked, `unackedBytes, `acked
      ensures violation == !old(Flow()).AckInRange(n)
      ensures !violation ==> n <= old(acked) + |old(unacked)| && Flow() == old(Flow()).Acknowledge(n)
      ensures !violation ==> acked == n && unacked == old(unacked)[n - old(acked)..] && unackedBytes == Sum(unacked)
      ensures violation ==> Flow() == old(Flow())
    {
      if peerAcks != Some(true) || n < acked || n > sent {
        return true;
      }
      Settle(n);
      violation := false;
    }

    /** The first frames not yet acknowledged are. */
    method Settle(n: nat)
      requires unackedBytes == Sum(unacked) && acked <= n <= acked + |unacked|
      modifies `unacked, `unackedBytes, `acked
      ensures Flow() == old(Flow()).Acknowledge(n)
    {
      var settled := n - acked;
      for i := 0 to settled
        invariant unacked == old(unacked) && acked == old(acked) && unackedBytes == Sum(unacked[i..])
      {
        SumTail(unacked, i);
        unackedBytes := unackedBytes - unacked[i];
      }
      unacked := unacked[settled..];
      acked := n;
    }

    /** Subscribes every listed member: a new feed and its snapshot each. */
    method AttachAll(h: nat, listed: seq<string>) returns (snaps: seq<Frame>)
      requires forall m :: m in listed ==> Key(h, m) in current
      modifies this
      ensures View() == old(View()).AttachAll(h, listed).0
      ensures snaps == old(View()).AttachAll(h, listed).1
    {
      snaps := [];
      for i := 0 to |listed|
        invariant current == old(current)
        invariant View() == old(View()).(feeds := feeds, nextStream := nextStream)
        invariant old(View()).AttachAll(h, listed).0 == View().AttachAll(h, listed[i..]).0
        invariant old(View()).AttachAll(h, listed).1 == snaps + View().AttachAll(h, listed[i..]).1
      {
        var k := Key(h, listed[i]);
        assert listed[i..][1..] == listed[i + 1..];
        snaps := snaps + [Base(k, Start(current[k], nextStream))];
        feeds := feeds[k := Feed(nextStream, 0, current[k], [])];
        nextStream := nextStream + 1;
      }
    }

    method SendFrames(fs: seq<Frame>)
      modifies this
      ensures View() == old(View()).(conn := old(Flow()).SendAll(fs))
    {
      for i := 0 to |fs|
        invariant View() == old(View()).(conn := Flow())
        invariant Flow().SendAll(fs[i..]) == old(Flow()).SendAll(fs)
      {
        assert fs[i..][1..] == fs[i + 1..];
        Send(fs[i]);
      }
    }

    /** Sends the shape, then a snapshot of each member the consumer lacks. */
    method SendUnit(h: nat)
      requires View().Readable(h)
      modifies this
      ensures View() == old(View()).SendUnit(h)
    {
      units := units - {h};
      order := Without(order, UnitSlot(h));
      assert View() == old(View()).(conn := old(Flow()).ForgetUnit(h));
      if h in shapes {
        SendShaped(h);
      }
    }

    method SendShaped(h: nat)
      requires View().Readable(h) && h in shapes
      modifies this
      ensures View() == old(View()).UnitSent(h)
    {
      var listed := View().Listed(h);
      ListedReadable(View(), h);
      AttachAllShape(View(), h, listed);
      var shape := Shape(h, shapes[h].variant, shapes[h].members, listed);
      var snaps := AttachAll(h, listed);
      SendFrames([shape] + snaps);
      unitSent := unitSent + {h};
    }

    /** The member again, now, from its current value. */
    method Resend(k: Key)
      requires k in feeds ==> k in current
      modifies this
      ensures View() == old(View()).Resend(k)
    {
      if k !in feeds {
        return;
      }
      var frame := Base(k, Start(current[k], nextStream));
      feeds := feeds[k := Feed(nextStream, 0, current[k], [])];
      nextStream := nextStream + 1;
      Send(frame);
    }

    /** Takes a stream's slot from the queue and sends what it holds, or the reset it promises. */
    method FlushStream(k: Key)
      requires k in slots && k in current
      modifies this
      ensures View() == if old(slots)[k].lazy then old(View()).(conn := old(Flow()).Remove(k)).Resend(k)
                        else old(View()).(conn := old(Flow()).FlushSlot(k))
    {
      var slot := slots[k];
      pendingBytes := pendingBytes - slot.size;
      slots := slots - {k};
      order := Without(order, StateSlot(k));
      if slot.lazy {
        Resend(k);
        return;
      }
      SendFrames(SlotFrames(k, slot));
    }

    /** Sends waiting slots in creation order while the window allows. */
    method Flush()
      requires View().Valid()
      modifies this
      ensures exists parts :: Drains(old(View()), View(), parts)
      ensures View() == FlushAll(old(View()))
    {
      hide Drains, Provider.Valid, Provider.SendUnit, Provider.Resend, Conn.FlushSlot, Conn.Remove, Provider.Readable;
      ghost var parts := FlushDrains(View());
      while order != [] && !Full()
        invariant View().Valid()
        invariant FlushAll(View()) == FlushAll(old(View()))
        decreases |order|
      {
        FlushShrinks(View());
        FlushReady(View());
        match order[0] {
          case UnitSlot(h) => SendUnit(h);
          case StateSlot(k) => FlushStream(k);
        }
      }
    }
  }

  lemma SumTail(sizes: seq<nat>, i: nat)
    requires i < |sizes|
    ensures Sum(sizes[i..]) == sizes[i] + Sum(sizes[i + 1..])
  {
    assert sizes[i..][1..] == sizes[i + 1..];
  }

  lemma ListedReadable(p: Provider, h: nat)
    requires p.Readable(h)
    ensures forall m :: m in p.Listed(h) ==> Key(h, m) in p.current
  {
  }
}
