/**
 The sending side of a link: the acknowledgement window and the slots in which state waits
 (packages/chord/src/connection.ts:460-609).
 */
module FlowControl {
  import opened Streams

  /** The order in which slots were made is the order in which they are flushed. */
  datatype SlotKey = UnitSlot(hold: nat) | StateSlot(key: Key)

  /** `relay`: on overflow ask downstream for a reset (`resync`); otherwise promise one built at flush (`lazy`). */
  datatype Slot = Slot(base: Option<Start>, ops: seq<Wire>, size: nat, lazy: bool, relay: bool)

  function Sum(sizes: seq<nat>): (n: nat) {
    if sizes == [] then 0 else sizes[0] + Sum(sizes[1..])
  }

  /** Bytes of ops waiting in the slots of `order`. */
  function Waiting(order: seq<SlotKey>, slots: map<Key, Slot>): (n: nat) {
    if order == [] then 0
    else (if order[0].StateSlot? && order[0].key in slots then slots[order[0].key].size else 0)
         + Waiting(order[1..], slots)
  }

  function Without(order: seq<SlotKey>, x: SlotKey): (rest: seq<SlotKey>)
    ensures forall y :: y in rest <==> y in order && y != x
  {
    if order == [] then []
    else if order[0] == x then Without(order[1..], x)
    else [order[0]] + Without(order[1..], x)
  }

  /**
   One end's sending state. `out` is what the link still carries to the peer, `asks` the resets a relay asked of
   its provider and `awaiting` the members it then ignores ops of. `measure` is the size the link reports for a frame.
   */
  datatype Conn = Conn(
    window: nat, cap: nat, measure: Frame -> nat,
    peerAcks: Option<bool>, sent: nat, acked: nat, unacked: seq<nat>, unackedBytes: nat,
    order: seq<SlotKey>, slots: map<Key, Slot>, units: set<nat>, pendingBytes: int,
    out: seq<Frame>, awaiting: set<Key>, asks: seq<Key>)
  {
    predicate Full() {
      peerAcks == Some(true) && unackedBytes >= window
    }

    function Send(f: Frame): (c: Conn) {
      if peerAcks == Some(false) then this.(out := out + [f])
      else this.(out := out + [f], sent := sent + 1, unacked := unacked + [measure(f)],
                 unackedBytes := unackedBytes + measure(f))
    }

    function SendAll(fs: seq<Frame>): (c: Conn)
      decreases |fs|
    {
      if fs == [] then this else Send(fs[0]).SendAll(fs[1..])
    }

    function NewSlot(k: Key, relay: bool): (c: Conn) {
      if k in slots then this
      else this.(slots := slots[k := Slot(None, [], 0, false, relay)], order := order + [StateSlot(k)])
    }

    function SetSlot(k: Key, slot: Slot): (c: Conn)
      requires k in slots
    {
      this.(slots := slots[k := slot], pendingBytes := pendingBytes - slots[k].size + slot.size)
    }

    function Remove(k: Key): (c: Conn)
      requires k in slots
    {
      this.(slots := slots - {k}, order := Without(order, StateSlot(k)), pendingBytes := pendingBytes - slots[k].size)
    }

    function Drop(k: Key): (c: Conn)
      requires k in slots
    {
      if slots[k].relay then Remove(k).(awaiting := awaiting + {k}, asks := asks + [k])
      else SetSlot(k, Slot(None, [], 0, true, false))
    }

    /** Drops the slots of `todo` in order until `size` more bytes fit; `current` last. */
    function MakeRoom(todo: seq<SlotKey>, size: nat, current: Key): (c: Conn)
      requires current in slots
      decreases |todo|
    {
      if pendingBytes + size <= cap then this
      else if todo == [] then Drop(current)
      else (if Droppable(todo[0], current) then Drop(todo[0].key) else this).MakeRoom(todo[1..], size, current)
    }

    predicate Droppable(x: SlotKey, current: Key) {
      x.StateSlot? && x.key != current && x.key in slots && slots[x.key].size > 0
    }

    function SendState(f: Frame, relay: bool): (c: Conn)
      requires f.Base? || f.Ops?
    {
      if f.key !in slots && !Full() then Send(f)
      else
        var c := NewSlot(f.key, relay);
        if f.Base? then c.SetSlot(f.key, c.slots[f.key].(base := Some(f.start), ops := [], size := 0, lazy := false))
        else if c.slots[f.key].lazy then c
        else
          var r := c.MakeRoom(c.order, f.size, f.key);
          if f.key !in r.slots || r.slots[f.key].lazy then r
          else
            var slot := r.slots[f.key];
            r.SetSlot(f.key, slot.(ops := slot.ops + f.ops, size := slot.size + f.size))
    }

    /** A reset through the window; the flush that follows is a separate step. */
    function ResetLater(k: Key): (c: Conn) {
      var c := NewSlot(k, false);
      c.SetSlot(k, Slot(None, [], 0, true, c.slots[k].relay))
    }

    function QueueUnit(hold: nat): (c: Conn) {
      if hold in units then this else this.(units := units + {hold}, order := order + [UnitSlot(hold)])
    }

    function ForgetUnit(hold: nat): (c: Conn) {
      this.(units := units - {hold}, order := Without(order, UnitSlot(hold)))
    }

    function DropState(k: Key): (c: Conn) {
      if k in slots then Remove(k) else this
    }

    /** Forgets what waits for the streams of `gone`. */
    function DropStates(todo: seq<SlotKey>, gone: set<Key>): (c: Conn)
      decreases |todo|
    {
      if todo == [] then this
      else (if todo[0].StateSlot? && todo[0].key in gone then DropState(todo[0].key) else this).DropStates(todo[1..], gone)
    }

    /** Sends a waiting slot that is not lazy. */
    function FlushSlot(k: Key): (c: Conn)
      requires k in slots
    {
      Remove(k).SendAll(SlotFrames(k, slots[k]))
    }

    function Acknowledge(n: nat): (c: Conn)
      requires acked <= n <= acked + |unacked|
    {
      this.(unacked := unacked[n - acked..], unackedBytes := Sum(unacked[n - acked..]), acked := n)
    }

    /** Whether the range check of connection.ts:583 lets an acknowledgement pass. */
    predicate AckInRange(n: nat) {
      peerAcks == Some(true) && acked <= n <= sent
    }

    function Hello(acks: bool): (c: Conn) {
      if peerAcks.Some? then this
      else if acks then this.(peerAcks := Some(true))
      else this.(peerAcks := Some(false), unacked := [], unackedBytes := 0)
    }

    ghost predicate Ordered() {
      && Distinct(order)
      && (forall k :: k in slots <==> StateSlot(k) in order)
      && (forall h :: h in units <==> UnitSlot(h) in order)
    }

    /** What connection.ts keeps about bytes: the counters are the sums they stand for, and the cap holds. */
    ghost predicate Counted() {
      && Ordered()
      && pendingBytes == Waiting(order, slots) <= cap
      && unackedBytes == Sum(unacked)
      && (peerAcks != Some(false) ==> sent == acked + |unacked|)
    }

    /** On a provider every slot can be rebuilt from the source; on a relay none can. */
    ghost predicate Local() {
      awaiting == {} && forall k :: k in slots ==> !slots[k].relay
    }

    ghost predicate Relayed() {
      forall k :: k in slots ==> slots[k].relay && !slots[k].lazy
    }
  }

  function SlotFrames(k: Key, slot: Slot): (fs: seq<Frame>) {
    (if slot.base.Some? then [Base(k, slot.base.value)] else [])
    + (if slot.ops != [] then [Ops(k, slot.ops, slot.size)] else [])
  }

  /**
   What `t`, the peer's replica of `k` once it consumed everything in `out`, still lacks is what waits: playing the slot
   on it gives `target`. A lazy slot stands for the value at flush, an awaited member for the reset to come.
   */
  predicate Caught(c: Conn, k: Key, t: Replica, target: Replica) {
    if k in c.awaiting then k !in c.slots
    else if k !in c.slots then t == target
    else if c.slots[k].lazy then true
    else Play(if c.slots[k].base.Some? then Started(c.slots[k].base.value) else t, c.slots[k].ops) == target
  }

  // ------------------------------------------------------------------------------------------- byte counters

  lemma {:induction false} WithoutDistinct(order: seq<SlotKey>, x: SlotKey)
    requires Distinct(order)
    ensures Distinct(Without(order, x))
    ensures order != [] && order[0] == x ==> Without(order, x) == order[1..]
  {
    if order != [] {
      WithoutDistinct(order[1..], x);
      if order[0] == x {
        WithoutAbsent(order[1..], x);
      } else {
        assert order[0] !in order[1..];
      }
    }
  }

  lemma {:induction false} WithoutAbsent(order: seq<SlotKey>, x: SlotKey)
    requires x !in order
    ensures Without(order, x) == order
  {
    if order != [] {
      WithoutAbsent(order[1..], x);
    }
  }

  /** Slots outside `order` do not matter. */
  lemma {:induction false} WaitingSame(order: seq<SlotKey>, a: map<Key, Slot>, b: map<Key, Slot>)
    requires forall k :: StateSlot(k) in order ==>
      (k in a <==> k in b) && (k in a && k in b ==> a[k].size == b[k].size)
    ensures Waiting(order, a) == Waiting(order, b)
  {
    if order != [] {
      if order[0].StateSlot? {
        assert StateSlot(order[0].key) in order;
      }
      WaitingSame(order[1..], a, b);
    }
  }

  lemma {:induction false} WaitingSet(order: seq<SlotKey>, slots: map<Key, Slot>, k: Key, slot: Slot)
    requires Distinct(order) && k in slots && StateSlot(k) in order
    ensures Waiting(order, slots[k := slot]) == Waiting(order, slots) - slots[k].size + slot.size
  {
    if order[0] == StateSlot(k) {
      assert StateSlot(k) !in order[1..];
      WaitingSame(order[1..], slots, slots[k := slot]);
    } else {
      WaitingSet(order[1..], slots, k, slot);
    }
  }

  lemma {:induction false} WaitingRemove(order: seq<SlotKey>, slots: map<Key, Slot>, k: Key)
    requires Distinct(order) && k in slots && StateSlot(k) in order
    ensures Waiting(Without(order, StateSlot(k)), slots - {k}) == Waiting(order, slots) - slots[k].size
  {
    if order[0] == StateSlot(k) {
      assert StateSlot(k) !in order[1..];
      WithoutAbsent(order[1..], StateSlot(k));
      WaitingSame(order[1..], slots, slots - {k});
    } else {
      WaitingRemove(order[1..], slots, k);
    }
  }

  lemma {:induction false} WaitingWithoutUnit(order: seq<SlotKey>, slots: map<Key, Slot>, h: nat)
    ensures Waiting(Without(order, UnitSlot(h)), slots) == Waiting(order, slots)
  {
    if order != [] {
      WaitingWithoutUnit(order[1..], slots, h);
    }
  }

  lemma {:induction false} WaitingAppend(order: seq<SlotKey>, slots: map<Key, Slot>, x: SlotKey)
    ensures Waiting(order + [x], slots) ==
            Waiting(order, slots) + if x.StateSlot? && x.key in slots then slots[x.key].size else 0
  {
    if order == [] {
      assert order + [x] == [x];
    } else {
      assert (order + [x])[1..] == order[1..] + [x];
      WaitingAppend(order[1..], slots, x);
    }
  }

  lemma {:induction false} SumAppend(a: seq<nat>, n: nat)
    ensures Sum(a + [n]) == Sum(a) + n
  {
    if a == [] {
      assert a + [n] == [n];
    } else {
      assert (a + [n])[1..] == a[1..] + [n];
      SumAppend(a[1..], n);
    }
  }

  lemma SendCounted(c: Conn, f: Frame)
    requires c.Counted()
    ensures c.Send(f).Counted()
  {
    SumAppend(c.unacked, c.measure(f));
  }

  lemma {:induction false} SendAllCounted(c: Conn, fs: seq<Frame>)
    requires c.Counted()
    ensures c.SendAll(fs).Counted()
    decreases |fs|
  {
    if fs != [] {
      SendCounted(c, fs[0]);
      SendAllCounted(c.Send(fs[0]), fs[1..]);
    }
  }

  lemma NewSlotCounted(c: Conn, k: Key, relay: bool)
    requires c.Counted()
    ensures c.NewSlot(k, relay).Counted()
  {
    if k !in c.slots {
      var d := c.NewSlot(k, relay);
      WaitingAppend(c.order, d.slots, StateSlot(k));
      WaitingSame(c.order, c.slots, d.slots);
      assert StateSlot(k) in d.order;
    }
  }

  lemma SetSlotCounted(c: Conn, k: Key, slot: Slot)
    requires c.Counted() && k in c.slots && c.pendingBytes - c.slots[k].size + slot.size <= c.cap
    ensures c.SetSlot(k, slot).Counted()
  {
    WaitingSet(c.order, c.slots, k, slot);
  }

  lemma RemoveCounted(c: Conn, k: Key)
    requires c.Counted() && k in c.slots
    ensures c.Remove(k).Counted()
  {
    WaitingRemove(c.order, c.slots, k);
    WithoutDistinct(c.order, StateSlot(k));
  }

  lemma DropCounted(c: Conn, k: Key)
    requires c.Counted() && k in c.slots
    ensures c.Drop(k).Counted() && c.Drop(k).pendingBytes == c.pendingBytes - c.slots[k].size
  {
    if c.slots[k].relay {
      RemoveCounted(c, k);
    } else {
      SetSlotCounted(c, k, Slot(None, [], 0, true, false));
    }
  }

  /** Either `size` more bytes fit, or the current stream itself gave way. */
  lemma {:induction false} MakeRoomCounted(c: Conn, todo: seq<SlotKey>, size: nat, current: Key)
    requires c.Counted() && current in c.slots && !c.slots[current].lazy
    ensures var d := c.MakeRoom(todo, size, current);
            d.Counted() && (current !in d.slots || d.slots[current].lazy || d.pendingBytes + size <= d.cap)
            && d.cap == c.cap
    decreases |todo|
  {
    if c.pendingBytes + size > c.cap {
      if todo == [] {
        DropCounted(c, current);
      } else if c.Droppable(todo[0], current) {
        DropCounted(c, todo[0].key);
        MakeRoomCounted(c.Drop(todo[0].key), todo[1..], size, current);
      } else {
        MakeRoomCounted(c, todo[1..], size, current);
      }
    }
  }

  /** The slot gave way: it is gone, or something else is in its place. */
  ghost predicate Gave(c: Conn, d: Conn, k: Key) {
    k in c.slots && !(k in d.slots && d.slots[k] == c.slots[k])
  }

  /** What the streams of `todo` hold, `current` aside. */
  function Freed(c: Conn, todo: seq<SlotKey>, current: Key): (n: nat) {
    if todo == [] then 0
    else Freed(c, todo[..|todo| - 1], current)
         + if c.Droppable(todo[|todo| - 1], current) then c.slots[todo[|todo| - 1].key].size else 0
  }

  /** `size` more bytes fit once the first `n` streams of `todo` gave way. */
  predicate FitsWithout(c: Conn, todo: seq<SlotKey>, n: nat, size: nat, current: Key)
    requires n <= |todo|
  {
    c.pendingBytes - Freed(c, todo[..n], current) + size <= c.cap
  }

  /** The first hello of the peer decides: one that does not acknowledge never has to, and nothing waits for it. */
  lemma HelloDecides(c: Conn, acks: bool, again: bool)
    ensures var d := c.Hello(acks);
            && d == c.(peerAcks := d.peerAcks, unacked := d.unacked, unackedBytes := d.unackedBytes)
            && d.peerAcks == (if c.peerAcks.Some? then c.peerAcks else Some(acks)) && d.Hello(again) == d
            && (c.peerAcks.Some? || acks ==> d.unacked == c.unacked && d.unackedBytes == c.unackedBytes)
            && (c.peerAcks.None? && !acks ==> d.unacked == [] && d.unackedBytes == 0)
            && (d.peerAcks == Some(false) ==> !d.Full())
  {
  }

  /** Of `todo`, the first `n` gave way, no more than needed; `current` only if that did not do. */
  ghost predicate MadeRoom(c: Conn, d: Conn, todo: seq<SlotKey>, n: nat, size: nat, current: Key) {
    && n <= |todo|
    && (forall i :: 0 <= i < |todo| && c.Droppable(todo[i], current) ==> (Gave(c, d, todo[i].key) <==> i < n))
    && (forall m :: 0 <= m < n ==> !FitsWithout(c, todo, m, size, current))
    && (n < |todo| ==> FitsWithout(c, todo, n, size, current))
    && (Gave(c, d, current) <==> !FitsWithout(c, todo, n, size, current))
    && (forall k :: Gave(c, d, k) ==> k == current || StateSlot(k) in todo)
    && (forall k :: k in d.slots ==> k in c.slots)
  }

  lemma {:induction false} FreedFirst(c: Conn, e: Conn, todo: seq<SlotKey>, current: Key)
    requires todo != [] && forall x :: x in todo[1..] ==> (c.Droppable(x, current) <==> e.Droppable(x, current))
    requires forall x :: x in todo[1..] && c.Droppable(x, current) && e.Droppable(x, current) ==>
               e.slots[x.key].size == c.slots[x.key].size
    ensures Freed(c, todo, current) ==
            (if c.Droppable(todo[0], current) then c.slots[todo[0].key].size else 0) + Freed(e, todo[1..], current)
    decreases |todo|
  {
    if |todo| > 1 {
      var init := todo[..|todo| - 1];
      assert init[1..] == todo[1..][..|todo| - 2] && todo[1..][|todo| - 2] == todo[|todo| - 1];
      assert todo[|todo| - 1] in todo[1..];
      FreedFirst(c, e, init, current);
    } else {
      assert todo[..0] == [] && todo[1..] == [];
    }
  }

  /** Room is made by the oldest streams, as few as will do, and by the current one last. */
  lemma {:induction false} MakeRoomOldest(c: Conn, todo: seq<SlotKey>, size: nat, current: Key) returns (n: nat)
    requires current in c.slots && !c.slots[current].lazy && Distinct(todo)
    ensures MadeRoom(c, c.MakeRoom(todo, size, current), todo, n, size, current)
    decreases |todo|
  {
    assert todo[..0] == [];
    if c.pendingBytes + size <= c.cap || todo == [] {
      n := 0;
    } else {
      var e := if c.Droppable(todo[0], current) then c.Drop(todo[0].key) else c;
      assert todo[0] !in todo[1..];
      var rest := MakeRoomOldest(e, todo[1..], size, current);
      n := rest + 1;
      var d := c.MakeRoom(todo, size, current);
      assert d == e.MakeRoom(todo[1..], size, current);
      hide Conn.MakeRoom;
      forall m | 0 <= m < n
        ensures FitsWithout(c, todo, m + 1, size, current) <==> FitsWithout(e, todo[1..], m, size, current)
      {
        assert todo[..m + 1][1..] == todo[1..][..m] && todo[..m + 1][0] == todo[0];
        FreedFirst(c, e, todo[..m + 1], current);
      }
      RoomFirst(c, e, d, todo, rest, size, current);
    }
  }

  lemma RoomFirst(c: Conn, e: Conn, d: Conn, todo: seq<SlotKey>, rest: nat, size: nat, current: Key)
    requires todo != [] && todo[0] !in todo[1..] && c.pendingBytes + size > c.cap && current in c.slots
    requires e == if c.Droppable(todo[0], current) then c.Drop(todo[0].key) else c
    requires MadeRoom(e, d, todo[1..], rest, size, current)
    requires forall m :: 0 <= m <= rest ==>
               (FitsWithout(c, todo, m + 1, size, current) <==> FitsWithout(e, todo[1..], m, size, current))
    ensures MadeRoom(c, d, todo, rest + 1, size, current)
  {
    hide FitsWithout;
    assert !FitsWithout(c, todo, 0, size, current) by {
      NothingFreed(c, todo, size, current);
    }
    forall m | 0 <= m < rest + 1
      ensures !FitsWithout(c, todo, m, size, current)
    {
      assert m > 0 ==> !FitsWithout(e, todo[1..], m - 1, size, current);
    }
    forall i | 0 <= i < |todo| && c.Droppable(todo[i], current)
      ensures Gave(c, d, todo[i].key) <==> i < rest + 1
    {
      if i > 0 {
        assert todo[i] in todo[1..] && todo[i] == todo[1..][i - 1] && todo[i] != todo[0];
      }
    }
  }

  lemma NothingFreed(c: Conn, todo: seq<SlotKey>, size: nat, current: Key)
    ensures FitsWithout(c, todo, 0, size, current) <==> c.pendingBytes + size <= c.cap
  {
    assert todo[..0] == [];
  }

  lemma SendStateCounted(c: Conn, f: Frame, relay: bool)
    requires c.Counted() && (f.Base? || f.Ops?)
    ensures c.SendState(f, relay).Counted()
  {
    hide Conn.Counted;
    if f.key !in c.slots && !c.Full() {
      SendCounted(c, f);
    } else {
      NewSlotCounted(c, f.key, relay);
      ParkCounted(c.NewSlot(f.key, relay), f, relay);
    }
  }

  lemma ParkCounted(d: Conn, f: Frame, relay: bool)
    requires d.Counted() && (f.Base? || f.Ops?) && f.key in d.slots
    ensures d.SendState(f, relay).Counted()
  {
    assert d.pendingBytes <= d.cap;
    hide Conn.Counted;
    if f.Base? {
      SetSlotCounted(d, f.key, d.slots[f.key].(base := Some(f.start), ops := [], size := 0, lazy := false));
    } else if !d.slots[f.key].lazy {
      MakeRoomCounted(d, d.order, f.size, f.key);
      var r := d.MakeRoom(d.order, f.size, f.key);
      if f.key in r.slots && !r.slots[f.key].lazy {
        var slot := r.slots[f.key];
        SetSlotCounted(r, f.key, slot.(ops := slot.ops + f.ops, size := slot.size + f.size));
      }
    }
  }

  lemma ResetLaterCounted(c: Conn, k: Key)
    requires c.Counted()
    ensures c.ResetLater(k).Counted()
  {
    NewSlotCounted(c, k, false);
    var d := c.NewSlot(k, false);
    SetSlotCounted(d, k, Slot(None, [], 0, true, d.slots[k].relay));
  }

  lemma UnitsCounted(c: Conn, h: nat)
    requires c.Counted()
    ensures c.QueueUnit(h).Counted() && c.ForgetUnit(h).Counted()
  {
    WaitingAppend(c.order, c.slots, UnitSlot(h));
    if h !in c.units {
      assert UnitSlot(h) in c.QueueUnit(h).order;
    }
    WaitingWithoutUnit(c.order, c.slots, h);
    WithoutDistinct(c.order, UnitSlot(h));
  }

  lemma FlushSlotCounted(c: Conn, k: Key)
    requires c.Counted() && k in c.slots
    ensures c.FlushSlot(k).Counted()
  {
    RemoveCounted(c, k);
    SendAllCounted(c.Remove(k), SlotFrames(k, c.slots[k]));
  }

  // ----------------------------------------------------------------------------------------- what is waiting

  lemma {:induction false} SendAllOut(c: Conn, fs: seq<Frame>)
    ensures c.SendAll(fs).out == c.out + fs
    ensures c.SendAll(fs) == c.(out := c.out + fs, sent := c.SendAll(fs).sent, unacked := c.SendAll(fs).unacked,
                                unackedBytes := c.SendAll(fs).unackedBytes)
    decreases |fs|
  {
    if fs == [] {
      assert c.out + fs == c.out;
    } else {
      SendAllOut(c.Send(fs[0]), fs[1..]);
      assert c.out + [fs[0]] + fs[1..] == c.out + fs;
    }
  }

  /** What `SendState` puts on the link at once. */
  function Passed(c: Conn, f: Frame): (fs: seq<Frame>)
    requires f.Base? || f.Ops?
  {
    if f.key !in c.slots && !c.Full() then [f] else []
  }

  lemma DropCaught(c: Conn, k: Key, x: Key, t: Replica, target: Replica)
    requires k in c.slots && Caught(c, x, t, target)
    ensures Caught(c.Drop(k), x, t, target) && c.Drop(k).out == c.out
  {
  }

  lemma {:induction false} MakeRoomCaught(c: Conn, todo: seq<SlotKey>, size: nat, current: Key, x: Key, t: Replica, target: Replica)
    requires current in c.slots && Caught(c, x, t, target)
    ensures var d := c.MakeRoom(todo, size, current); Caught(d, x, t, target) && d.out == c.out
    ensures var d := c.MakeRoom(todo, size, current);
            current in d.slots && !d.slots[current].lazy ==> d.slots[current] == c.slots[current]
    ensures c.MakeRoom(todo, size, current).awaiting >= c.awaiting
    decreases |todo|
  {
    if c.pendingBytes + size > c.cap {
      if todo == [] {
        DropCaught(c, current, x, t, target);
      } else if c.Droppable(todo[0], current) {
        DropCaught(c, todo[0].key, x, t, target);
        MakeRoomCaught(c.Drop(todo[0].key), todo[1..], size, current, x, t, target);
      } else {
        MakeRoomCaught(c, todo[1..], size, current, x, t, target);
      }
    }
  }

  /** Sending a frame of a stream, or parking it, moves what the peer will have by exactly that frame. */
  lemma SendStateCaught(c: Conn, f: Frame, relay: bool, x: Key, t: Replica, target: Replica)
    requires f.Base? || f.Ops?
    requires Caught(c, x, t, target) && !t.Corrupt? && !target.Corrupt?
    requires x == f.key ==> x !in c.awaiting
    ensures var d := c.SendState(f, relay);
            d.out == c.out + Passed(c, f) && Caught(d, x, TakeAll(t, x, Passed(c, f)), Take(target, x, f))
  {
    if f.key !in c.slots && !c.Full() {
      TakeAllOne(t, x, [f]);
    } else {
      ParkStateCaught(c, f, relay, x, t, target);
    }
  }

  lemma ParkStateCaught(c: Conn, f: Frame, relay: bool, x: Key, t: Replica, target: Replica)
    requires (f.Base? || f.Ops?) && (f.key in c.slots || c.Full())
    requires Caught(c, x, t, target) && !target.Corrupt?
    requires x == f.key ==> x !in c.awaiting
    ensures var d := c.SendState(f, relay);
            Passed(c, f) == [] && d.out == c.out + [] && Caught(d, x, t, Take(target, x, f))
  {
    var e := c.NewSlot(f.key, relay);
    assert e.SendState(f, relay) == c.SendState(f, relay);
    assert Caught(e, x, t, target);
    assert c.out + [] == c.out;
    hide Conn.SendState, Take, Caught;
    ParkCaught(e, f, relay, x, t, target);
  }

  lemma ParkCaught(e: Conn, f: Frame, relay: bool, x: Key, t: Replica, target: Replica)
    requires (f.Base? || f.Ops?) && f.key in e.slots
    requires Caught(e, x, t, target) && !target.Corrupt?
    requires x == f.key ==> x !in e.awaiting
    ensures var d := e.SendState(f, relay); d.out == e.out && Caught(d, x, t, Take(target, x, f))
  {
    var k := f.key;
    if f.Ops? && !e.slots[k].lazy {
      MakeRoomCaught(e, e.order, f.size, k, x, t, target);
      MakeRoomAwaits(e, e.order, f.size, k);
      if x == k {
        var from := if e.slots[k].base.Some? then Started(e.slots[k].base.value) else t;
        PlayConcat(from, e.slots[k].ops, f.ops);
      }
    }
  }

  /** A stream that lost its slot is awaited; one that kept it is not. */
  lemma {:induction false} MakeRoomAwaits(c: Conn, todo: seq<SlotKey>, size: nat, current: Key)
    requires current in c.slots
    ensures var d := c.MakeRoom(todo, size, current);
            if current in d.slots then (current in d.awaiting <==> current in c.awaiting) else current in d.awaiting
    decreases |todo|
  {
    if c.pendingBytes + size > c.cap && todo != [] {
      if c.Droppable(todo[0], current) {
        MakeRoomAwaits(c.Drop(todo[0].key), todo[1..], size, current);
      } else {
        MakeRoomAwaits(c, todo[1..], size, current);
      }
    }
  }

  /** The frames of a slot bring the peer to what the slot stands for. */
  lemma SlotTaken(k: Key, slot: Slot, t: Replica)
    requires !t.Corrupt?
    ensures TakeAll(t, k, SlotFrames(k, slot)) == Play(if slot.base.Some? then Started(slot.base.value) else t, slot.ops)
  {
    var a: seq<Frame> := if slot.base.Some? then [Base(k, slot.base.value)] else [];
    var b: seq<Frame> := if slot.ops != [] then [Ops(k, slot.ops, slot.size)] else [];
    TakeAllConcat(t, k, a, b);
    TakeAllOne(t, k, a);
    TakeAllOne(TakeAll(t, k, a), k, b);
  }

  lemma FlushSlotSends(c: Conn, k: Key)
    requires k in c.slots
    ensures var d := c.FlushSlot(k);
            d.out == c.out + SlotFrames(k, c.slots[k]) && d.slots == c.slots - {k} && d.awaiting == c.awaiting
  {
    hide SlotFrames, Conn.SendAll;
    SendAllOut(c.Remove(k), SlotFrames(k, c.slots[k]));
  }

  lemma FlushSlotCaught(c: Conn, k: Key, x: Key, t: Replica, target: Replica)
    requires k in c.slots && !c.slots[k].lazy && k !in c.awaiting
    requires Caught(c, x, t, target) && !t.Corrupt? && !target.Corrupt?
    ensures Caught(c.FlushSlot(k), x, TakeAll(t, x, SlotFrames(k, c.slots[k])), target)
  {
    hide SlotFrames, TakeAll, Conn.FlushSlot, Caught, Play;
    FlushSlotSends(c, k);
    if x != k {
      FlushedElsewhere(k, c.slots[k], x, t);
    } else {
      SlotTaken(k, c.slots[k], t);
    }
    SlotGone(c, c.FlushSlot(k), k, x, t, TakeAll(t, x, SlotFrames(k, c.slots[k])), target);
  }

  lemma SlotGone(c: Conn, d: Conn, k: Key, x: Key, t: Replica, u: Replica, target: Replica)
    requires k in c.slots && !c.slots[k].lazy && k !in c.awaiting && Caught(c, x, t, target)
    requires d.slots == c.slots - {k} && d.awaiting == c.awaiting
    requires u == if x == k then Play(if c.slots[k].base.Some? then Started(c.slots[k].base.value) else t, c.slots[k].ops) else t
    ensures Caught(d, x, u, target)
  {
    hide Play;
  }

  lemma FlushedElsewhere(k: Key, slot: Slot, x: Key, t: Replica)
    requires x != k
    ensures TakeAll(t, x, SlotFrames(k, slot)) == t
  {
    TakeAllOther(t, x, SlotFrames(k, slot));
  }

  lemma TakeAllOne(t: Replica, k: Key, fs: seq<Frame>)
    requires |fs| <= 1
    ensures TakeAll(t, k, fs) == if fs == [] then t else Take(t, k, fs[0])
  {
    if fs != [] {
      assert fs[..|fs| - 1] == [];
    }
  }

  lemma {:induction false} DropStatesCounted(c: Conn, todo: seq<SlotKey>, gone: set<Key>)
    requires c.Counted()
    ensures var d := c.DropStates(todo, gone);
            d.Counted() && d == c.(slots := d.slots, order := d.order, pendingBytes := d.pendingBytes)
    ensures forall k :: k in c.DropStates(todo, gone).slots <==> k in c.slots && !(k in gone && StateSlot(k) in todo)
    ensures var d := c.DropStates(todo, gone); forall k :: k in d.slots ==> d.slots[k] == c.slots[k]
    decreases |todo|
  {
    if todo != [] {
      var drop := todo[0].StateSlot? && todo[0].key in gone;
      var d := if drop then c.DropState(todo[0].key) else c;
      if drop && todo[0].key in c.slots {
        RemoveCounted(c, todo[0].key);
      }
      DropStatesCounted(d, todo[1..], gone);
    }
  }

  lemma DropGone(c: Conn, gone: set<Key>)
    requires c.Counted()
    ensures var d := c.DropStates(c.order, gone);
            d.Counted() && d == c.(slots := d.slots, order := d.order, pendingBytes := d.pendingBytes)
            && (forall k :: k in d.slots <==> k in c.slots && k !in gone)
            && (forall k :: k in d.slots ==> d.slots[k] == c.slots[k])
  {
    DropStatesCounted(c, c.order, gone);
  }

  /** `d` sent some more than `c`, and counted it unless the peer does not acknowledge. */
  ghost predicate Sends(c: Conn, d: Conn) {
    && d.peerAcks == c.peerAcks && d.acked == c.acked && |c.out| <= |d.out|
    && (c.peerAcks != Some(false) ==> d.sent == c.sent + |d.out| - |c.out|)
  }

  lemma {:induction false} SendAllSends(c: Conn, fs: seq<Frame>)
    ensures Sends(c, c.SendAll(fs))
    decreases |fs|
  {
    if fs != [] {
      SendAllSends(c.Send(fs[0]), fs[1..]);
    }
  }

  lemma SendStateSends(c: Conn, f: Frame, relay: bool)
    requires f.Base? || f.Ops?
    ensures Sends(c, c.SendState(f, relay))
  {
    var e := c.NewSlot(f.key, relay);
    if Passed(c, f) == [] && f.Ops? && !e.slots[f.key].lazy {
      MakeRoomSends(e, e.order, f.size, f.key);
    }
  }

  lemma {:induction false} MakeRoomSends(c: Conn, todo: seq<SlotKey>, size: nat, current: Key)
    requires current in c.slots
    ensures Sends(c, c.MakeRoom(todo, size, current))
    decreases |todo|
  {
    if c.pendingBytes + size > c.cap && todo != [] {
      MakeRoomSends(if c.Droppable(todo[0], current) then c.Drop(todo[0].key) else c, todo[1..], size, current);
    }
  }
}
