/**
 The binding behind a relay (packages/chord/src/connection.ts:129-253; remote.ts:245-383): shapes pass the relay at once,
 snapshots may wait there, be replaced or be asked for again, and still every member the provider feeds gets its value.
 */
module RelayedViews {
  import opened Streams
  import opened FlowControl
  import opened Providing
  import opened Bindings
  import opened Replication
  import opened Relaying
  import DirectLink

  // --------------------------------------------------------------------------------- what a binding has of a member

  /** `wanted`: the newest shape wants the member, which is there or expected. `filled`: it is there. */
  datatype Mark = Mark(wanted: bool, filled: bool)
  {
    predicate Below(u: Mark) {
      (wanted ==> u.wanted) && (filled ==> u.filled)
    }

    /** Its snapshot arrives. */
    function Fed(): (u: Mark) {
      if wanted then Mark(true, true) else this
    }
  }

  function Latest(b: Binding): (r: Option<Shaped>) {
    if b.pending.Some? then Some(b.pending.value.shape) else b.shape
  }

  predicate Expected(b: Binding, m: string) {
    b.pending.Some? && m in b.pending.value.missing
  }

  function MarkOf(b: Binding, m: string): (t: Mark) {
    var wanted := Latest(b).Some? && m in b.Wanted(Latest(b).value)
                  && (Expected(b, m) || m in b.members || (b.pending.Some? && m in b.pending.value.values));
    Mark(wanted, wanted && !Expected(b, m))
  }

  /** What a frame does to a mark at least. */
  function Marked(contract: Contract, hold: nat, m: string, t: Mark, f: Frame): (u: Mark) {
    match f
    case Shape(h, variant, names, listed) =>
      if h != hold then t
      else if m !in StateMembers(contract, variant, names) then Mark(false, false)
      else if m in listed then Mark(true, false)
      else t
    case Base(k, _) => if k == Key(hold, m) then t.Fed() else t
    case _ => t
  }

  function Marks(contract: Contract, hold: nat, m: string, t: Mark, fs: seq<Frame>): (u: Mark)
    decreases |fs|
  {
    if fs == [] then t else Marks(contract, hold, m, Marked(contract, hold, m, t, fs[0]), fs[1..])
  }

  lemma {:induction false} MarksConcat(contract: Contract, hold: nat, m: string, t: Mark, fs: seq<Frame>, gs: seq<Frame>)
    ensures Marks(contract, hold, m, t, fs + gs) == Marks(contract, hold, m, Marks(contract, hold, m, t, fs), gs)
    decreases |fs|
  {
    if fs == [] {
      assert fs + gs == gs;
    } else {
      assert (fs + gs)[1..] == fs[1..] + gs;
      MarksConcat(contract, hold, m, Marked(contract, hold, m, t, fs[0]), fs[1..], gs);
    }
  }

  lemma {:induction false} MarksBelow(contract: Contract, hold: nat, m: string, t: Mark, u: Mark, fs: seq<Frame>)
    requires t.Below(u)
    ensures Marks(contract, hold, m, t, fs).Below(Marks(contract, hold, m, u, fs))
    decreases |fs|
  {
    if fs != [] {
      MarksBelow(contract, hold, m, Marked(contract, hold, m, t, fs[0]), Marked(contract, hold, m, u, fs[0]), fs[1..]);
    }
  }

  /** Frames that say nothing of the member. */
  lemma {:induction false} MarksStill(contract: Contract, hold: nat, m: string, t: Mark, fs: seq<Frame>)
    requires forall i :: 0 <= i < |fs| ==> Marked(contract, hold, m, t, fs[i]) == t
    ensures Marks(contract, hold, m, t, fs) == t
    decreases |fs|
  {
    if fs != [] {
      MarksStill(contract, hold, m, t, fs[1..]);
    }
  }

  // ------------------------------------------------------------------------------------------- the shapes on the way

  function ShapesOf(hold: nat, fs: seq<Frame>): (r: seq<Frame>)
    ensures forall i :: 0 <= i < |r| ==> r[i].Shape? && r[i].hold == hold
  {
    if fs == [] then []
    else (if fs[0].Shape? && fs[0].hold == hold then [fs[0]] else []) + ShapesOf(hold, fs[1..])
  }

  lemma {:induction false} ShapesConcat(hold: nat, fs: seq<Frame>, gs: seq<Frame>)
    ensures ShapesOf(hold, fs + gs) == ShapesOf(hold, fs) + ShapesOf(hold, gs)
  {
    if fs == [] {
      assert fs + gs == gs;
    } else {
      assert (fs + gs)[1..] == fs[1..] + gs;
      ShapesConcat(hold, fs[1..], gs);
    }
  }

  lemma {:induction false} NoShapes(hold: nat, fs: seq<Frame>)
    requires forall i :: 0 <= i < |fs| ==> !(fs[i].Shape? && fs[i].hold == hold)
    ensures ShapesOf(hold, fs) == []
  {
    if fs != [] {
      NoShapes(hold, fs[1..]);
    }
  }

  /** Whether a member is wanted after these shapes, if it is before: the part of a mark that only shapes move. */
  function Wants(contract: Contract, m: string, w: bool, shapes: seq<Frame>): (r: bool)
    requires forall i :: 0 <= i < |shapes| ==> shapes[i].Shape?
  {
    if shapes == [] then w
    else
      var f := shapes[|shapes| - 1];
      m in StateMembers(contract, f.variant, f.members)
      && (m in f.listed || Wants(contract, m, w, shapes[..|shapes| - 1]))
  }

  lemma MarksLast(contract: Contract, hold: nat, m: string, t: Mark, fs: seq<Frame>, f: Frame)
    ensures Marks(contract, hold, m, t, fs + [f]) == Marked(contract, hold, m, Marks(contract, hold, m, t, fs), f)
  {
    MarksConcat(contract, hold, m, t, fs, [f]);
    assert [f][1..] == [];
    hide Marked;
  }

  lemma ShapesLast(hold: nat, fs: seq<Frame>, f: Frame)
    ensures ShapesOf(hold, fs + [f]) == if f.Shape? && f.hold == hold then ShapesOf(hold, fs) + [f] else ShapesOf(hold, fs)
  {
    ShapesConcat(hold, fs, [f]);
    assert [f][1..] == [];
  }

  lemma {:induction false} MarksWanted(contract: Contract, hold: nat, m: string, t: Mark, fs: seq<Frame>)
    ensures Marks(contract, hold, m, t, fs).wanted == Wants(contract, m, t.wanted, ShapesOf(hold, fs))
    decreases |fs|
  {
    if fs != [] {
      var init, last := fs[..|fs| - 1], fs[|fs| - 1];
      assert fs == init + [last];
      MarksLast(contract, hold, m, t, init, last);
      ShapesLast(hold, init, last);
      MarksWanted(contract, hold, m, t, init);
      hide Marks, ShapesOf;
      if last.Shape? && last.hold == hold {
        assert ShapesOf(hold, fs)[..|ShapesOf(hold, fs)| - 1] == ShapesOf(hold, init);
      }
    }
  }

  /** Each shape finds every member it wants and does not list already wanted: no shape leaves a gap. */
  predicate Covers(contract: Contract, m: string, w: bool, shapes: seq<Frame>)
    requires forall i :: 0 <= i < |shapes| ==> shapes[i].Shape?
  {
    shapes == []
    || var f := shapes[|shapes| - 1];
       && Covers(contract, m, w, shapes[..|shapes| - 1])
       && (m in StateMembers(contract, f.variant, f.members) && m !in f.listed ==> Wants(contract, m, w, shapes[..|shapes| - 1]))
  }

  lemma CoversOne(contract: Contract, m: string, w: bool, f: Frame)
    requires f.Shape?
    ensures var wants := m in StateMembers(contract, f.variant, f.members);
            && Wants(contract, m, w, [f]) == (wants && (m in f.listed || w))
            && Covers(contract, m, w, [f]) == (wants && m !in f.listed ==> w)
  {
    assert [f][..|[f]| - 1] == [];
  }

  lemma {:induction false} WantsFirst(contract: Contract, m: string, w: bool, v: bool, shapes: seq<Frame>)
    requires shapes != [] && (forall i :: 0 <= i < |shapes| ==> shapes[i].Shape?)
    requires Wants(contract, m, w, [shapes[0]]) ==> v
    ensures Wants(contract, m, w, shapes) ==> Wants(contract, m, v, shapes[1..])
    ensures Covers(contract, m, w, shapes) ==> Covers(contract, m, v, shapes[1..]) && Covers(contract, m, w, [shapes[0]])
  {
    var init := shapes[..|shapes| - 1];
    if init == [] {
      assert shapes == [shapes[0]] && shapes[1..] == [];
    } else {
      WantsFirst(contract, m, w, v, init);
      assert init[1..] == shapes[1..][..|shapes| - 2] && init[0] == shapes[0];
    }
  }

  lemma {:induction false} WantsMore(contract: Contract, m: string, w: bool, v: bool, shapes: seq<Frame>)
    requires (w ==> v) && forall i :: 0 <= i < |shapes| ==> shapes[i].Shape?
    ensures Wants(contract, m, w, shapes) ==> Wants(contract, m, v, shapes)
    ensures Covers(contract, m, w, shapes) ==> Covers(contract, m, v, shapes)
  {
    if shapes != [] {
      WantsMore(contract, m, w, v, shapes[..|shapes| - 1]);
    }
  }

  // ------------------------------------------------------------------------------------------ the binding's own part

  /** What the binding has is a value. */
  ghost predicate Valued(b: Binding) {
    && (forall m :: m in b.members ==> !b.members[m].Unknown?)
    && (b.pending.Some? ==> forall m :: m in b.pending.value.values ==> !b.pending.value.values[m].Unknown?)
  }

  /** Every applied shape is hydrated, and what a waiting shape wants is there or expected. */
  ghost predicate Hydrating(b: Binding) {
    && Valued(b) && (forall m :: m in b.members ==> b.InVariant(m))
    && (b.shape.Some? ==> b.hydrated && forall m :: m in b.Wanted(b.shape.value) ==> m in b.members)
    && (b.pending.Some? ==>
          && b.pending.value.missing != {} && b.pending.value.missing <= b.Wanted(b.pending.value.shape)
          && forall m :: m in b.Wanted(b.pending.value.shape) ==> MarkOf(b, m).wanted)
  }

  lemma ApplyHydrates(b: Binding)
    requires b.pending.Some? && b.pending.value.missing == {} && Valued(b)
    requires forall m :: m in b.Wanted(b.pending.value.shape) ==> m in b.members || m in b.pending.value.values
    ensures var c := b.Apply();
            && Hydrating(c) && c.live && c.contract == b.contract && c.pending.None? && Latest(c) == Latest(b)
            && forall m :: MarkOf(b, m).Below(MarkOf(c, m))
  {
  }

  lemma ShapeMarks(b: Binding, shape: Shaped, listed: seq<string>)
    requires Hydrating(b)
    requires forall m :: m in b.Wanted(shape) && m !in listed ==> MarkOf(b, m).wanted
    ensures var c := b.Shape(shape, listed);
            && Hydrating(c) && c.contract == b.contract && Latest(c) == Some(shape) && (c.live || c.pending.Some?)
            && forall m :: m in b.Wanted(shape) ==> (if m in listed then Mark(true, false) else MarkOf(b, m)).Below(MarkOf(c, m))
  {
    var before := if b.pending.Some? then b.pending.value.missing else {};
    var values := if b.pending.Some? then b.pending.value.values else map[];
    var missing := ((set m | m in listed) + before) * b.Wanted(shape);
    var d := b.(pending := Some(Incoming(shape, missing, values)));
    assert d.Wanted(shape) == b.Wanted(shape);
    forall m | m in b.Wanted(shape)
      ensures m in missing || m in d.members || m in values
      ensures (if m in listed then Mark(true, false) else MarkOf(b, m)).Below(MarkOf(d, m))
    {
    }
    if missing == {} {
      ApplyHydrates(d);
    }
  }

  /** A snapshot for a waiting shape. */
  lemma SnapshotMarks(b: Binding, m: string, start: Start)
    requires Hydrating(b) && b.pending.Some? && (m in b.pending.value.missing || m in b.pending.value.values)
    ensures var p := b.pending.value;
            var d := b.(pending := Some(Incoming(p.shape, p.missing - {m}, p.values[m := Started(start)])));
            var c := if p.missing - {m} == {} then d.Apply() else d;
            && Hydrating(c) && c.contract == b.contract && Latest(c) == Latest(b) && (c.live || c.pending.Some?)
            && forall x :: (if x == m then MarkOf(b, x).Fed() else MarkOf(b, x)).Below(MarkOf(c, x))
  {
    var p := b.pending.value;
    var d := b.(pending := Some(Incoming(p.shape, p.missing - {m}, p.values[m := Started(start)])));
    assert d.Wanted(p.shape) == b.Wanted(p.shape) && (b.shape.Some? ==> d.Wanted(b.shape.value) == b.Wanted(b.shape.value));
    hide Binding.Wanted;
    forall x | x in d.Wanted(p.shape)
      ensures x in p.missing - {m} || x in d.members || x in d.pending.value.values
      ensures MarkOf(d, x).wanted
    {
      assert MarkOf(b, x).wanted;
    }
    forall x
      ensures (if x == m then MarkOf(b, x).Fed() else MarkOf(b, x)).Below(MarkOf(d, x))
    {
    }
    if p.missing - {m} == {} {
      ApplyHydrates(d);
      hide MarkOf, Hydrating, Binding.Apply;
      var c := d.Apply();
      forall x
        ensures (if x == m then MarkOf(b, x).Fed() else MarkOf(b, x)).Below(MarkOf(c, x))
      {
        assert MarkOf(d, x).Below(MarkOf(c, x));
      }
    }
  }

  lemma {:induction false} PlayValued(r: Replica, ops: seq<Wire>)
    requires !r.Unknown?
    ensures !Play(r, ops).Unknown?
    decreases |ops|
  {
    if ops != [] && r.Known? && ops[0].stream == r.stream && ops[0].index == r.next {
      PlayValued(Known(ops[0].op(r.value), r.stream, r.next + 1), ops[1..]);
    }
  }

  /** Values change, and a member of the variant may be added. */
  ghost predicate Grown(b: Binding, c: Binding) {
    && Valued(c) && c.contract == b.contract && c.shape == b.shape && c.live == b.live && c.hydrated == b.hydrated
    && b.members.Keys <= c.members.Keys && (forall m :: m in c.members ==> m in b.members || c.InVariant(m))
    && c.pending.Some? == b.pending.Some?
    && (b.pending.Some? && c.pending.Some? ==>
          && c.pending.value.shape == b.pending.value.shape && c.pending.value.missing == b.pending.value.missing
          && c.pending.value.values.Keys == b.pending.value.values.Keys)
  }

  lemma GrownMarks(b: Binding, c: Binding)
    requires Hydrating(b) && Grown(b, c)
    ensures Hydrating(c) && Latest(c) == Latest(b) && forall m :: MarkOf(b, m).Below(MarkOf(c, m))
  {
    assert forall shape :: c.Wanted(shape) == b.Wanted(shape);
    hide Binding.Wanted;
    forall m
      ensures MarkOf(b, m).Below(MarkOf(c, m))
    {
      assert m in b.members ==> m in c.members;
    }
    assert forall m :: MarkOf(b, m).wanted ==> MarkOf(c, m).wanted;
    assert forall m :: m in b.members ==> b.InVariant(m) && c.InVariant(m);
  }

  /** A frame for the members of the applied shape, or for a value that waits, or for nobody. */
  lemma MemberMarks(b: Binding, f: Frame)
    requires Hydrating(b) && (f.Base? || f.Ops?)
    requires f.Base? ==> !(b.pending.Some? && (f.key.member in b.pending.value.missing || f.key.member in b.pending.value.values))
    ensures Grown(b, b.State(f.key.member, f))
  {
    hide Binding.Wanted, Play, MarkOf;
    var m, c := f.key.member, b.State(f.key.member, f);
    if f.Ops? && b.pending.Some? && m in b.pending.value.values {
      PlayValued(b.pending.value.values[m], f.ops);
    } else if f.Ops? && m in b.members {
      PlayValued(b.members[m], f.ops);
    }
    assert Valued(c);
  }

  lemma StateMarks(b: Binding, hold: nat, f: Frame)
    requires Hydrating(b) && (f.Base? || f.Ops?)
    ensures var c := b.State(f.key.member, f);
            && Hydrating(c) && c.contract == b.contract && Latest(c) == Latest(b)
            && (b.live || b.pending.Some? ==> c.live || c.pending.Some?)
            && forall m :: (if f.Base? && m == f.key.member then MarkOf(b, m).Fed() else MarkOf(b, m)).Below(MarkOf(c, m))
  {
    var m := f.key.member;
    if f.Base? && b.pending.Some? && (m in b.pending.value.missing || m in b.pending.value.values) {
      SnapshotMarks(b, m, f.start);
      hide MarkOf, Hydrating, Binding.Apply;
    } else {
      MemberMarks(b, f);
      assert f.Base? ==> MarkOf(b, m).Fed() == MarkOf(b, m);
      GrownMarks(b, b.State(m, f));
      hide MarkOf, Hydrating, Binding.State;
    }
  }

  /** A frame moves the mark of every member at least as `Marked` says. */
  lemma ReceiveMarks(b: Binding, hold: nat, f: Frame)
    requires Hydrating(b)
    requires f.Shape? && f.hold == hold ==>
      forall m :: m in StateMembers(b.contract, f.variant, f.members) && m !in f.listed ==> MarkOf(b, m).wanted
    ensures var c := b.Receive(hold, f);
            && Hydrating(c) && c.contract == b.contract
            && Latest(c) == (if f.Shape? && f.hold == hold then Some(Shaped(f.variant, f.members)) else Latest(b))
            && ((f.Shape? && f.hold == hold) || b.live || b.pending.Some? ==> c.live || c.pending.Some?)
            && forall m :: Marked(b.contract, hold, m, MarkOf(b, m), f).Below(MarkOf(c, m))
  {
    hide Hydrating, MarkOf, Latest, Binding.Shape, Binding.State;
    match f
    case Shape(h, variant, names, listed) =>
      if h == hold {
        var shape := Shaped(variant, names);
        assert forall m :: m in b.Wanted(shape) <==> m in StateMembers(b.contract, variant, names);
        ShapeMarks(b, shape, listed);
      }
    case Base(k, _) =>
      if k.hold == hold {
        StateMarks(b, hold, f);
      }
    case Ops(k, _, _) =>
      if k.hold == hold {
        StateMarks(b, hold, f);
      }
    case Other =>
  }

  // ----------------------------------------------------------------------------------------------------- the chain

  /** A snapshot of `k` waits at the relay, or its reset is awaited there. */
  predicate Due(o: Conn, k: Key) {
    k in o.awaiting || (k in o.slots && o.slots[k].base.Some?)
  }

  /** What is on the link to the consumer, then what is on the link to the relay. */
  function Way(s: Chain): (fs: seq<Frame>) {
    s.r.origin.out + s.p.conn.out
  }

  /** The frames on the way fill the member, or they would with the snapshot that is due at the relay. */
  predicate Delivered(b: Binding, hold: nat, o: Conn, out: seq<Frame>, k: Key) {
    var there := Marks(b.contract, hold, k.member, MarkOf(b, k.member), o.out);
    || Marks(b.contract, hold, k.member, there, out).filled
    || (Due(o, k) && Marks(b.contract, hold, k.member, there.Fed(), out).filled)
  }

  /** Every member the provider feeds is or will be filled, and no shape on the way leaves a gap. */
  ghost predicate Filling(s: Chain) {
    && s.hold in s.p.contracts && s.p.contracts[s.hold] == s.b.contract && Hydrating(s.b)
    && (forall k :: k in s.p.feeds && k.hold == s.hold ==> Delivered(s.b, s.hold, s.r.origin, s.p.conn.out, k))
    && (forall m :: Covers(s.b.contract, m, MarkOf(s.b, m).wanted, ShapesOf(s.hold, Way(s))))
  }

  function Newest(b: Binding, shapes: seq<Frame>): (r: Option<Shaped>)
    requires forall i :: 0 <= i < |shapes| ==> shapes[i].Shape?
  {
    if shapes == [] then Latest(b)
    else Some(Shaped(shapes[|shapes| - 1].variant, shapes[|shapes| - 1].members))
  }

  /** Once a unit went out the consumer has it or will; if no other waits, it is of the current shape. */
  ghost predicate Current(s: Chain) {
    s.hold in s.p.unitSent ==>
      && s.hold in s.p.shapes
      && (s.b.live || s.b.pending.Some? || ShapesOf(s.hold, Way(s)) != [])
      && (s.hold !in s.p.conn.units ==>
            && Newest(s.b, ShapesOf(s.hold, Way(s))) == Some(s.p.shapes[s.hold])
            && forall m :: m in s.p.Members(s.hold) ==> Key(s.hold, m) in s.p.feeds)
  }

  /** The binding starts with the provider's contract, and with whatever it kept of an earlier link. */
  ghost predicate Joined(s: Chain) {
    s.hold in s.p.contracts && s.p.contracts[s.hold] == s.b.contract && s.b.pending.None? && Hydrating(s.b)
  }

  ghost predicate View(s: Chain) {
    Inv(s) && Filling(s) && Current(s)
  }

  lemma InitView(s: Chain)
    requires Init(s) && Joined(s)
    ensures View(s)
  {
    InitInv(s);
    assert Way(s) == [];
  }

  // ------------------------------------------------------------------------------------------------ at the relay

  lemma {:induction false} MakeRoomDue(c: Conn, todo: seq<SlotKey>, size: nat, current: Key, k: Key)
    requires c.Relayed() && current in c.slots && Due(c, k)
    ensures Due(c.MakeRoom(todo, size, current), k)
    decreases |todo|
  {
    if c.pendingBytes + size > c.cap && todo != [] {
      MakeRoomDue(if c.Droppable(todo[0], current) then c.Drop(todo[0].key) else c, todo[1..], size, current, k);
    }
  }

  lemma SendStateDue(c: Conn, f: Frame, k: Key)
    requires c.Relayed() && (f.Base? || f.Ops?)
    ensures Due(c, k) ==> Due(c.SendState(f, true), k)
    ensures f.Base? && Passed(c, f) == [] ==> Due(c.SendState(f, true), f.key)
  {
    if Passed(c, f) == [] && f.Ops? && Due(c, k) {
      var e := c.NewSlot(f.key, true);
      assert e.Relayed() && Due(e, k);
      MakeRoomDue(e, e.order, f.size, f.key, k);
      MakeRoomKept(e, e.order, f.size, f.key);
    }
  }

  /** The current slot is as it was, unless it is dropped. */
  lemma {:induction false} MakeRoomKept(c: Conn, todo: seq<SlotKey>, size: nat, current: Key)
    requires current in c.slots
    ensures var d := c.MakeRoom(todo, size, current);
            current in d.slots && !d.slots[current].lazy ==> d.slots[current] == c.slots[current]
    decreases |todo|
  {
    if c.pendingBytes + size > c.cap && todo != [] {
      MakeRoomKept(if c.Droppable(todo[0], current) then c.Drop(todo[0].key) else c, todo[1..], size, current);
    }
  }

  /** What is due stays due unless its snapshot comes; a snapshot passes or is due. */
  lemma StateDue(r: Relay, f: Frame, k: Key)
    requires r.origin.Relayed() && (f.Base? || f.Ops?)
    requires f.key in r.urgent ==> f.key !in r.origin.slots && f.key !in r.origin.awaiting
    ensures var o := r.State(f).origin;
            && o.out == r.origin.out + PassedOn(r, f)
            && (Due(r.origin, k) && !(f.Base? && f.key == k) ==> Due(o, k))
            && (f.Base? && f.key == k ==> PassedOn(r, f) == [f] || Due(o, k))
  {
    if f.key in r.origin.awaiting && f.Ops? {
      assert r.origin.out + [] == r.origin.out;
    } else {
      var c := r.origin.(awaiting := r.origin.awaiting - {f.key});
      SendStateDue(c, f, k);
      SendStateAdds(c, f, true);
    }
  }

  /** Nothing changed that the shapes on the way and the binding's part depend on. */
  ghost predicate Beside(s: Chain, t: Chain) {
    && t.b == s.b && t.hold == s.hold && t.p.contracts == s.p.contracts && t.p.shapes == s.p.shapes
    && t.p.feeds.Keys == s.p.feeds.Keys && t.p.unitSent == s.p.unitSent && t.p.conn.units == s.p.conn.units
    && ShapesOf(t.hold, Way(t)) == ShapesOf(s.hold, Way(s))
  }

  lemma BesideView(s: Chain, t: Chain)
    requires Filling(s) && Current(s) && Beside(s, t)
    requires forall k :: k in s.p.feeds && k.hold == s.hold ==> Delivered(t.b, t.hold, t.r.origin, t.p.conn.out, k)
    ensures Filling(t) && Current(t)
  {
    assert t.p.Members(t.hold) == s.p.Members(s.hold);
    hide Delivered, Hydrating, ShapesOf, Way, MarkOf;
    forall k | k in t.p.feeds && k.hold == t.hold
      ensures Delivered(t.b, t.hold, t.r.origin, t.p.conn.out, k)
    {
      assert k in s.p.feeds.Keys;
    }
    forall m | m in t.p.Members(t.hold)
      ensures Key(s.hold, m) in s.p.feeds ==> Key(t.hold, m) in t.p.feeds
    {
      assert Key(t.hold, m) in s.p.feeds ==> Key(t.hold, m) in s.p.feeds.Keys;
    }
  }

  /** Everything the relay sends on of a frame is that frame. */
  lemma PassOut(r: Relay, f: Frame)
    requires r.origin.Relayed() && forall k :: k in r.urgent ==> k !in r.origin.slots && k !in r.origin.awaiting
    ensures r.Pass(f).origin.out == r.origin.out + [f] || (!f.Shape? && r.Pass(f).origin.out == r.origin.out)
  {
    if f.Base? || f.Ops? {
      StateDue(r, f, f.key);
      hide Relay.State;
      assert r.origin.out + [] == r.origin.out;
    }
  }

  /** A frame moves from the second link to the first, or is kept or dropped between them. */
  lemma MovedDelivered(b: Binding, hold: nat, o: Conn, o': Conn, out: seq<Frame>, k: Key)
    requires out != [] && Delivered(b, hold, o, out, k) && k.hold == hold
    requires o'.out == o.out + [out[0]] || (!out[0].Shape? && o'.out == o.out)
    requires var base := out[0].Base? && out[0].key == k;
             && (Due(o, k) && !base ==> Due(o', k)) && (base ==> o'.out == o.out + [out[0]] || Due(o', k))
    ensures Delivered(b, hold, o', out[1..], k)
  {
    var f, m := out[0], k.member;
    var there := Marks(b.contract, hold, m, MarkOf(b, m), o.out);
    hide MarkOf, Due;
    assert k == Key(hold, m);
    MarksLast(b.contract, hold, m, MarkOf(b, m), o.out, f);
    if f.Shape? {
      MarksBelow(b.contract, hold, m, Marked(b.contract, hold, m, there.Fed(), f),
                 Marked(b.contract, hold, m, there, f).Fed(), out[1..]);
    }
  }

  lemma ForwardDelivered(s: Chain, k: Key)
    requires Inv(s) && s.p.conn.out != [] && Delivered(s.b, s.hold, s.r.origin, s.p.conn.out, k) && k.hold == s.hold
    ensures var t := Act(s, Forward); Delivered(t.b, t.hold, t.r.origin, t.p.conn.out, k)
  {
    var f, t := s.p.conn.out[0], Act(s, Forward);
    assert t.r == s.r.Pass(f) && t.p.conn.out == s.p.conn.out[1..] && t.b == s.b && t.hold == s.hold;
    hide Act, Delivered;
    PassOut(s.r, f);
    PassDue(s.r, f, k);
    hide Inv, Relay.Pass, Due;
    MovedDelivered(s.b, s.hold, s.r.origin, t.r.origin, s.p.conn.out, k);
  }

  lemma PassDue(r: Relay, f: Frame, k: Key)
    requires r.origin.Relayed() && forall k :: k in r.urgent ==> k !in r.origin.slots && k !in r.origin.awaiting
    ensures var o := r.Pass(f).origin;
            && (Due(r.origin, k) && !(f.Base? && f.key == k) ==> Due(o, k))
            && (f.Base? && f.key == k ==> o.out == r.origin.out + [f] || Due(o, k))
  {
    if f.Base? || f.Ops? {
      StateDue(r, f, k);
      hide Relay.State, Due;
    }
  }

  lemma PassShapes(r: Relay, f: Frame, hold: nat)
    requires r.origin.Relayed() && forall k :: k in r.urgent ==> k !in r.origin.slots && k !in r.origin.awaiting
    ensures ShapesOf(hold, r.Pass(f).origin.out) == ShapesOf(hold, r.origin.out) + ShapesOf(hold, [f])
  {
    PassOut(r, f);
    hide Relay.Pass, Conn.Relayed;
    ShapesConcat(hold, r.origin.out, [f]);
    if !f.Shape? {
      NoShapes(hold, [f]);
    }
  }

  /** A frame that goes from the second part to the end of the first leaves the shapes in place. */
  lemma ShapesMove(hold: nat, a: seq<Frame>, c: seq<Frame>, out: seq<Frame>)
    requires out != [] && ShapesOf(hold, c) == ShapesOf(hold, a) + ShapesOf(hold, [out[0]])
    ensures ShapesOf(hold, c + out[1..]) == ShapesOf(hold, a + out)
  {
    hide ShapesOf;
    ShapesConcat(hold, a, out);
    ShapesConcat(hold, c, out[1..]);
    assert out == [out[0]] + out[1..];
    ShapesConcat(hold, [out[0]], out[1..]);
    var x, y, z := ShapesOf(hold, a), ShapesOf(hold, [out[0]]), ShapesOf(hold, out[1..]);
    assert (x + y) + z == x + (y + z);
  }

  lemma ForwardBeside(s: Chain)
    requires Inv(s) && s.p.conn.out != []
    ensures Beside(s, Act(s, Forward))
  {
    var out, t := s.p.conn.out, Act(s, Forward);
    assert t.r == s.r.Pass(out[0]) && t.p == s.p.(conn := s.p.conn.(out := out[1..])) && t.b == s.b && t.hold == s.hold;
    assert s.r.origin.Relayed() && Fresh(s.p, s.r);
    hide Act, Inv, ShapesOf, Relay.Pass, Conn.Relayed;
    PassShapes(s.r, out[0], s.hold);
    ShapesMove(s.hold, s.r.origin.out, t.r.origin.out, out);
  }

  lemma ForwardView(s: Chain)
    requires View(s) && s.p.conn.out != []
    ensures Filling(Act(s, Forward)) && Current(Act(s, Forward))
  {
    var t := Act(s, Forward);
    ForwardBeside(s);
    hide Inv, Act, Beside, Delivered, Hydrating, Covers;
    forall k | k in s.p.feeds && k.hold == s.hold
      ensures Delivered(t.b, t.hold, t.r.origin, t.p.conn.out, k)
    {
      ForwardDelivered(s, k);
    }
    hide Filling, Current;
    assert Filling(s) && Current(s);
    BesideView(s, t);
  }

  lemma SlotMarks(contract: Contract, k: Key, x: Key, t: Mark, slot: Slot)
    ensures Marks(contract, k.hold, k.member, t, SlotFrames(x, slot)) == if x == k && slot.base.Some? then t.Fed() else t
  {
    var fs := SlotFrames(x, slot);
    assert k == Key(k.hold, k.member);
    if x == k && slot.base.Some? {
      assert Marked(contract, k.hold, k.member, t, fs[0]) == t.Fed();
      MarksStill(contract, k.hold, k.member, t.Fed(), fs[1..]);
    } else {
      MarksStill(contract, k.hold, k.member, t, fs);
    }
  }

  lemma FlushDelivered(s: Chain, k: Key)
    requires Inv(s) && Can(s, Flush) && Delivered(s.b, s.hold, s.r.origin, s.p.conn.out, k) && k.hold == s.hold
    ensures var t := Act(s, Flush); Delivered(t.b, t.hold, t.r.origin, t.p.conn.out, k)
  {
    var o := s.r.origin;
    var x := o.order[0].key;
    var there := Marks(s.b.contract, s.hold, k.member, MarkOf(s.b, k.member), o.out);
    assert x !in o.awaiting by {
      assert Caught(o, x, TakeAll(At(s.seen, x), x, o.out), At(s.got, x));
    }
    FlushSlotSends(o, x);
    MarksConcat(s.b.contract, s.hold, k.member, MarkOf(s.b, k.member), o.out, SlotFrames(x, o.slots[x]));
    SlotMarks(s.b.contract, k, x, there, o.slots[x]);
    MarksBelow(s.b.contract, s.hold, k.member, there, there.Fed(), s.p.conn.out);
    hide Inv, Conn.FlushSlot, SlotFrames, MarkOf, Marks;
  }

  /** The relay sends more, none of it a shape. */
  lemma AddedBeside(s: Chain, t: Chain, fs: seq<Frame>)
    requires t.b == s.b && t.hold == s.hold && t.p.conn.out == s.p.conn.out && t.r.origin.out == s.r.origin.out + fs
    requires t.p.contracts == s.p.contracts && t.p.shapes == s.p.shapes && t.p.feeds.Keys == s.p.feeds.Keys
    requires t.p.unitSent == s.p.unitSent && t.p.conn.units == s.p.conn.units
    requires forall i :: 0 <= i < |fs| ==> !fs[i].Shape?
    ensures Beside(s, t)
  {
    var o, out := s.r.origin.out, s.p.conn.out;
    NoShapes(s.hold, fs);
    hide ShapesOf;
    ShapesConcat(s.hold, o, out);
    ShapesConcat(s.hold, o, fs);
    ShapesConcat(s.hold, t.r.origin.out, out);
  }

  lemma FlushView(s: Chain)
    requires View(s) && Can(s, Flush)
    ensures Filling(Act(s, Flush)) && Current(Act(s, Flush))
  {
    var o, t := s.r.origin, Act(s, Flush);
    var x := o.order[0].key;
    FlushSlotSends(o, x);
    AddedBeside(s, t, SlotFrames(x, o.slots[x]));
    hide Inv, Act, Beside, Delivered, Hydrating, Covers;
    forall k | k in s.p.feeds && k.hold == s.hold
      ensures Delivered(t.b, t.hold, t.r.origin, t.p.conn.out, k)
    {
      FlushDelivered(s, k);
    }
    hide Filling, Current;
    assert Filling(s) && Current(s);
    BesideView(s, t);
  }

  /** Acknowledgements, other frames, and what the relay asks for. */
  lemma BackView(s: Chain, a: Action)
    requires View(s) && Can(s, a) && (a.Ack? || a.Hello? || a.Busy? || a.AskArrives?)
    ensures Filling(Act(s, a)) && Current(Act(s, a))
  {
    var o, t := s.r.origin, Act(s, a);
    BackSame(s, a);
    hide Inv, Act, Hydrating, Covers, Delivered;
    AddedBeside(s, t, if a.Busy? then [Other] else []);
    hide Beside;
    forall k | k in s.p.feeds && k.hold == s.hold
      ensures Delivered(t.b, t.hold, t.r.origin, t.p.conn.out, k)
    {
      BusyDelivered(s.b, s.hold, o, t.r.origin, s.p.conn.out, k);
    }
    hide Filling, Current;
    assert Filling(s) && Current(s);
    BesideView(s, t);
  }

  lemma BackSame(s: Chain, a: Action)
    requires s.p.Valid() && Can(s, a) && (a.Ack? || a.Hello? || a.Busy? || a.AskArrives?)
    ensures var o, t := s.r.origin, Act(s, a);
            && t.r.origin.slots == o.slots && t.r.origin.awaiting == o.awaiting && t.p.conn.out == s.p.conn.out
            && t.r.origin.out == o.out + (if a.Busy? then [Other] else []) && t.b == s.b && t.hold == s.hold
            && t.p.contracts == s.p.contracts && t.p.shapes == s.p.shapes && t.p.feeds.Keys == s.p.feeds.Keys
            && t.p.unitSent == s.p.unitSent && t.p.conn.units == s.p.conn.units
  {
    hide Provider.Valid;
    assert s.r.origin.out + [] == s.r.origin.out;
    match a
    case Ack(n) =>
    case Hello(acks) =>
    case Busy =>
    case AskArrives =>
    case _ =>
  }

  lemma BusyDelivered(b: Binding, hold: nat, o: Conn, o': Conn, out: seq<Frame>, k: Key)
    requires Delivered(b, hold, o, out, k) && o'.slots == o.slots && o'.awaiting == o.awaiting
    requires o'.out == o.out || o'.out == o.out + [Other]
    ensures Delivered(b, hold, o', out, k)
  {
    MarksLast(b.contract, hold, k.member, MarkOf(b, k.member), o.out, Other);
    hide MarkOf, Marks;
  }

  // --------------------------------------------------------------------------------------------- at the consumer

  lemma ConsumeDelivered(b: Binding, c: Binding, hold: nat, o: Conn, out: seq<Frame>, k: Key)
    requires o.out != [] && Delivered(b, hold, o, out, k) && c.contract == b.contract
    requires Marked(b.contract, hold, k.member, MarkOf(b, k.member), o.out[0]).Below(MarkOf(c, k.member))
    ensures Delivered(c, hold, o.(out := o.out[1..]), out, k)
  {
    hide MarkOf, Marked;
    var t, u := Marked(b.contract, hold, k.member, MarkOf(b, k.member), o.out[0]), MarkOf(c, k.member);
    MarksBelow(b.contract, hold, k.member, t, u, o.out[1..]);
    var there, after := Marks(b.contract, hold, k.member, t, o.out[1..]), Marks(b.contract, hold, k.member, u, o.out[1..]);
    MarksBelow(b.contract, hold, k.member, there, after, out);
    MarksBelow(b.contract, hold, k.member, there.Fed(), after.Fed(), out);
  }

  /** The shapes behind the first frame find what they need. */
  lemma ConsumeCovers(b: Binding, c: Binding, hold: nat, fs: seq<Frame>, m: string)
    requires fs != [] && Covers(b.contract, m, MarkOf(b, m).wanted, ShapesOf(hold, fs)) && c.contract == b.contract
    requires Marked(b.contract, hold, m, MarkOf(b, m), fs[0]).Below(MarkOf(c, m))
    ensures Covers(c.contract, m, MarkOf(c, m).wanted, ShapesOf(hold, fs[1..]))
  {
    hide MarkOf;
    var shapes := ShapesOf(hold, fs);
    if fs[0].Shape? && fs[0].hold == hold {
      assert shapes == [fs[0]] + ShapesOf(hold, fs[1..]);
      assert shapes[0] == fs[0] && shapes[1..] == ShapesOf(hold, fs[1..]);
      CoversOne(b.contract, m, MarkOf(b, m).wanted, fs[0]);
      hide StateMembers, Covers, Wants;
      WantsFirst(b.contract, m, MarkOf(b, m).wanted, MarkOf(c, m).wanted, shapes);
    } else {
      assert shapes == ShapesOf(hold, fs[1..]);
      WantsMore(b.contract, m, MarkOf(b, m).wanted, MarkOf(c, m).wanted, shapes);
    }
  }

  /** The first of the shapes finds what it needs. */
  lemma FirstCovers(b: Binding, hold: nat, fs: seq<Frame>, m: string)
    requires fs != [] && fs[0].Shape? && fs[0].hold == hold
    requires Covers(b.contract, m, MarkOf(b, m).wanted, ShapesOf(hold, fs))
    requires m in StateMembers(b.contract, fs[0].variant, fs[0].members) && m !in fs[0].listed
    ensures MarkOf(b, m).wanted
  {
    hide MarkOf;
    var shapes := ShapesOf(hold, fs);
    assert shapes == [fs[0]] + ShapesOf(hold, fs[1..]);
    CoversOne(b.contract, m, MarkOf(b, m).wanted, fs[0]);
    hide StateMembers, Covers, Wants;
    WantsFirst(b.contract, m, MarkOf(b, m).wanted, true, shapes);
  }

  lemma ConsumeReceives(s: Chain)
    requires Filling(s) && s.r.origin.out != []
    ensures var f := s.r.origin.out[0];
            var c := s.b.Receive(s.hold, f);
            && Hydrating(c) && c.contract == s.b.contract
            && Latest(c) == (if f.Shape? && f.hold == s.hold then Some(Shaped(f.variant, f.members)) else Latest(s.b))
            && ((f.Shape? && f.hold == s.hold) || s.b.live || s.b.pending.Some? ==> c.live || c.pending.Some?)
            && forall m :: Marked(s.b.contract, s.hold, m, MarkOf(s.b, m), f).Below(MarkOf(c, m))
  {
    var f := s.r.origin.out[0];
    assert Way(s) != [] && Way(s)[0] == f;
    hide MarkOf, Hydrating, ShapesOf;
    forall m | f.Shape? && f.hold == s.hold && m in StateMembers(s.b.contract, f.variant, f.members) && m !in f.listed
      ensures MarkOf(s.b, m).wanted
    {
      FirstCovers(s.b, s.hold, Way(s), m);
    }
    ReceiveMarks(s.b, s.hold, f);
  }

  lemma ConsumeView(s: Chain)
    requires View(s) && s.r.origin.out != []
    ensures Filling(Act(s, Consume)) && Current(Act(s, Consume))
  {
    var t, f := Act(s, Consume), s.r.origin.out[0];
    ConsumeReceives(s);
    assert t.b == s.b.Receive(s.hold, f) && t.p == s.p && t.hold == s.hold && t.r.origin == s.r.origin.(out := s.r.origin.out[1..]);
    assert Way(s) == [f] + Way(t);
    assert Way(s)[0] == f && Way(s)[1..] == Way(t);
    hide Inv, Act, Hydrating, MarkOf, Marked, Binding.Receive, Way;
    forall k | k in s.p.feeds && k.hold == s.hold
      ensures Delivered(t.b, t.hold, t.r.origin, t.p.conn.out, k)
    {
      ConsumeDelivered(s.b, t.b, s.hold, s.r.origin, s.p.conn.out, k);
    }
    forall m
      ensures Covers(t.b.contract, m, MarkOf(t.b, m).wanted, ShapesOf(t.hold, Way(t)))
    {
      ConsumeCovers(s.b, t.b, s.hold, Way(s), m);
    }
    hide Delivered, Covers;
    assert Filling(t);
    ConsumeCurrent(s, t);
  }

  lemma ConsumeCurrent(s: Chain, t: Chain)
    requires Current(s) && t.p == s.p && t.hold == s.hold && Way(s) != [] && Way(t) == Way(s)[1..]
    requires var f := Way(s)[0];
             && Latest(t.b) == (if f.Shape? && f.hold == s.hold then Some(Shaped(f.variant, f.members)) else Latest(s.b))
             && ((f.Shape? && f.hold == s.hold) || s.b.live || s.b.pending.Some? ==> t.b.live || t.b.pending.Some?)
    ensures Current(t)
  {
    hide Way, Latest, Provider.Members;
    var f := Way(s)[0];
    assert ShapesOf(s.hold, Way(s)) == (if f.Shape? && f.hold == s.hold then [f] else []) + ShapesOf(s.hold, Way(t));
  }

  // --------------------------------------------------------------------------------------------- at the provider

  lemma {:induction false} FilledWanted(contract: Contract, hold: nat, m: string, t: Mark, fs: seq<Frame>)
    requires t.filled ==> t.wanted
    ensures var u := Marks(contract, hold, m, t, fs); u.filled ==> u.wanted
    decreases |fs|
  {
    if fs != [] {
      FilledWanted(contract, hold, m, Marked(contract, hold, m, t, fs[0]), fs[1..]);
    }
  }

  /** What is delivered is wanted by the last shape on the way. */
  lemma DeliveredWanted(b: Binding, hold: nat, o: Conn, out: seq<Frame>, k: Key)
    requires Delivered(b, hold, o, out, k)
    ensures Wants(b.contract, k.member, MarkOf(b, k.member).wanted, ShapesOf(hold, o.out + out))
  {
    var m, t := k.member, MarkOf(b, k.member);
    var there := Marks(b.contract, hold, m, t, o.out);
    assert t.filled ==> t.wanted;
    hide MarkOf, Wants, ShapesOf;
    FilledWanted(b.contract, hold, m, t, o.out);
    FilledWanted(b.contract, hold, m, there, out);
    FilledWanted(b.contract, hold, m, there.Fed(), out);
    MarksWanted(b.contract, hold, m, t, o.out + out);
    MarksConcat(b.contract, hold, m, t, o.out, out);
    MarksWanted(b.contract, hold, m, there, out);
    MarksWanted(b.contract, hold, m, there.Fed(), out);
  }

  lemma {:induction false} SnapshotsMark(contract: Contract, hold: nat, m: string, t: Mark, listed: seq<string>, fs: seq<Frame>)
    requires SnapshotFrames(hold, listed, fs)
    ensures Marks(contract, hold, m, t, fs) == if m in listed then t.Fed() else t
    decreases |fs|
  {
    if fs != [] {
      assert fs[0].key == Key(hold, listed[0]);
      SnapshotsMark(contract, hold, m, Marked(contract, hold, m, t, fs[0]), listed[1..], fs[1..]);
    }
  }

  /** A unit fills what it lists, and leaves what it wants besides as it was. */
  lemma UnitMarks(r: Provider, hold: nat, m: string, t: Mark)
    requires hold in r.shapes && hold in r.contracts && r.Readable(hold) && m in r.Members(hold)
    ensures Marks(r.contracts[hold], hold, m, t, r.UnitFrames(hold)) == if m in r.Listed(hold) then Mark(true, true) else t
  {
    var listed, fs := r.Listed(hold), r.UnitFrames(hold);
    AttachAllShape(r, hold, listed);
    assert fs[1..] == r.AttachAll(hold, listed).1;
    hide Provider.AttachAll, Provider.Listed, Provider.Readable;
    SnapshotsMark(r.contracts[hold], hold, m, Marked(r.contracts[hold], hold, m, t, fs[0]), listed, fs[1..]);
  }

  function UnitShape(r: Provider, hold: nat): (f: Frame)
    requires hold in r.shapes
  {
    Shape(hold, r.shapes[hold].variant, r.shapes[hold].members, r.Listed(hold))
  }

  lemma UnitShapes(r: Provider, hold: nat)
    requires hold in r.shapes && r.Readable(hold)
    ensures ShapesOf(hold, r.UnitFrames(hold)) == [UnitShape(r, hold)]
  {
    var listed, fs := r.Listed(hold), r.UnitFrames(hold);
    AttachAllShape(r, hold, listed);
    assert fs[1..] == r.AttachAll(hold, listed).1;
    hide Provider.AttachAll, Provider.Listed, Provider.Readable;
    NoShapes(hold, fs[1..]);
  }

  /** The provider as it is when a step sends a unit of `hold`. */
  function UnitFrom(p: Provider, step: Step, hold: nat): (r: Provider) {
    if step.ReShape? then p.Pruned(hold, step.shape) else p
  }

  /** `q` is `r` after its unit of `hold`. */
  ghost predicate UnitWent(p: Provider, r: Provider, q: Provider, hold: nat) {
    && hold in r.shapes && r.Readable(hold) && r.contracts == p.contracts && q.contracts == p.contracts && q.shapes == r.shapes
    && hold in q.unitSent && hold !in q.conn.units && (forall k :: k in r.feeds ==> k in p.feeds)
    && (forall k :: k in q.feeds <==> k in r.feeds || (k.hold == hold && k.member in r.Listed(hold)))
  }

  lemma SendUnitWent(r: Provider, hold: nat)
    requires hold in r.shapes && r.Readable(hold)
    ensures UnitWent(r, r, r.SendUnit(hold), hold)
  {
    var q := r.(conn := r.conn.ForgetUnit(hold));
    assert q.Members(hold) == r.Members(hold);
    UnfedSame(r, q, hold, r.Members(hold));
    AttachAllShape(q, hold, q.Listed(hold));
    SendAllOut(q.conn, q.UnitFrames(hold));
    hide Provider.AttachAll, Conn.SendAll, Provider.UnitFrames;
  }

  lemma UnitStep(p: Provider, step: Step, hold: nat)
    requires p.Valid() && Enabled(p, step) && DirectLink.SendsUnit(p, step, hold)
    ensures var r := UnitFrom(p, step, hold);
            UnitWent(p, r, Next(p, step), hold) && Frames(p, step) == r.UnitFrames(hold)
  {
    hide Conn.Counted, Provider.FeedsOk, Provider.UnitFrames, Provider.SendUnit;
    if step.ReShape? {
      PrunedShapes(p, hold, step.shape);
    } else {
      FlushReady(p);
    }
    hide Provider.ShapesOk, Provider.Readable;
    SendUnitWent(UnitFrom(p, step, hold), hold);
  }

  lemma UnitFilling(s: Chain, step: Step)
    requires View(s) && Enabled(s.p, step) && DirectLink.SendsUnit(s.p, step, s.hold)
    requires Next(s.p, step).ShapesOk() && Next(s.p, step).conn.out == s.p.conn.out + Frames(s.p, step)
    ensures var t := s.(p := Next(s.p, step)); Filling(t) && Current(t)
  {
    var q, r := Next(s.p, step), UnitFrom(s.p, step, s.hold);
    UnitStep(s.p, step, s.hold);
    UnitGoes(s, r, q);
  }

  lemma UnitWay(s: Chain, r: Provider, q: Provider)
    requires UnitWent(s.p, r, q, s.hold) && q.conn.out == s.p.conn.out + r.UnitFrames(s.hold)
    ensures ShapesOf(s.hold, Way(s.(p := q))) == ShapesOf(s.hold, Way(s)) + [UnitShape(r, s.hold)]
  {
    hide Provider.UnitFrames, Provider.Listed, ShapesOf, UnitShape;
    UnitShapes(r, s.hold);
    assert Way(s.(p := q)) == Way(s) + r.UnitFrames(s.hold);
    hide UnitWent, Way;
    ShapesConcat(s.hold, Way(s), r.UnitFrames(s.hold));
  }

  lemma UnitGoes(s: Chain, r: Provider, q: Provider)
    requires Filling(s) && q.ShapesOk() && UnitWent(s.p, r, q, s.hold) && q.conn.out == s.p.conn.out + r.UnitFrames(s.hold)
    ensures var t := s.(p := q); Filling(t) && Current(t)
  {
    UnitWay(s, r, q);
    assert q.Members(s.hold) == r.Members(s.hold);
    assert forall k :: k in q.feeds && k.hold == s.hold ==> k.member in r.Members(s.hold);
    hide Provider.UnitFrames, Provider.ShapesOk, Provider.Listed, Hydrating;
    UnitFills(s, r, q);
    hide Filling;
  }

  lemma UnitFills(s: Chain, r: Provider, q: Provider)
    requires Filling(s) && UnitWent(s.p, r, q, s.hold) && q.conn.out == s.p.conn.out + r.UnitFrames(s.hold)
    requires forall k :: k in q.feeds && k.hold == s.hold ==> k.member in r.Members(s.hold)
    ensures Filling(s.(p := q))
  {
    UnitWay(s, r, q);
    forall k | k in q.feeds && k.hold == s.hold
      ensures Delivered(s.b, s.hold, s.r.origin, q.conn.out, k)
    {
      UnitDelivered(s, r, q, k);
    }
    forall m
      ensures Covers(s.b.contract, m, MarkOf(s.b, m).wanted, ShapesOf(s.hold, Way(s)) + [UnitShape(r, s.hold)])
    {
      UnitCovers(s, r, m);
    }
    hide Provider.UnitFrames, Provider.Listed, Provider.Readable, Hydrating, MarkOf, ShapesOf, Delivered, Covers, Way, UnitShape;
  }

  lemma UnitDelivered(s: Chain, r: Provider, q: Provider, k: Key)
    requires Filling(s) && UnitWent(s.p, r, q, s.hold) && q.conn.out == s.p.conn.out + r.UnitFrames(s.hold)
    requires k in q.feeds && k.hold == s.hold && k.member in r.Members(s.hold)
    ensures Delivered(s.b, s.hold, s.r.origin, q.conn.out, k)
  {
    var fs, c := r.UnitFrames(s.hold), s.b.contract;
    var there := Marks(c, s.hold, k.member, MarkOf(s.b, k.member), s.r.origin.out);
    assert k == Key(s.hold, k.member);
    MarksConcat(c, s.hold, k.member, there, s.p.conn.out, fs);
    MarksConcat(c, s.hold, k.member, there.Fed(), s.p.conn.out, fs);
    UnitMarks(r, s.hold, k.member, Marks(c, s.hold, k.member, there, s.p.conn.out));
    UnitMarks(r, s.hold, k.member, Marks(c, s.hold, k.member, there.Fed(), s.p.conn.out));
    hide Provider.UnitFrames, MarkOf, Marks, Hydrating, Covers, Provider.Readable;
    if k.member !in r.Listed(s.hold) {
      assert Delivered(s.b, s.hold, s.r.origin, s.p.conn.out, k);
    }
  }

  lemma UnitCovers(s: Chain, r: Provider, m: string)
    requires Filling(s) && s.hold in r.shapes && r.contracts == s.p.contracts && (forall k :: k in r.feeds ==> k in s.p.feeds)
    ensures Covers(s.b.contract, m, MarkOf(s.b, m).wanted, ShapesOf(s.hold, Way(s)) + [UnitShape(r, s.hold)])
  {
    var f := UnitShape(r, s.hold);
    var shapes := ShapesOf(s.hold, Way(s));
    assert (shapes + [f])[..|shapes + [f]| - 1] == shapes;
    hide Hydrating, MarkOf, ShapesOf, Delivered;
    assert Covers(s.b.contract, m, MarkOf(s.b, m).wanted, shapes);
    if m in r.Members(s.hold) && m !in r.Listed(s.hold) {
      var k := Key(s.hold, m);
      assert k in r.feeds;
      DeliveredWanted(s.b, s.hold, s.r.origin, s.p.conn.out, k);
    }
  }

  /** Stream frames of `hold` only fill. */
  lemma {:induction false} StreamMarks(p: Provider, contract: Contract, hold: nat, m: string, t: Mark, fs: seq<Frame>)
    requires forall i :: 0 <= i < |fs| ==> DirectLink.OfStream(p, hold, fs[i])
    ensures t.Below(Marks(contract, hold, m, t, fs))
    decreases |fs|
  {
    if fs != [] {
      assert DirectLink.OfStream(p, hold, fs[0]);
      StreamMarks(p, contract, hold, m, Marked(contract, hold, m, t, fs[0]), fs[1..]);
    }
  }

  lemma StreamsFill(s: Chain, q: Provider, fs: seq<Frame>)
    requires Filling(s) && DirectLink.OnlyStreams(s.p, q, s.hold, fs) && q.conn.out == s.p.conn.out + fs
    ensures Filling(s.(p := q)) && ShapesOf(s.hold, Way(s.(p := q))) == ShapesOf(s.hold, Way(s))
  {
    var t := s.(p := q);
    assert Way(t) == Way(s) + fs;
    ShapesConcat(s.hold, Way(s), fs);
    forall i | 0 <= i < |fs|
      ensures !(fs[i].Shape? && fs[i].hold == s.hold)
    {
      assert DirectLink.OfStream(s.p, s.hold, fs[i]);
    }
    NoShapes(s.hold, fs);
    assert ShapesOf(t.hold, Way(t)) == ShapesOf(s.hold, Way(s));
    hide Hydrating, ShapesOf, Covers, Way, MarkOf, Delivered;
    forall k | k in q.feeds && k.hold == s.hold
      ensures Delivered(t.b, t.hold, t.r.origin, t.p.conn.out, k)
    {
      StreamsDelivered(s, q, fs, k);
    }
    forall m
      ensures Covers(t.b.contract, m, MarkOf(t.b, m).wanted, ShapesOf(t.hold, Way(t)))
    {
      assert Covers(s.b.contract, m, MarkOf(s.b, m).wanted, ShapesOf(s.hold, Way(s)));
    }
  }

  lemma StreamsDelivered(s: Chain, q: Provider, fs: seq<Frame>, k: Key)
    requires Delivered(s.b, s.hold, s.r.origin, s.p.conn.out, k) && q.conn.out == s.p.conn.out + fs
    requires forall i :: 0 <= i < |fs| ==> DirectLink.OfStream(s.p, s.hold, fs[i])
    ensures Delivered(s.b, s.hold, s.r.origin, q.conn.out, k)
  {
    hide MarkOf, DirectLink.OfStream;
    var c := s.b.contract;
    var there := Marks(c, s.hold, k.member, MarkOf(s.b, k.member), s.r.origin.out);
    MarksConcat(c, s.hold, k.member, there, s.p.conn.out, fs);
    MarksConcat(c, s.hold, k.member, there.Fed(), s.p.conn.out, fs);
    StreamMarks(s.p, c, s.hold, k.member, Marks(c, s.hold, k.member, there, s.p.conn.out), fs);
    StreamMarks(s.p, c, s.hold, k.member, Marks(c, s.hold, k.member, there.Fed(), s.p.conn.out), fs);
  }

  /** What a step that sends no unit of `hold` leaves of its shape, unless a unit of it waits. */
  ghost predicate Still(p: Provider, q: Provider, hold: nat) {
    && (hold in p.shapes ==> hold in q.shapes)
    && (hold in p.shapes && hold !in q.conn.units ==>
          && hold !in p.conn.units && q.shapes[hold] == p.shapes[hold]
          && forall k :: k in p.feeds && k.hold == hold ==> k in q.feeds)
  }

  lemma {:induction false} MakeRoomUnits(c: Conn, todo: seq<SlotKey>, size: nat, current: Key)
    requires current in c.slots
    ensures c.MakeRoom(todo, size, current).units == c.units
    decreases |todo|
  {
    if c.pendingBytes + size > c.cap && todo != [] {
      MakeRoomUnits(if c.Droppable(todo[0], current) then c.Drop(todo[0].key) else c, todo[1..], size, current);
    }
  }

  lemma DeliverStill(p: Provider, k: Key, hold: nat)
    requires k in p.feeds && p.feeds[k].queued != []
    ensures Still(p, p.Deliver(k), hold)
  {
    NextFrameTarget(p, k);
    var f := NextFrame(p, k);
    var e := p.conn.NewSlot(k, false);
    if Passed(p.conn, f) == [] && f.Ops? && !e.slots[k].lazy {
      MakeRoomUnits(e, e.order, f.size, k);
    }
  }

  lemma SendUnitStill(p: Provider, h: nat, hold: nat)
    requires p.Readable(h) && (h == hold ==> h !in p.shapes)
    ensures Still(p, p.SendUnit(h), hold)
  {
    if h in p.shapes {
      SendUnitWent(p, h);
      var q := p.(conn := p.conn.ForgetUnit(h));
      AttachAllShape(q, h, q.Listed(h));
      SendAllOut(q.conn, q.UnitFrames(h));
    }
    hide Provider.AttachAll, Conn.SendAll, Provider.UnitFrames, Provider.Readable, Provider.Listed;
  }

  lemma ReShapeStill(p: Provider, h: nat, shape: Shaped, hold: nat)
    requires p.Valid() && Enabled(p, ReShape(h, shape)) && (h == hold ==> !p.Pruned(h, shape).Urgent(h))
    ensures Still(p, p.ReShape(h, shape), hold)
  {
    var q := p.Pruned(h, shape);
    PrunedShapes(p, h, shape);
    DropGone(p.conn, p.(shapes := p.shapes[h := shape]).Gone(h));
    assert h != hold ==> Still(p, q, hold);
    hide Provider.Valid, Conn.DropStates, Provider.SendUnit;
    if q.Urgent(h) {
      SendUnitStill(q, h, hold);
    }
  }

  lemma FlushStill(p: Provider, hold: nat)
    requires p.Valid() && Enabled(p, FlushOne) && !DirectLink.SendsUnit(p, FlushOne, hold)
    ensures Still(p, Next(p, FlushOne), hold)
  {
    FlushReady(p);
    hide Provider.Valid, Provider.SendUnit, Still, Conn.Remove, Conn.FlushSlot, Provider.Resend;
    match p.conn.order[0]
    case UnitSlot(h) => SendUnitStill(p, h, hold);
    case StateSlot(k) => SlotStill(p, k, hold);
  }

  lemma SlotStill(p: Provider, k: Key, hold: nat)
    requires k in p.conn.slots && k in p.feeds && k in p.current
    ensures Still(p, p.(conn := p.conn.Remove(k)).Resend(k), hold) && Still(p, p.(conn := p.conn.FlushSlot(k)), hold)
  {
    hide SlotFrames, Conn.SendAll;
    SendAllOut(p.conn.Remove(k), SlotFrames(k, p.conn.slots[k]));
  }

  lemma StepStill(p: Provider, step: Step, hold: nat)
    requires p.Valid() && Enabled(p, step) && step != DropHold(hold) && !DirectLink.SendsUnit(p, step, hold)
    ensures Still(p, Next(p, step), hold)
  {
    hide Conn.Counted, Provider.FeedsOk, Provider.ShapesOk, Provider.Deliver, Provider.ReShape, Provider.FlushOne;
    match step
    case Deliver(k) => DeliverStill(p, k, hold);
    case ReShape(h, shape) => ReShapeStill(p, h, shape, hold);
    case FlushOne => FlushStill(p, hold);
    case DropHold(h) => DropGone(p.conn, set k | k in p.feeds && k.hold == h);
    case _ =>
  }

  lemma StreamsCurrent(s: Chain, q: Provider, fs: seq<Frame>)
    requires Current(s) && DirectLink.OnlyStreams(s.p, q, s.hold, fs) && Still(s.p, q, s.hold)
    requires ShapesOf(s.hold, Way(s.(p := q))) == ShapesOf(s.hold, Way(s))
    ensures Current(s.(p := q))
  {
    hide ShapesOf, Way, Latest;
  }

  lemma DropHoldView(s: Chain)
    requires Filling(s) && s.p.Valid()
    ensures var t := s.(p := s.p.DropHold(s.hold)); Filling(t) && Current(t)
  {
    DropGone(s.p.conn, set k | k in s.p.feeds && k.hold == s.hold);
    hide Provider.Valid, Hydrating, ShapesOf, Covers, MarkOf, Delivered;
    var t := s.(p := s.p.DropHold(s.hold));
    assert Way(t) == Way(s);
  }

  lemma ProvideView(s: Chain, step: Step)
    requires View(s) && Enabled(s.p, step)
    ensures var t := Act(s, Provide(step)); Filling(t) && Current(t)
  {
    var q := Next(s.p, step);
    var t := s.(p := q);
    assert Act(s, Provide(step)) == t;
    ProvideUpstream(s.p, s.got, step);
    hide Inv, Act, Frames, DirectLink.OnlyStreams, DirectLink.SendsUnit, Delivered, Hydrating, Covers;
    if step == DropHold(s.hold) {
      hide Filling, Current;
      DropHoldView(s);
    } else if DirectLink.SendsUnit(s.p, step, s.hold) {
      assert q.ShapesOk();
      hide Filling, Current, Next, Provider.Valid;
      UnitFilling(s, step);
    } else {
      hide Filling, Current, Next, Provider.Valid;
      DirectLink.StepOfStream(s.p, step, s.hold);
      StepStill(s.p, step, s.hold);
      StreamsFill(s, q, Frames(s.p, step));
      StreamsCurrent(s, q, Frames(s.p, step));
    }
  }

  // ------------------------------------------------------------------------------------------------------- runs

  lemma ActView(s: Chain, a: Action)
    requires View(s) && Can(s, a)
    ensures View(Act(s, a))
  {
    ActInv(s, a);
    hide Inv, Filling, Current, Act;
    match a
    case Provide(step) => ProvideView(s, step);
    case Forward => ForwardView(s);
    case Flush => FlushView(s);
    case Consume => ConsumeView(s);
    case _ => BackView(s, a);
  }

  lemma LeadsView(s: Chain, t: Chain)
    requires View(s) && Leads(s, t)
    ensures View(t)
  {
    hide View, Provider.Valid, Act;
    var a :| Can(s, a) && t == Act(s, a);
    ActView(s, a);
  }

  lemma {:induction false} RunView(run: seq<Chain>)
    requires IsRun(run) && Joined(run[0])
    ensures View(run[|run| - 1])
  {
    hide View, Init, Joined, Leads;
    if |run| == 1 {
      InitView(run[0]);
    } else {
      var init := run[..|run| - 1];
      assert forall i :: 0 <= i < |init| - 1 ==> Leads(init[i], init[i + 1]);
      RunView(init);
      assert Leads(run[|run| - 2], run[|run| - 1]);
      LeadsView(init[|init| - 1], run[|run| - 1]);
    }
  }

  /**
   Behind a relay too, after every frame: a binding that applied a shape is hydrated and has every state member of it, and
   what a waiting shape wants is there or expected.
   */
  lemma AlwaysHydrated(run: seq<Chain>)
    requires IsRun(run) && Joined(run[0])
    ensures var b := run[|run| - 1].b;
            && (b.shape.Some? ==> b.hydrated && forall m :: m in b.Wanted(b.shape.value) ==> m in b.members)
            && (b.pending.Some? ==>
                  && b.pending.value.missing != {}
                  && forall m :: m in b.Wanted(b.pending.value.shape) ==>
                       m in b.pending.value.missing || m in b.pending.value.values || m in b.members)
  {
    RunView(run);
    var b := run[|run| - 1].b;
    forall m | b.pending.Some? && m in b.Wanted(b.pending.value.shape)
      ensures m in b.pending.value.missing || m in b.pending.value.values || m in b.members
    {
      assert MarkOf(b, m).wanted;
    }
  }

  lemma QuietFilled(s: Chain, k: Key)
    requires View(s) && s.p.conn.out == [] && s.r.origin.out == [] && k in s.p.feeds && k.hold == s.hold
    requires k !in s.r.origin.slots && k !in s.r.origin.awaiting
    ensures MarkOf(s.b, k.member).filled
  {
    assert Delivered(s.b, s.hold, s.r.origin, s.p.conn.out, k);
  }

  /**
   When nothing is on the way at either hop and no member of the hold waits at the relay or is awaited there, the binding
   is live, in the provider's shape and with every state member of it, once a unit was sent and none waits.
   */
  lemma QuietHydrated(run: seq<Chain>)
    requires IsRun(run) && Joined(run[0])
    requires var s := run[|run| - 1];
             && s.p.conn.out == [] && s.r.origin.out == [] && s.hold in s.p.unitSent && s.hold !in s.p.conn.units
             && forall k :: k in s.p.feeds && k.hold == s.hold ==> k !in s.r.origin.slots && k !in s.r.origin.awaiting
    ensures var s := run[|run| - 1];
            && s.hold in s.p.shapes && s.b.pending.None? && s.b.ViewLive() && s.b.shape == Some(s.p.shapes[s.hold])
            && forall m :: m in s.p.Members(s.hold) ==> m in s.b.members
  {
    RunView(run);
    var s := run[|run| - 1];
    assert Way(s) == [] && ShapesOf(s.hold, Way(s)) == [];
    assert Latest(s.b) == Some(s.p.shapes[s.hold]);
    assert forall m :: m in s.b.Wanted(s.p.shapes[s.hold]) <==> m in s.p.Members(s.hold);
    hide IsRun, Inv, Joined;
    forall m | m in s.p.Members(s.hold)
      ensures MarkOf(s.b, m).filled
    {
      QuietFilled(s, Key(s.hold, m));
    }
    if s.b.pending.Some? {
      assert false;
    }
  }

  /**
   Once nothing of a member is on the way or waits anywhere, the binding behind the relay holds it with the source's
   value: in a live view, or for a shape that still lacks others.
   */
  lemma QuietMeansEqual(run: seq<Chain>, k: Key)
    requires IsRun(run) && Joined(run[0])
    requires var s := run[|run| - 1];
             && k in s.p.feeds && k.hold == s.hold && s.p.feeds[k].queued == []
             && s.p.conn.out == [] && k !in s.p.conn.slots
             && s.r.origin.out == [] && s.r.origin.asks == [] && k !in s.r.origin.slots
    ensures var s := run[|run| - 1];
            && k in s.p.current && Held(s.b, k.member).Known? && Held(s.b, k.member).value == s.p.current[k]
            && (s.b.pending.None? ==> k.member in s.b.members)
  {
    hide Joined, Leads, Init, Inv, Current;
    var s := run[|run| - 1];
    RunView(run);
    QuietChainEqual(run, k);
    QuietFilled(s, k);
    hide IsRun;
    assert Inv(s) && Valued(s.b) by {
      assert View(s) && Filling(s) && Hydrating(s.b);
    }
    FilledHeld(s, k);
  }

  /** What is filled is held: as it reached the binding. */
  lemma FilledHeld(s: Chain, k: Key)
    requires Inv(s) && Valued(s.b) && k.hold == s.hold && MarkOf(s.b, k.member).filled
    ensures Held(s.b, k.member) == At(s.seen, k)
    ensures s.b.pending.None? ==> k.member in s.b.members
  {
    assert Tracks(s.b, s.hold, s.seen);
    hide Inv;
    assert k == Key(s.hold, k.member);
    assert Held(s.b, k.member) == At(s.seen, Key(s.hold, k.member)) || Held(s.b, k.member).Unknown?;
  }
}
