/**
 The consuming end of a hold (packages/chord/src/remote.ts:245-383): a shape is applied once its snapshots are there.
 */
module Bindings {
  import opened Streams
  import opened Providing

  /** A shape waiting for its snapshots. */
  datatype Incoming = Incoming(shape: Shaped, missing: set<string>, values: map<string, Replica>)

  /** A binding whose views want state. `live` says a shape was applied for the current hold. */
  datatype Binding = Binding(
    contract: Contract, live: bool, hydrated: bool, shape: Option<Shaped>, members: map<string, Replica>,
    pending: Option<Incoming>)
  {
    function Wanted(shape: Shaped): (names: set<string>) {
      set m | m in StateMembers(contract, shape.variant, shape.members)
    }

    /** A unit begins: `listed` are the members whose snapshots follow. */
    function Shape(shape: Shaped, listed: seq<string>): (b: Binding) {
      var before := if pending.Some? then pending.value.missing else {};
      var values := if pending.Some? then pending.value.values else map[];
      var missing := ((set m | m in listed) + before) * Wanted(shape);
      var b := this.(pending := Some(Incoming(shape, missing, values)));
      if missing == {} then b.Apply() else b
    }

    predicate InVariant(m: string) {
      shape.Some? && shape.value.variant in contract && m in contract[shape.value.variant]
    }

    function State(m: string, f: Frame): (b: Binding)
      requires f.Base? || f.Ops?
    {
      if f.Ops? then
        if pending.Some? && m in pending.value.values then
          this.(pending := Some(pending.value.(values := pending.value.values[m := Play(pending.value.values[m], f.ops)])))
        else if m in members then this.(members := members[m := Play(members[m], f.ops)])
        else this
      else if pending.Some? && (m in pending.value.missing || m in pending.value.values) then
        var p := pending.value;
        var b := this.(pending := Some(Incoming(p.shape, p.missing - {m}, p.values[m := Started(f.start)])));
        if p.missing - {m} == {} then b.Apply() else b
      else if InVariant(m) then this.(members := members[m := Started(f.start)])
      else this
    }

    /** Members outside the variant go, new values replace old ones. */
    function Apply(): (b: Binding)
      requires pending.Some?
    {
      var p := pending.value;
      var wanted := Wanted(p.shape);
      var kept := map m | m in members.Keys + p.values.Keys && m in wanted :: if m in p.values then p.values[m] else members[m];
      Binding(contract, true, wanted <= kept.Keys, Some(p.shape), kept, None)
    }

    /** The link went down but may come back: the values stay readable. */
    function Detached(): (b: Binding) {
      this.(live := false, pending := None)
    }

    /** What a frame of the link does to the binding of `hold`. */
    function Receive(hold: nat, f: Frame): (b: Binding) {
      match f
      case Shape(h, variant, names, listed) => if h == hold then Shape(Shaped(variant, names), listed) else this
      case Base(k, _) => if k.hold == hold then State(k.member, f) else this
      case Ops(k, _, _) => if k.hold == hold then State(k.member, f) else this
      case Other => this
    }

    function Consume(hold: nat, fs: seq<Frame>): (b: Binding)
      decreases |fs|
    {
      if fs == [] then this else Receive(hold, fs[0]).Consume(hold, fs[1..])
    }

    /** What the binding knows of a member of the applied shape. */
    function Lookup(m: string): (r: Replica) {
      if m in members then members[m] else Unknown
    }

    /** A view that wants state is live exactly then (`RemoteRef.update`). */
    predicate ViewLive() {
      live && hydrated
    }

    /** Once a shape was applied every state member of it has a value, and no value is nonsense. */
    ghost predicate Settled() {
      && (shape.Some? ==> hydrated && forall m :: m in Wanted(shape.value) ==> m in members)
      && (forall m :: m in members ==> !members[m].Corrupt?)
      && (pending.Some? ==> forall m :: m in pending.value.values ==> !pending.value.values[m].Corrupt?)
    }

    /** `Settled` now and after every frame still on the link. */
    ghost predicate SettledAlong(hold: nat, fs: seq<Frame>)
      decreases |fs|
    {
      Settled() && (fs == [] || Receive(hold, fs[0]).SettledAlong(hold, fs[1..]))
    }
  }

  lemma {:induction false} ConsumeConcat(b: Binding, hold: nat, fs: seq<Frame>, gs: seq<Frame>)
    ensures b.Consume(hold, fs + gs) == b.Consume(hold, fs).Consume(hold, gs)
    decreases |fs|
  {
    if fs == [] {
      assert fs + gs == gs;
    } else {
      assert (fs + gs)[1..] == fs[1..] + gs;
      ConsumeConcat(b.Receive(hold, fs[0]), hold, fs[1..], gs);
    }
  }

  lemma {:induction false} SettledConcat(b: Binding, hold: nat, fs: seq<Frame>, gs: seq<Frame>)
    requires b.SettledAlong(hold, fs) && b.Consume(hold, fs).SettledAlong(hold, gs)
    ensures b.SettledAlong(hold, fs + gs)
    decreases |fs|
  {
    if fs == [] {
      assert fs + gs == gs;
    } else {
      assert (fs + gs)[1..] == fs[1..] + gs;
      SettledConcat(b.Receive(hold, fs[0]), hold, fs[1..], gs);
    }
  }

  /** `c` is `b` with its waiting shape applied over `values`. */
  ghost predicate Applied(b: Binding, c: Binding, shape: Shaped, values: map<string, Replica>) {
    && c.pending.None? && c.ViewLive() && c.contract == b.contract && c.shape == Some(shape)
    && c.members.Keys == b.Wanted(shape)
    && (forall m :: m in c.members ==>
          if m in values then c.members[m] == values[m] else m in b.members && c.members[m] == b.members[m])
  }

  /** Every state member of `shape` is here or among `names`. */
  ghost predicate Covered(b: Binding, shape: Shaped, names: set<string>) {
    forall m :: m in b.Wanted(shape) ==> m in b.members || m in names
  }

  lemma ApplyApplies(b: Binding)
    requires b.pending.Some? && Covered(b, b.pending.value.shape, b.pending.value.values.Keys) && b.Settled()
    ensures Applied(b, b.Apply(), b.pending.value.shape, b.pending.value.values) && b.Apply().Settled()
  {
  }

  /** One snapshot: it is kept until the last one is there. */
  lemma SnapshotArrives(b: Binding, hold: nat, m: string, start: Start)
    requires b.pending.Some? && m in b.pending.value.missing && b.Settled()
    requires Covered(b, b.pending.value.shape, b.pending.value.missing + b.pending.value.values.Keys)
    ensures var p := b.pending.value;
            var values := p.values[m := Started(start)];
            var c := b.Receive(hold, Base(Key(hold, m), start));
            c.Settled() && if p.missing == {m} then Applied(b, c, p.shape, values)
                           else c == b.(pending := Some(Incoming(p.shape, p.missing - {m}, values)))
  {
    var p := b.pending.value;
    var c := b.(pending := Some(Incoming(p.shape, p.missing - {m}, p.values[m := Started(start)])));
    if p.missing == {m} {
      assert p.missing - {m} == {};
      ApplyApplies(c);
    } else {
      assert p.missing - {m} != {};
    }
  }

  /** What the snapshots `fs` of `listed` say. */
  function Snapshots(values: map<string, Replica>, listed: seq<string>, fs: seq<Frame>): (r: map<string, Replica>)
    requires |fs| == |listed| && forall i :: 0 <= i < |fs| ==> fs[i].Base?
    decreases |listed|
  {
    if listed == [] then values else Snapshots(values[listed[0] := Started(fs[0].start)], listed[1..], fs[1..])
  }

  ghost predicate SnapshotFrames(hold: nat, listed: seq<string>, fs: seq<Frame>) {
    |fs| == |listed| && forall i :: 0 <= i < |fs| ==> fs[i].Base? && fs[i].key == Key(hold, listed[i])
  }

  /** The snapshots of a unit, received one by one: the last one applies the shape. */
  lemma {:induction false} UnitArrives(b: Binding, hold: nat, listed: seq<string>, fs: seq<Frame>)
    requires b.pending.Some? && listed != [] && Distinct(listed) && SnapshotFrames(hold, listed, fs) && b.Settled()
    requires b.pending.value.missing == set m | m in listed
    requires Covered(b, b.pending.value.shape, b.pending.value.missing + b.pending.value.values.Keys)
    ensures b.SettledAlong(hold, fs)
    ensures Applied(b, b.Consume(hold, fs), b.pending.value.shape, Snapshots(b.pending.value.values, listed, fs))
    decreases |fs|
  {
    var m := listed[0];
    var c := b.Receive(hold, fs[0]);
    SnapshotArrives(b, hold, m, fs[0].start);
    if listed[1..] == [] {
      assert b.pending.value.missing == {m};
      assert fs[1..] == [];
    } else {
      assert listed[1] in b.pending.value.missing && listed[1] != m;
      assert b.pending.value.missing - {m} == set x | x in listed[1..];
      UnitArrives(c, hold, listed[1..], fs[1..]);
    }
  }

  /** Reading a snapshot back: each listed member has what folding its frames gives, the others what they had. */
  lemma {:induction false} SnapshotsRead(values: map<string, Replica>, hold: nat, listed: seq<string>, fs: seq<Frame>, m: string, r: Replica)
    requires Distinct(listed) && SnapshotFrames(hold, listed, fs) && !r.Corrupt?
    ensures var s := Snapshots(values, listed, fs);
            if m in listed then m in s && s[m] == TakeAll(r, Key(hold, m), fs)
            else (m in s <==> m in values) && (m in s ==> s[m] == values[m]) && TakeAll(r, Key(hold, m), fs) == r
    decreases |listed|
  {
    if listed != [] {
      var next := values[listed[0] := Started(fs[0].start)];
      var k := Key(hold, m);
      TakeAllFirst(r, k, fs);
      SnapshotsRead(next, hold, listed[1..], fs[1..], m, Take(r, k, fs[0]));
    }
  }
}
