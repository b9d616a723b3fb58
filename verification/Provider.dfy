/**
 The providing end of a link: what it serves, the feeds of its state members, and every operation that sends state
 (packages/chord/src/connection.ts:936-1098).
 */
module Providing {
  import opened Streams
  import opened FlowControl

  /** Variant to its state members, as the consumer's contract describes it. Both ends hold the same contract. */
  type Contract = map<string, set<string>>

  function StateMembers(contract: Contract, variant: string, members: seq<string>): (names: seq<string>)
    ensures forall m :: m in names <==> m in members && variant in contract && m in contract[variant]
  {
    if members == [] then []
    else (if variant in contract && members[0] in contract[variant] then [members[0]] else [])
         + StateMembers(contract, variant, members[1..])
  }

  /** A later event of a source: ops that produce its next value, or a reset. `size` is the ops' JSON text length. */
  datatype Event = OpsEvent(ops: seq<Op>, size: nat) | ResetEvent(value: Value)

  function After(v: Value, events: seq<Event>): (r: Value) {
    if events == [] then v
    else
      var last := events[|events| - 1];
      if last.ResetEvent? then last.value else Apply(After(v, events[..|events| - 1]), last.ops)
  }

  lemma {:induction false} AfterFirst(v: Value, events: seq<Event>)
    requires events != []
    ensures After(v, events) == After(After(v, [events[0]]), events[1..])
  {
    if |events| == 1 {
      assert events == [events[0]];
    } else {
      var init := events[..|events| - 1];
      AfterFirst(v, init);
      assert init[1..] == events[1..][..|events| - 2];
    }
  }

  /**
   A member's stream: its encoder (`stream`, `next`), the value its listener has followed so far (`seen`) and the events
   published to it and not delivered yet: in the publication queue, or buffered while its snapshot is being sent.
   */
  datatype Feed = Feed(stream: nat, next: nat, seen: Value, queued: seq<Event>)
  {
    function Target(): (r: Replica) {
      Known(seen, stream, next)
    }
  }

  datatype Shaped = Shaped(variant: string, members: seq<string>)

  datatype Provider = Provider(
    conn: Conn, feeds: map<Key, Feed>, current: map<Key, Value>, nextStream: nat,
    contracts: map<nat, Contract>, shapes: map<nat, Shaped>, again: set<nat>, unitSent: set<nat>)
  {
    function Members(h: nat): (names: seq<string>) {
      if h in shapes && h in contracts then StateMembers(contracts[h], shapes[h].variant, shapes[h].members) else []
    }

    // ------------------------------------------------------------------------------------------ the source

    function Write(k: Key, event: Event): (p: Provider)
      requires k in current
    {
      var p := this.(current := current[k := After(current[k], [event])]);
      if k in feeds then p.(feeds := feeds[k := feeds[k].(queued := feeds[k].queued + [event])]) else p
    }

    /** `#feedEvent`: ops are encoded, a reset starts a new stream. */
    function Deliver(k: Key): (p: Provider)
      requires k in feeds && feeds[k].queued != []
    {
      var feed := feeds[k];
      var event := feed.queued[0];
      if event.OpsEvent? then
        this.(feeds := feeds[k := Feed(feed.stream, feed.next + |event.ops|, Apply(feed.seen, event.ops), feed.queued[1..])],
              conn := conn.SendState(Ops(k, Encode(feed.stream, feed.next, event.ops), event.size), false))
      else
        this.(feeds := feeds[k := Feed(nextStream, 0, event.value, feed.queued[1..])], nextStream := nextStream + 1,
              conn := conn.SendState(Base(k, Start(event.value, nextStream)), false))
    }

    // --------------------------------------------------------------------------------------------- sending

    /** `#attach`: a new feed, from the current value. */
    function Attach(k: Key): (p: Provider)
      requires k in current
    {
      this.(feeds := feeds[k := Feed(nextStream, 0, current[k], [])], nextStream := nextStream + 1)
    }

    function Snapshot(k: Key): (f: Frame)
      requires k in current
    {
      Base(k, Start(current[k], nextStream))
    }

    function AttachAll(h: nat, names: seq<string>): (r: (Provider, seq<Frame>))
      requires forall m :: m in names ==> Key(h, m) in current
      decreases |names|
    {
      if names == [] then (this, [])
      else
        var k := Key(h, names[0]);
        var (p, frames) := Attach(k).AttachAll(h, names[1..]);
        (p, [Snapshot(k)] + frames)
    }

    function Unfed(h: nat, names: seq<string>): (rest: seq<string>)
      ensures forall m :: m in rest <==> m in names && Key(h, m) !in feeds
    {
      if names == [] then []
      else (if Key(h, names[0]) in feeds then [] else [names[0]]) + Unfed(h, names[1..])
    }

    /** The members of a unit of `h`: those the consumer lacks. */
    function Listed(h: nat): (names: seq<string>) {
      Unfed(h, Members(h))
    }

    /** The shape, then a snapshot of every listed member. */
    function UnitFrames(h: nat): (fs: seq<Frame>)
      requires h in shapes && Readable(h)
    {
      [Shape(h, shapes[h].variant, shapes[h].members, Listed(h))] + AttachAll(h, Listed(h)).1
    }

    function UnitSent(h: nat): (p: Provider)
      requires h in shapes && Readable(h)
    {
      var p := AttachAll(h, Listed(h)).0;
      p.(conn := p.conn.SendAll(UnitFrames(h)), unitSent := unitSent + {h})
    }

    /** `#sendUnit` */
    function SendUnit(h: nat): (p: Provider)
      requires Readable(h)
    {
      var q := this.(conn := conn.ForgetUnit(h));
      if h in shapes then q.UnitSent(h) else q
    }

    function Gone(h: nat): (gone: set<Key>) {
      set k | k in feeds && k.hold == h && k.member !in Members(h)
    }

    /** The shape changed: members that left lose their stream. */
    function Pruned(h: nat, shape: Shaped): (p: Provider) {
      var q := this.(shapes := shapes[h := shape]);
      q.Forget(q.Gone(h))
    }

    /** `#unit`: the first unit of a hold goes out at once, unless it is a re-hold. */
    function ReShape(h: nat, shape: Shaped): (p: Provider)
      requires this.(shapes := shapes[h := shape]).Readable(h)
    {
      var p := Pruned(h, shape);
      if p.Urgent(h) then p.SendUnit(h) else p.(conn := p.conn.QueueUnit(h))
    }

    predicate Urgent(h: nat) {
      (forall k :: k in feeds ==> k.hold != h) && !(h in again && h !in unitSent)
    }

    /** Streams that ended, with what waited for them. */
    function Forget(gone: set<Key>): (p: Provider) {
      this.(feeds := feeds - gone, conn := conn.DropStates(conn.order, gone))
    }

    /** `#resend`: the member again, as a reset from its current value. */
    function Resend(k: Key): (p: Provider)
      requires k in feeds ==> k in current
    {
      if k !in feeds then this
      else Attach(k).(conn := conn.Send(Snapshot(k)))
    }

    function Resync(k: Key): (p: Provider) {
      if k in feeds then this.(conn := conn.ResetLater(k)) else this
    }

    /** One round of the loop in `#flush`. */
    function FlushOne(): (p: Provider)
      requires conn.order != []
      requires conn.order[0].UnitSlot? ==> Readable(conn.order[0].hold)
      requires conn.order[0].StateSlot? ==> conn.order[0].key in conn.slots && conn.order[0].key in current
    {
      match conn.order[0]
      case UnitSlot(h) => SendUnit(h)
      case StateSlot(k) =>
        if conn.slots[k].lazy then this.(conn := conn.Remove(k)).Resend(k) else this.(conn := conn.FlushSlot(k))
    }

    /** The peer releases a hold, or it ends. */
    function DropHold(h: nat): (p: Provider) {
      var p := Forget(set k | k in feeds && k.hold == h);
      p.(conn := p.conn.ForgetUnit(h), shapes := p.shapes - {h}, unitSent := p.unitSent - {h})
    }

    // ------------------------------------------------------------------------------------------ invariants

    /** Every state member of the shape is readable state. */
    ghost predicate Readable(h: nat) {
      forall m :: m in Members(h) ==> Key(h, m) in current
    }

    /** Byte counters hold, and only streams that still run have slots. */
    ghost predicate ConnOk() {
      conn.Counted() && conn.Local() && forall k :: k in conn.slots ==> k in feeds
    }

    /** Only state members of the shape have streams. */
    ghost predicate ShapesOk() {
      && (forall h :: h in shapes ==> Readable(h) && Distinct(shapes[h].members))
      && (forall k :: k in feeds ==> k.member in Members(k.hold))
    }

    /** What a listener followed, then what is still queued for it, is the source's value. */
    ghost predicate FeedsOk() {
      forall k :: k in feeds ==> k in current && After(feeds[k].seen, feeds[k].queued) == current[k]
    }

    ghost predicate Valid() {
      ConnOk() && ShapesOk() && FeedsOk()
    }

    /** `t` is the peer's replica of `k` once it consumed everything on the link. */
    ghost predicate Serves(k: Key, t: Replica) {
      !t.Corrupt? && (k in feeds ==> t.Known? && Caught(conn, k, t, feeds[k].Target()))
    }
  }
}
