/**
 Watch handles (packages/chord/src/watch.ts): serialized delivery of a changing value, folded while the listener is busy.

 `PendingOps` is a batch that concatenates ops until it overflows, which may happen at any push. The promises of a watch
 are stated over its history: the frames it took and the calls its listener got, in order.
 */
module Watches {
  import opened Streams

  type Context = nat

  datatype Call = ValueCall(value: Value, ops: seq<Op>, retired: bool) | FailedCall(error: nat)

  datatype Event = Frame(call: Call, context: Context) | Delivered(call: Call, context: Context)

  datatype End = Stopped | Aborted | Ended | ListenerError | Failed

  datatype Batch = Folded(ops: seq<Op>) | Overflowed

  /** `["r", value]`: whatever was there, `value` is there now. */
  function Root(value: Value): Op {
    _ => value
  }

  // What a history says

  /** The value the listener was given last. */
  ghost function Shown(initial: Value, h: seq<Event>): (v: Value) {
    if h == [] then initial
    else
      var last := h[|h| - 1];
      if last.Delivered? && last.call.ValueCall? then last.call.value else Shown(initial, h[..|h| - 1])
  }

  /** The value of the newest value frame. */
  ghost function Newest(initial: Value, h: seq<Event>): (v: Value) {
    if h == [] then initial
    else
      var last := h[|h| - 1];
      if last.Frame? && last.call.ValueCall? then last.call.value else Newest(initial, h[..|h| - 1])
  }

  /** A retirement came since the last value call. */
  ghost predicate RetiredSince(h: seq<Event>) {
    h != [] &&
    var last := h[|h| - 1];
    if last.call.ValueCall? && last.Delivered? then false
    else (last.Frame? && last.call.ValueCall? && last.call.retired) || RetiredSince(h[..|h| - 1])
  }

  /** A failure came since the last value call. */
  ghost predicate FailedSince(h: seq<Event>) {
    h != [] &&
    var last := h[|h| - 1];
    if last.call.ValueCall? && last.Delivered? then false
    else (last.Frame? && last.call.FailedCall?) || FailedSince(h[..|h| - 1])
  }

  /** The newest frame, if no call was made since. */
  ghost function Waiting(h: seq<Event>): (e: Option<Event>) {
    if h == [] || h[|h| - 1].Delivered? then None else Some(h[|h| - 1])
  }

  /**
   What the listener is promised of each call: it comes with the newest frame's context; a failure is the newest frame; a
   value is the newest one, its ops turn the value shown before into it, it replaces the root if a failure came between,
   and it reports a retirement exactly if one came between.
   */
  ghost predicate Promised(initial: Value, h: seq<Event>, call: Call, context: Context) {
    && Waiting(h).Some? && Waiting(h).value.context == context
    && if call.FailedCall? then Waiting(h).value.call == call
       else
         && Waiting(h).value.call.ValueCall? && call.value == Newest(initial, h)
         && Apply(Shown(initial, h), call.ops) == call.value
         && (FailedSince(h) ==> call.ops == [Root(call.value)])
         && call.retired == RetiredSince(h)
  }

  ghost predicate Faithful(initial: Value, h: seq<Event>) {
    h == [] ||
    var last := h[|h| - 1];
    Faithful(initial, h[..|h| - 1]) && (last.Delivered? ==> Promised(initial, h[..|h| - 1], last.call, last.context))
  }

  lemma FrameTaken(initial: Value, h: seq<Event>, call: Call, context: Context)
    ensures var g := h + [Frame(call, context)];
            && Shown(initial, g) == Shown(initial, h) && Waiting(g) == Some(Frame(call, context))
            && Newest(initial, g) == (if call.ValueCall? then call.value else Newest(initial, h))
            && (RetiredSince(g) <==> RetiredSince(h) || (call.ValueCall? && call.retired))
            && (FailedSince(g) <==> FailedSince(h) || call.FailedCall?)
            && (Faithful(initial, g) <==> Faithful(initial, h))
  {
    assert (h + [Frame(call, context)])[..|h|] == h;
  }

  lemma CallMade(initial: Value, h: seq<Event>, call: Call, context: Context)
    requires Promised(initial, h, call, context)
    ensures var g := h + [Delivered(call, context)];
            && Newest(initial, g) == Newest(initial, h) && Waiting(g) == None
            && Shown(initial, g) == (if call.ValueCall? then call.value else Shown(initial, h))
            && (RetiredSince(g) <==> call.FailedCall? && RetiredSince(h))
            && (FailedSince(g) <==> call.FailedCall? && FailedSince(h))
            && (Faithful(initial, g) <==> Faithful(initial, h))
  {
    assert (h + [Delivered(call, context)])[..|h|] == h;
  }

  lemma {:induction false} ApplyConcat(v: Value, a: seq<Op>, b: seq<Op>)
    ensures Apply(v, a + b) == Apply(Apply(v, a), b)
    decreases |a|
  {
    if a == [] {
      assert a + b == b;
    } else {
      assert (a + b)[1..] == a[1..] + b;
      ApplyConcat(a[0](v), a[1..], b);
    }
  }

  lemma RootReplaces(v: Value, value: Value)
    ensures Apply(v, [Root(value)]) == value
  {
    assert [Root(value)][1..] == [];
  }

  class Watch {
    // The lifecycle
    var value: Value
    var started: bool
    var running: bool
    var ending: bool
    var end: Option<End>

    // What is pending
    var batch: Batch
    var lone: Option<Call>
    var newest: Option<Value>
    var context: Option<Context>
    var retired: bool
    var failure: Option<Call>
    var replace: bool

    ghost const initial: Value
    ghost var history: seq<Event>

    predicate Open()
      reads this
    {
      end.None? && !ending
    }

    /** What waits is what the history says is waiting. */
    ghost predicate Pending()
      reads this
    {
      && retired == RetiredSince(history) && replace == FailedSince(history)
      && (context.Some? <==> Waiting(history).Some?)
      && (context.Some? ==> Waiting(history).value.context == context.value)
      && (newest.Some? ==> newest.value == Newest(initial, history))
      && (context.None? ==> newest.None? && failure.None? && batch == Folded([]))
      && (context.None? && !replace ==> value == Newest(initial, history) && !retired)
    }

    ghost predicate Folds()
      reads this
    {
      if replace then
        && lone.None? && (failure.Some? ==> failure.value.FailedCall?)
        && (context.Some? ==>
              if failure.Some? then Waiting(history).Some? && Waiting(history).value.call == failure.value
              else Waiting(history).Some? && Waiting(history).value.call.ValueCall? && newest.Some?)
      else
        && failure.None?
        && (context.Some? ==> Waiting(history).Some? && Waiting(history).value.call.ValueCall? && newest.Some?)
        && (batch.Folded? && newest.Some? ==> Apply(value, batch.ops) == newest.value)
        && (lone.Some? ==>
              && lone.value.ValueCall? && newest.Some? && lone.value.value == newest.value
              && Apply(value, lone.value.ops) == newest.value && lone.value.retired == retired)
    }

    ghost predicate Valid()
      reads this
    {
      && Faithful(initial, history) && value == Shown(initial, history)
      && (end.Some? || (Pending() && Folds()))
      && (end.Some? ==> context.None? && failure.None? && newest.None? && lone.None?)
    }

    constructor (value: Value)
      ensures Valid() && Open() && history == [] && initial == value && !started && !running
    {
      this.value, started, running, ending, end := value, false, false, false, None;
      batch, lone, newest, context, retired, failure, replace := Folded([]), None, None, None, false, None, false;
      initial, history := value, [];
    }
  
    /** A frame of the source. Its ops turn the value of the frame before it into its own. */
    method Advance(call: Call, context: Context, overflow: bool)
      requires Valid() && (call.ValueCall? ==> Apply(Newest(initial, history), call.ops) == call.value)
      modifies this`batch, this`lone, this`newest, this`context, this`retired, this`failure, this`replace, this`history
      ensures Valid()
      ensures history == old(history) + if Open() then [Frame(call, context)] else []
    {
      hide Shown, Newest, RetiredSince, FailedSince, Waiting, Faithful, Apply;
      assert history + [] == history;
      if call.FailedCall? {
        Fail(call, context);
        return;
      }
      if !Open() {
        return;
      }
      FrameTaken(initial, history, call, context);
      if replace {
        failure := None;
      } else {
        if batch.Folded? {
          ApplyConcat(value, batch.ops, call.ops);
        }
        Alone(call.ops);
        lone := if this.context.None? then Some(call) else None;
        batch := if overflow || batch.Overflowed? then Overflowed else Folded(batch.ops + call.ops);
      }
      newest, this.context := Some(call.value), Some(context);
      if call.retired {
        retired := true;
      }
      history := history + [Frame(call, context)];
    }

    method Fail(call: Call, context: Context)
      requires Valid() && call.FailedCall?
      modifies this`batch, this`lone, this`newest, this`context, this`failure, this`replace, this`history
      ensures Valid()
      ensures history == old(history) + if Open() then [Frame(call, context)] else []
    {
      hide Shown, Newest, RetiredSince, FailedSince, Waiting, Faithful, Apply;
      assert history + [] == history;
      if !Open() {
        return;
      }
      FrameTaken(initial, history, call, context);
      batch, lone, newest := Folded([]), None, None;
      failure, this.context, replace := Some(call), Some(context), true;
      history := history + [Frame(call, context)];
    }

    /** The next call, as the listener gets it: the pending failure, one frame as it came, or what several fold to. */
    method Next() returns (call: Call)
      requires Valid() && end.None? && context.Some?
      modifies this`value, this`batch, this`lone, this`newest, this`context, this`retired, this`failure, this`replace, this`history
      ensures Valid() && context.None? && history == old(history) + [Delivered(call, old(context.value))]
    {
      ghost var at := context.value;
      if replace && failure.Some? {
        call := failure.value;
        failure := None;
      } else {
        RootReplaces(value, newest.value);
        call :=
          if !replace && lone.Some? then lone.value
          else ValueCall(newest.value, if !replace && batch.Folded? then batch.ops else [Root(newest.value)], retired);
        value, retired, replace := call.value, false, false;
      }
      batch, lone, newest, context := Folded([]), None, None, None;
      CallMade(initial, history, call, at);
      history := history + [Delivered(call, at)];
    }

    /** The drain loop begins, in its own microtask. */
    method Begin()
      requires Valid()
      modifies this`running
      ensures Valid() && running == (old(running) || (end.None? && started))
    {
      if !running && end.None? && started {
        running := true;
      }
    }

    /** One round of the drain loop, up to the listener's call. A watch whose source ended ends once nothing is left. */
    method Turn() returns (call: Option<Call>)
      requires Valid() && running
      modifies this
      ensures Valid() && started == old(started) && ending == old(ending)
      ensures call.Some? <==> old(end.None? && context.Some?)
      ensures history == old(history) + if call.Some? then [Delivered(call.value, old(context.value))] else []
      ensures running == call.Some?
      ensures end == if old(end.None? && ending && context.None?) then Some(Ended) else old(end)
    {
      if end.Some? || context.None? {
        if end.None? && ending {
          Terminate(Ended);
        }
        running := false;
        return None;
      }
      var next := Next();
      return Some(next);
    }

    method ListenerThrew()
      requires Valid() && running
      modifies this
      ensures Valid() && !running && history == old(history)
      ensures end == if old(end).Some? then old(end) else Some(ListenerError)
    {
      Terminate(ListenerError);
      running := false;
    }

    /** The source sends nothing more: the watch ends now, if nothing waits and no call runs, or after what waits. */
    method EndAfterDelivery()
      requires Valid()
      modifies this
      ensures Valid() && history == old(history) && running == old(running) && started == old(started)
      ensures end == if old(end.None? && !ending && !running && context.None?) then Some(Ended) else old(end)
      ensures end.None? ==> ending && (running || context.Some? || old(ending))
    {
      if end.Some? || ending {
        return;
      }
      ending := true;
      if !running && context.None? {
        Terminate(Ended);
      }
    }

    /** Ends the watch, once, dropping what is pending. */
    method Terminate(how: End)
      requires Valid()
      modifies this`end, this`batch, this`lone, this`newest, this`context, this`retired, this`failure, this`replace
      ensures Valid() && end == if old(end).Some? then old(end) else Some(how)
    {
      if end.Some? {
        return;
      }
      end := Some(how);
      batch, lone, newest, context, retired, failure, replace := Folded([]), None, None, None, false, None, false;
    }

    method Start()
      requires Valid() && !started && end.None?
      modifies this`started
      ensures Valid() && started
    {
      started := true;
    }
  }

  /** Nothing before them, ops alone are the batch. */
  lemma Alone(ops: seq<Op>)
    ensures [] + ops == ops
  {
  }

  // What the history of a watch means to its listener

  /** What a listener has that keeps its own copy and applies the ops of each value call to it. */
  ghost function Copied(initial: Value, h: seq<Event>): (v: Value) {
    if h == [] then initial
    else
      var last := h[|h| - 1];
      var before := Copied(initial, h[..|h| - 1]);
      if last.Delivered? && last.call.ValueCall? then Apply(before, last.call.ops) else before
  }

  /** Such a copy always equals the value shown. */
  lemma {:induction false} CopyFollows(initial: Value, h: seq<Event>)
    requires Faithful(initial, h)
    ensures Copied(initial, h) == Shown(initial, h)
  {
    if h != [] {
      CopyFollows(initial, h[..|h| - 1]);
    }
  }

  predicate IsValueCall(e: Event) {
    e.Delivered? && e.call.ValueCall?
  }

  lemma {:induction false} CallPromised(initial: Value, h: seq<Event>, j: nat)
    requires Faithful(initial, h) && j < |h| && h[j].Delivered?
    ensures Promised(initial, h[..j], h[j].call, h[j].context)
  {
    if j < |h| - 1 {
      CallPromised(initial, h[..|h| - 1], j);
      assert h[..|h| - 1][..j] == h[..j];
    }
  }

  /** `RetiredSince` says that a retirement came after the last value call. */
  lemma {:induction false} RetiredMeans(h: seq<Event>)
    ensures RetiredSince(h) <==>
            exists i :: 0 <= i < |h| && Retirement(h[i]) && forall k :: i < k < |h| ==> !IsValueCall(h[k])
  {
    if h != [] {
      var g := h[..|h| - 1];
      RetiredMeans(g);
      assert forall i :: 0 <= i < |g| ==> g[i] == h[i];
      if IsValueCall(h[|h| - 1]) {
        assert !Retirement(h[|h| - 1]);
      } else if i :| 0 <= i < |g| && Retirement(g[i]) && forall k :: i < k < |g| ==> !IsValueCall(g[k]) {
        assert Retirement(h[i]);
      }
    }
  }

  /** `FailedSince` says that a failure did. */
  lemma {:induction false} FailedMeans(h: seq<Event>)
    ensures FailedSince(h) <==>
            exists i :: 0 <= i < |h| && Failure(h[i]) && forall k :: i < k < |h| ==> !IsValueCall(h[k])
  {
    if h != [] {
      var g := h[..|h| - 1];
      FailedMeans(g);
      assert forall i :: 0 <= i < |g| ==> g[i] == h[i];
      if IsValueCall(h[|h| - 1]) {
        assert !Failure(h[|h| - 1]);
      } else if i :| 0 <= i < |g| && Failure(g[i]) && forall k :: i < k < |g| ==> !IsValueCall(g[k]) {
        assert Failure(h[i]);
      }
    }
  }

  predicate Retirement(e: Event) {
    e.Frame? && e.call.ValueCall? && e.call.retired
  }

  predicate Failure(e: Event) {
    e.Frame? && e.call.FailedCall?
  }

  /** A retirement is reported in exactly the next value call, and a value after a failure replaces the root. */
  lemma ReportedNext(initial: Value, h: seq<Event>, j: nat)
    requires Faithful(initial, h) && j < |h| && IsValueCall(h[j])
    ensures h[j].call.retired <==>
            exists i :: 0 <= i < j && Retirement(h[i]) && forall k :: i < k < j ==> !IsValueCall(h[k])
    ensures (exists i :: 0 <= i < j && Failure(h[i]) && forall k :: i < k < j ==> !IsValueCall(h[k])) ==>
            h[j].call.ops == [Root(h[j].call.value)]
  {
    CallPromised(initial, h, j);
    RetiredMeans(h[..j]);
    FailedMeans(h[..j]);
    assert forall i :: 0 <= i < j ==> h[..j][i] == h[i];
    hide Faithful, RetiredSince, FailedSince, Shown, Newest;
    if i :| 0 <= i < j && Retirement(h[i]) && forall k :: i < k < j ==> !IsValueCall(h[k]) {
      assert Retirement(h[..j][i]);
    }
    if i :| 0 <= i < j && Failure(h[i]) && forall k :: i < k < j ==> !IsValueCall(h[k]) {
      assert Failure(h[..j][i]);
    }
  }

  // Native values

  datatype Slot = Holds(value: Value) | Of(context: Context) | Empty

  datatype Item = Item(value: Value, context: Context)

  predicate Laid(pending: seq<Slot>, head: nat) {
    && head <= |pending| && head % 2 == 0 && |pending| % 2 == 0
    && forall i :: head <= i < |pending| ==> if i % 2 == 0 then pending[i].Holds? else pending[i].Of?
  }

  function Items(pending: seq<Slot>, head: nat): (q: seq<Item>)
    requires Laid(pending, head)
  {
    seq((|pending| - head) / 2, i requires 0 <= i < (|pending| - head) / 2 =>
      Item(pending[head + 2 * i].value, pending[head + 2 * i + 1].context))
  }

  lemma ItemsPush(pending: seq<Slot>, head: nat, value: Value, context: Context)
    requires Laid(pending, head)
    ensures var more := pending + [Holds(value), Of(context)];
            Laid(more, head) && Items(more, head) == Items(pending, head) + [Item(value, context)]
  {
    var more := pending + [Holds(value), Of(context)];
    assert forall i :: 0 <= i < |pending| ==> more[i] == pending[i];
  }

  /** Moving the read index takes the first item. */
  lemma ItemsTaken(pending: seq<Slot>, head: nat)
    requires Laid(pending, head) && head + 2 <= |pending|
    ensures var taken := pending[head := Empty][head + 1 := Empty];
            Laid(taken, head + 2) && Items(taken, head + 2) == Items(pending, head)[1..]
  {
    var taken := pending[head := Empty][head + 1 := Empty];
    assert taken[head + 2..] == pending[head + 2..];
    ItemsAgree(taken, head + 2, pending, head, 1);
  }

  /** So does dropping what it passed. */
  lemma ItemsDropped(pending: seq<Slot>, head: nat)
    requires Laid(pending, head) && head + 2 <= |pending|
    ensures Laid(pending[head + 2..], 0) && Items(pending[head + 2..], 0) == Items(pending, head)[1..]
  {
    var rest := pending[head + 2..];
    forall i | 0 <= i < |rest|
      ensures rest[i] == pending[i + head + 2] && i % 2 == (i + head + 2) % 2
    {
    }
    assert Laid(rest, 0);
    assert rest[0..] == rest;
    hide Laid, Items;
    ItemsAgree(rest, 0, pending, head, 1);
  }

  /** Slots that agree hold the same items. */
  lemma ItemsAgree(a: seq<Slot>, from: nat, b: seq<Slot>, head: nat, n: nat)
    requires Laid(a, from) && Laid(b, head) && head + 2 * n <= |b| && a[from..] == b[head + 2 * n..]
    ensures n <= |Items(b, head)| && Items(a, from) == Items(b, head)[n..]
  {
    var s, t := Items(a, from), Items(b, head)[n..];
    forall j | 0 <= j < |s|
      ensures s[j] == t[j]
    {
      assert a[from + 2 * j] == a[from..][2 * j] == b[head + 2 * n..][2 * j] == b[head + 2 * (n + j)];
      assert a[from + 2 * j + 1] == a[from..][2 * j + 1] == b[head + 2 * n..][2 * j + 1] == b[head + 2 * (n + j) + 1];
    }
  }

  class NativeWatch {
    var pending: seq<Slot>
    var head: nat
    var failure: Option<(nat, Context)>

    ghost predicate Valid()
      reads this
    {
      && Laid(pending, head) && head < 200 && |pending| - head <= 200
      && (pending == [] ==> head == 0) && (head > 0 ==> head < |pending|)
      && (failure.Some? ==> pending == [])
    }

    ghost function Queue(): seq<Item>
      reads this
      requires Valid()
    {
      Items(pending, head)
    }

    constructor ()
      ensures Valid() && Queue() == [] && failure == None
    {
      pending, head, failure := [], 0, None;
    }

    /**
     A value joins the queue, every one in order; past 100 they collapse to the new one, or to what replaces them all. The
     array never has more than 398 slots, whatever was taken before.
     */
    method Advance(value: Value, context: Context, replacement: Option<Value>)
      requires Valid()
      modifies this
      ensures Valid() && failure == None
      ensures Queue() == if |old(Queue())| < 100 then old(Queue()) + [Item(value, context)]
                         else [Item(if replacement.Some? then replacement.value else value, context)]
      ensures |pending| <= 398
    {
      failure := None;
      if |pending| - head < 200 {
        ItemsPush(pending, head, value, context);
        hide Items, Laid;
        pending := pending + [Holds(value), Of(context)];
      } else {
        pending := [Holds(if replacement.Some? then replacement.value else value), Of(context)];
        head := 0;
      }
    }

    method Fail(error: nat, context: Context)
      requires Valid()
      modifies this
      ensures Valid() && Queue() == [] && failure == Some((error, context))
    {
      pending, head, failure := [], 0, Some((error, context));
    }

    /** Takes the pending failure, or the oldest value with its own context. */
    method Next() returns (error: Option<(nat, Context)>, item: Option<Item>)
      requires Valid() && (failure.Some? || Queue() != [])
      modifies this
      ensures Valid() && failure == None && error == old(failure)
      ensures if error.Some? then item == None && Queue() == old(Queue())
              else item == Some(old(Queue())[0]) && Queue() == old(Queue())[1..]
    {
      if failure.Some? {
        error, item := failure, None;
        failure := None;
        return;
      }
      error, item := None, Some(Item(pending[head].value, pending[head + 1].context));
      ItemsTaken(pending, head);
      ItemsDropped(pending, head);
      assert pending[|pending|..] == [];
      hide Items;
      if head + 2 == |pending| {
        pending, head := [], 0;
      } else if head + 2 >= 200 {
        // A backlog that never drains: the taken prefix goes, at most once per 100 values.
        pending, head := pending[head + 2..], 0;
      } else {
        pending, head := pending[head := Empty][head + 1 := Empty], head + 2;
      }
    }
  }
}
