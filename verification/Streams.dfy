/**
 State streams between two ends of a link (packages/chord/src/connection.ts, remote.ts).

 A value and an op are kept abstract: an op is what it does to a value. An encoder and its decoder are a pair that
 only works when the decoder sees exactly the batches of its encoder, from the first on; a wire op therefore carries the
 stream (encoder instance) and its position in it, and a decoder that meets any other op is `Corrupt`.
 */
module Streams {

  type Value(!new)

  type Op = Value -> Value

  datatype Option<+T> = None | Some(value: T)

  ghost predicate Distinct<T>(s: seq<T>) {
    forall i, j :: 0 <= i < j < |s| ==> s[i] != s[j]
  }

  /** A state member of a hold. */
  datatype Key = Key(hold: nat, member: string)

  /** A snapshot or reset: the value, and the stream whose ops follow it. */
  datatype Start = Start(value: Value, stream: nat)

  datatype Wire = Wire(stream: nat, index: nat, op: Op)

  /** `Other` stands for every frame that carries no state: results, pings, calls, reload control. */
  datatype Frame =
    | Shape(hold: nat, variant: string, members: seq<string>, listed: seq<string>)
    | Base(key: Key, start: Start)
    | Ops(key: Key, ops: seq<Wire>, size: nat)
    | Other

  function Apply(v: Value, ops: seq<Op>): (r: Value) {
    if ops == [] then v else Apply(ops[0](v), ops[1..])
  }

  /** A batch as the encoder of `stream` writes it, `next` ops after its start. */
  function Encode(stream: nat, next: nat, ops: seq<Op>): (wires: seq<Wire>)
    ensures |wires| == |ops|
    decreases |ops|
  {
    if ops == [] then [] else [Wire(stream, next, ops[0])] + Encode(stream, next + 1, ops[1..])
  }

  /** What one end knows of a member: nothing, a value with the position of its decoder, or nonsense. */
  datatype Replica = Unknown | Known(value: Value, stream: nat, next: nat) | Corrupt

  function Started(start: Start): (r: Replica) {
    Known(start.value, start.stream, 0)
  }

  /** Decoding and applying a batch: a member without a value ignores it (remote.ts:270-276). */
  function Play(r: Replica, ops: seq<Wire>): (r': Replica)
    decreases |ops|
  {
    if ops == [] || !r.Known? then r
    else if ops[0].stream == r.stream && ops[0].index == r.next then
      Play(Known(ops[0].op(r.value), r.stream, r.next + 1), ops[1..])
    else Corrupt
  }

  function Take(r: Replica, k: Key, f: Frame): (r': Replica) {
    if r.Corrupt? then r
    else if f.Base? && f.key == k then Started(f.start)
    else if f.Ops? && f.key == k then Play(r, f.ops)
    else r
  }

  function TakeAll(r: Replica, k: Key, fs: seq<Frame>): (r': Replica) {
    if fs == [] then r else Take(TakeAll(r, k, fs[..|fs| - 1]), k, fs[|fs| - 1])
  }

  // ------------------------------------------------------------------------------------------------- lemmas

  /** Batches of one stream may be concatenated. */
  lemma {:induction false} PlayConcat(r: Replica, a: seq<Wire>, b: seq<Wire>)
    ensures Play(r, a + b) == Play(Play(r, a), b)
    decreases |a|
  {
    if a == [] {
      assert a + b == b;
    } else if r.Known? && a[0].stream == r.stream && a[0].index == r.next {
      assert (a + b)[1..] == a[1..] + b;
      PlayConcat(Known(a[0].op(r.value), r.stream, r.next + 1), a[1..], b);
    }
  }

  /** Decoding undoes encoding: the decoder ends where the encoder does, with the ops applied. */
  lemma {:induction false} PlayEncoded(v: Value, stream: nat, next: nat, ops: seq<Op>)
    ensures Play(Known(v, stream, next), Encode(stream, next, ops)) == Known(Apply(v, ops), stream, next + |ops|)
    decreases |ops|
  {
    if ops != [] {
      var wires := Encode(stream, next, ops);
      assert wires[1..] == Encode(stream, next + 1, ops[1..]);
      PlayEncoded(ops[0](v), stream, next + 1, ops[1..]);
    }
  }

  lemma {:induction false} TakeAllConcat(r: Replica, k: Key, a: seq<Frame>, b: seq<Frame>)
    ensures TakeAll(r, k, a + b) == TakeAll(TakeAll(r, k, a), k, b)
  {
    if b == [] {
      assert a + b == a;
    } else {
      assert (a + b)[..|a + b| - 1] == a + b[..|b| - 1];
      TakeAllConcat(r, k, a, b[..|b| - 1]);
    }
  }

  lemma {:induction false} TakeAllFirst(r: Replica, k: Key, fs: seq<Frame>)
    requires fs != []
    ensures TakeAll(r, k, fs) == TakeAll(Take(r, k, fs[0]), k, fs[1..])
  {
    assert fs == [fs[0]] + fs[1..];
    TakeAllConcat(r, k, [fs[0]], fs[1..]);
    assert TakeAll(r, k, [fs[0]]) == Take(TakeAll(r, k, []), k, fs[0]);
  }

  /** Whether `f` carries state of `k`. */
  predicate Carries(f: Frame, k: Key) {
    (f.Base? || f.Ops?) && f.key == k
  }

  lemma {:induction false} TakeAllOther(r: Replica, k: Key, fs: seq<Frame>)
    requires forall i :: 0 <= i < |fs| ==> !Carries(fs[i], k)
    ensures TakeAll(r, k, fs) == r
  {
    if fs != [] {
      TakeAllOther(r, k, fs[..|fs| - 1]);
    }
  }

  lemma {:induction false} CorruptStays(k: Key, fs: seq<Frame>)
    ensures TakeAll(Corrupt, k, fs) == Corrupt
  {
    if fs != [] {
      CorruptStays(k, fs[..|fs| - 1]);
    }
  }
}
