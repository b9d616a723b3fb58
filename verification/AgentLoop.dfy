/**
 The agent loop (packages/agent/src/agent-loop.ts) and the agent's reducer and queues (packages/agent/src/agent.ts).

 What the outside answers (the model's streams, tool outcomes, hooks, messages queued meanwhile) is a script with one entry
 a turn, and any script is allowed. Hooks neither throw nor replace the context. A tool call is its position in its
 message; the loop's promises about calls are stated over the events of one batch.
 */
module AgentLoops {
  import opened Streams

  datatype Stop = EndTurn | ToolUse | Length | Error | Aborted

  /** `Queued` messages come from the agent's steering or follow-up queue. */
  datatype Message =
    | Prompt(id: nat)
    | Queued(steering: bool, id: nat)
    | System(note: nat)
    | Assistant(id: nat, stop: Stop, calls: nat)
    | Result(call: nat, outcome: nat)

  datatype Event =
    | AgentStart
    | TurnStart
    | MessageStart(message: Message)
    | MessageUpdate(message: Message)
    | MessageEnd(message: Message)
    | ToolStart(call: nat)
    | ToolUpdate(call: nat)
    | ToolEnd(call: nat)
    | TurnEnd(message: Message, results: seq<Message>)
    | AgentEnd(messages: seq<Message>)

  // Reading an event stream

  /** The messages that ended, in order. */
  function Ended(es: seq<Event>): (ms: seq<Message>) {
    if es == [] then []
    else
      var e := es[|es| - 1];
      Ended(es[..|es| - 1]) + if e.MessageEnd? then [e.message] else []
  }

  /** The tool calls that started, in order. */
  function Begun(es: seq<Event>): (cs: seq<nat>) {
    if es == [] then []
    else
      var e := es[|es| - 1];
      Begun(es[..|es| - 1]) + if e.ToolStart? then [e.call] else []
  }

  datatype Phase = Fresh | Opened | Between | InTurn | InMessage | Done | Bad

  function Advance(p: Phase, e: Event): (r: Phase) {
    match p
    case Fresh => if e.AgentStart? then Opened else Bad
    case Opened => if e.TurnStart? then InTurn else Bad
    case Between => if e.TurnStart? then InTurn else if e.AgentEnd? then Done else Bad
    case InTurn =>
      if e.MessageStart? then InMessage
      else if e.ToolStart? || e.ToolUpdate? || e.ToolEnd? then InTurn
      else if e.TurnEnd? then Between else Bad
    case InMessage => if e.MessageUpdate? then InMessage else if e.MessageEnd? then InTurn else Bad
    case _ => Bad
  }

  /** `agent_start (turn_start .. turn_end)+ agent_end`, with whole messages and tool events inside turns. */
  function Scan(p: Phase, es: seq<Event>): (r: Phase) {
    if es == [] then p else Advance(Scan(p, es[..|es| - 1]), es[|es| - 1])
  }

  /** One call's own story: started, ended, reported by its result message. Anything else is out of order. */
  datatype Story = Unstarted | Running | Finished | Reported | Confused

  function Tell(call: nat, s: Story, e: Event): (r: Story) {
    if e.ToolStart? && e.call == call then if s == Unstarted then Running else Confused
    else if e.ToolUpdate? && e.call == call then if s == Running then Running else Confused
    else if e.ToolEnd? && e.call == call then if s == Running then Finished else Confused
    else if e.MessageEnd? && e.message.Result? && e.message.call == call then if s == Finished then Reported else Confused
    else s
  }

  function StoryOf(call: nat, es: seq<Event>): (r: Story) {
    if es == [] then Unstarted else Tell(call, StoryOf(call, es[..|es| - 1]), es[|es| - 1])
  }

  lemma Appended(es: seq<Event>, e: Event)
    ensures Ended(es + [e]) == Ended(es) + if e.MessageEnd? then [e.message] else []
    ensures Begun(es + [e]) == Begun(es) + if e.ToolStart? then [e.call] else []
    ensures forall p :: Scan(p, es + [e]) == Advance(Scan(p, es), e)
    ensures forall call: nat :: StoryOf(call, es + [e]) == Tell(call, StoryOf(call, es), e)
  {
    assert (es + [e])[..|es|] == es;
  }

  lemma {:induction false} Concat(a: seq<Event>, b: seq<Event>, p: Phase)
    ensures Ended(a + b) == Ended(a) + Ended(b)
    ensures Scan(p, a + b) == Scan(Scan(p, a), b)
  {
    if b == [] {
      assert a + b == a;
    } else {
      assert (a + b)[..|a + b| - 1] == a + b[..|b| - 1];
      Concat(a, b[..|b| - 1], p);
    }
  }

  // Tool batches

  /** What the outside does with one call: whether it settles at once, its outcome, and whether the run is aborted after it. */
  datatype Outcome = Outcome(immediate: bool, value: nat, terminate: bool, updates: nat, aborted: bool)

  /** What happens next among calls that run side by side. */
  datatype Move = Progress(call: nat) | Settle(call: nat)

  function Upto(n: nat): (r: seq<nat>) {
    seq(n, i => i)
  }

  /** The events of a batch: of calls, and of their results. */
  predicate OfBatch(e: Event) {
    e.ToolStart? || e.ToolUpdate? || e.ToolEnd? || ((e.MessageStart? || e.MessageEnd?) && e.message.Result?)
  }

  predicate OnlyBatch(es: seq<Event>) {
    forall i :: 0 <= i < |es| ==> OfBatch(es[i])
  }

  /**
   What a batch promises, also when it was aborted: the calls it started are the first ones, in order; each of them
   started, ended and was reported once, in that order; the results are in the order of the calls.
   */
  ghost predicate Batch(es: seq<Event>, results: seq<Message>, started: nat) {
    && Begun(es) == Upto(started) && Ended(es) == results && |results| == started && Scan(InTurn, es) == InTurn
    && (forall i :: 0 <= i < started ==> results[i].Result? && results[i].call == i)
    && (forall call: nat :: StoryOf(call, es) == if call < started then Reported else Unstarted)
    && OnlyBatch(es)
  }

  /** A message that is complete when it comes. */
  function Whole(m: Message): (es: seq<Event>) {
    [MessageStart(m), MessageEnd(m)]
  }

  /** A call on its own: its start, its progress, its end and its result message. */
  function CallEvents(call: nat, updates: nat, value: nat): (es: seq<Event>) {
    [ToolStart(call)] + seq(updates, _ => ToolUpdate(call)) + [ToolEnd(call)] + Whole(Result(call, value))
  }

  /** The first `n` calls, one after the other; one that settles at once reports no progress. */
  function InTurns(outcomes: seq<Outcome>, n: nat): (es: seq<Event>)
    requires n <= |outcomes|
  {
    if n == 0 then []
    else
      var o := outcomes[n - 1];
      InTurns(outcomes, n - 1) + CallEvents(n - 1, if o.immediate then 0 else o.updates, o.value)
  }

  /** One call, from its start through its progress to its result message. */
  method ReportCall(es: seq<Event>, results: seq<Message>, call: nat, updates: nat, value: nat)
    returns (r: seq<Event>, rs: seq<Message>)
    requires Batch(es, results, call)
    ensures Batch(r, rs, call + 1) && rs == results + [Result(call, value)]
    ensures r == es + CallEvents(call, updates, value)
  {
    r := es + [ToolStart(call)];
    Appended(es, ToolStart(call));
    hide Ended, Begun, Scan, StoryOf;
    assert Upto(call + 1) == Upto(call) + [call];
    for n := 0 to updates
      invariant r == es + [ToolStart(call)] + seq(n, _ => ToolUpdate(call))
      invariant Begun(r) == Upto(call + 1) && Ended(r) == results && Scan(InTurn, r) == InTurn && OnlyBatch(r)
      invariant forall c: nat :: StoryOf(c, r) == if c < call then Reported else if c == call then Running else Unstarted
    {
      Appended(r, ToolUpdate(call));
      r := r + [ToolUpdate(call)];
    }
    var m := Result(call, value);
    rs := results + [m];
    Appended(r, ToolEnd(call));
    r := r + [ToolEnd(call)];
    Appended(r, MessageStart(m));
    r := r + [MessageStart(m)];
    Appended(r, MessageEnd(m));
    r := r + [MessageEnd(m)];
  }

  /** `failToolCallsFromTruncatedMessage`: none is executed, each is reported as an error. */
  method TruncatedBatch(calls: nat) returns (es: seq<Event>, results: seq<Message>)
    ensures Batch(es, results, calls) && forall i :: 0 <= i < calls ==> results[i] == Result(i, 0)
  {
    es, results := [], [];
    for call := 0 to calls
      invariant Batch(es, results, call) && forall i :: 0 <= i < call ==> results[i] == Result(i, 0)
    {
      es, results := ReportCall(es, results, call, 0, 0);
    }
  }

  predicate NoneAborted(outcomes: seq<Outcome>, n: nat)
    requires n <= |outcomes|
  {
    forall i :: 0 <= i < n ==> !outcomes[i].aborted
  }

  /** A batch ends with the first call the run is aborted after, or with the last one. */
  predicate Reaches(outcomes: seq<Outcome>, n: nat) {
    && n <= |outcomes| && (n > 0 ==> NoneAborted(outcomes, n - 1))
    && (n < |outcomes| ==> n > 0 && outcomes[n - 1].aborted)
  }

  /** Each result is its own call's. */
  predicate Outcomes(outcomes: seq<Outcome>, results: seq<Message>) {
    |results| <= |outcomes| && forall i :: 0 <= i < |results| ==> results[i] == Result(i, outcomes[i].value)
  }

  method SequentialBatch(outcomes: seq<Outcome>) returns (es: seq<Event>, results: seq<Message>)
    ensures Batch(es, results, |results|) && Outcomes(outcomes, results) && Reaches(outcomes, |results|)
    ensures es == InTurns(outcomes, |results|)
  {
    es, results := [], [];
    assert Batch(es, results, 0);
    hide Batch, CallEvents;
    for call := 0 to |outcomes|
      invariant Batch(es, results, call) && |results| == call && Outcomes(outcomes, results)
      invariant NoneAborted(outcomes, call) && es == InTurns(outcomes, call)
    {
      var o := outcomes[call];
      es, results := ReportCall(es, results, call, if o.immediate then 0 else o.updates, o.value);
      if o.aborted {
        break;
      }
    }
  }

  /** The first `n` calls have started; those of `running` have not ended. */
  ghost predicate Launched(es: seq<Event>, n: nat, running: set<nat>) {
    && Begun(es) == Upto(n) && Ended(es) == [] && Scan(InTurn, es) == InTurn
    && (forall c :: c in running ==> c < n) && OnlyBatch(es)
    && (forall c: nat :: StoryOf(c, es) == if c in running then Running else if c < n then Finished else Unstarted)
  }

  /**
   `executeToolCallsParallel`: the calls start in order, then report progress and finish in any order at all, and are
   reported in order.
   */
  method ParallelBatch(outcomes: seq<Outcome>, moves: seq<Move>) returns (es: seq<Event>, results: seq<Message>)
    ensures Batch(es, results, |results|) && Outcomes(outcomes, results) && Reaches(outcomes, |results|)
  {
    var n;
    var running;
    es, n, running := Launch(outcomes);
    hide Launched;
    for j := 0 to |moves|
      invariant Launched(es, n, running)
    {
      if moves[j].call in running {
        MoveOne(es, n, running, moves[j].call);
        if moves[j].Progress? {
          es := es + [ToolUpdate(moves[j].call)];
        } else {
          es, running := es + [ToolEnd(moves[j].call)], running - {moves[j].call};
        }
      }
    }
    // Whatever still runs finishes, in some order.
    while running != {}
      invariant Launched(es, n, running)
      decreases |running|
    {
      var call :| call in running;
      MoveOne(es, n, running, call);
      es, running := es + [ToolEnd(call)], running - {call};
    }
    es, results := Report(es, n, outcomes);
  }

  lemma MoveOne(es: seq<Event>, n: nat, running: set<nat>, call: nat)
    requires Launched(es, n, running) && call in running
    ensures Launched(es + [ToolUpdate(call)], n, running)
    ensures Launched(es + [ToolEnd(call)], n, running - {call})
  {
    Appended(es, ToolUpdate(call));
    Appended(es, ToolEnd(call));
    hide Ended, Begun, Scan, StoryOf;
  }

  /** The first loop: each call starts, and ends at once if it needs no execution. */
  method Launch(outcomes: seq<Outcome>) returns (es: seq<Event>, n: nat, running: set<nat>)
    ensures Launched(es, n, running) && Reaches(outcomes, n)
  {
    es, n, running := [], 0, {};
    NoneLaunched();
    ReachesAll(outcomes);
    hide Launched, NoneAborted, Reaches, Begun, Ended, Scan, StoryOf, OnlyBatch;
    for call := 0 to |outcomes|
      invariant Launched(es, call, running) && n == call
      invariant NoneAborted(outcomes, call)
    {
      LaunchOne(es, call, running);
      ReachesNext(outcomes, call);
      es, n := es + [ToolStart(call)], call + 1;
      if outcomes[call].immediate {
        es := es + [ToolEnd(call)];
      } else {
        running := running + {call};
      }
      if outcomes[call].aborted {
        break;
      }
    }
  }

  lemma ReachesAll(outcomes: seq<Outcome>)
    ensures NoneAborted(outcomes, 0) && (NoneAborted(outcomes, |outcomes|) ==> Reaches(outcomes, |outcomes|))
  {
  }

  lemma ReachesNext(outcomes: seq<Outcome>, n: nat)
    requires n < |outcomes| && NoneAborted(outcomes, n)
    ensures if outcomes[n].aborted then Reaches(outcomes, n + 1) else NoneAborted(outcomes, n + 1)
  {
  }

  lemma NoneLaunched()
    ensures Launched([], 0, {})
  {
  }

  lemma LaunchOne(es: seq<Event>, call: nat, running: set<nat>)
    requires Launched(es, call, running)
    ensures Launched(es + [ToolStart(call)], call + 1, running + {call})
    ensures Launched(es + [ToolStart(call)] + [ToolEnd(call)], call + 1, running)
  {
    Appended(es, ToolStart(call));
    Appended(es + [ToolStart(call)], ToolEnd(call));
    hide Ended, Begun, Scan, StoryOf;
    assert Upto(call + 1) == Upto(call) + [call];
  }

  /** The results, once every call has ended. */
  method Report(es: seq<Event>, n: nat, outcomes: seq<Outcome>) returns (r: seq<Event>, results: seq<Message>)
    requires Launched(es, n, {}) && n <= |outcomes|
    ensures Batch(r, results, n) && Outcomes(outcomes, results)
  {
    r, results := es, [];
    hide Ended, Begun, Scan, StoryOf;
    for call := 0 to n
      invariant Begun(r) == Upto(n) && Ended(r) == results && |results| == call && Scan(InTurn, r) == InTurn && OnlyBatch(r)
      invariant Outcomes(outcomes, results)
      invariant forall c: nat :: StoryOf(c, r) == if c < call then Reported else if c < n then Finished else Unstarted
    {
      var m := Result(call, outcomes[call].value);
      Appended(r, MessageStart(m));
      r := r + [MessageStart(m)];
      Appended(r, MessageEnd(m));
      r := r + [MessageEnd(m)];
      results := results + [m];
    }
  }

  // Queues and declarations

  /** `PendingMessageQueue.drain`: all that waits, or one at a time. */
  function Drained(queue: seq<Message>, all: bool): (r: seq<Message>)
    ensures r <= queue && (queue != [] ==> r != []) && (if all then r == queue else |r| <= 1)
  {
    if all || |queue| <= 1 then queue else queue[..1]
  }

  /** The messages of one queue, in order. */
  function Of(steering: bool, ms: seq<Message>): (r: seq<Message>) {
    if ms == [] then []
    else (if ms[0].Queued? && ms[0].steering == steering then [ms[0]] else []) + Of(steering, ms[1..])
  }

  lemma {:induction false} OfConcat(steering: bool, a: seq<Message>, b: seq<Message>)
    ensures Of(steering, a + b) == Of(steering, a) + Of(steering, b)
  {
    if a == [] {
      assert a + b == b;
    } else {
      assert (a + b)[1..] == a[1..] + b;
      OfConcat(steering, a[1..], b);
    }
  }

  /** Every message of `ms` comes from the queue. */
  predicate From(steering: bool, ms: seq<Message>) {
    forall i :: 0 <= i < |ms| ==> ms[i].Queued? && ms[i].steering == steering
  }

  lemma {:induction false} OfFrom(steering: bool, ms: seq<Message>)
    requires From(steering, ms)
    ensures Of(steering, ms) == ms && Of(!steering, ms) == []
  {
    if ms != [] {
      OfFrom(steering, ms[1..]);
    }
  }

  predicate NoneQueued(ms: seq<Message>) {
    forall i :: 0 <= i < |ms| ==> !ms[i].Queued?
  }

  lemma {:induction false} OfNone(steering: bool, ms: seq<Message>)
    requires NoneQueued(ms)
    ensures Of(steering, ms) == []
  {
    if ms != [] {
      OfNone(steering, ms[1..]);
    }
  }

  function LastSystem(ms: seq<Message>): (i: int)
    ensures -1 <= i < |ms| && (i >= 0 ==> ms[i].System?)
  {
    if ms == [] then -1
    else if ms[|ms| - 1].System? then |ms| - 1 else LastSystem(ms[..|ms| - 1])
  }

  /** `declareToolChanges`: the change goes into the last pending system message, or into a new one ahead of the rest. */
  function Declared(ms: seq<Message>, change: Option<Message>): (r: seq<Message>) {
    if change.None? then ms
    else if LastSystem(ms) >= 0 then ms[LastSystem(ms) := change.value]
    else [change.value] + ms
  }

  /**
   `said` is `ms` as it was declared: as it is without a change; else with the change in the place of the last system
   message, or ahead of all if there is none.
   */
  ghost predicate SaidAs(ms: seq<Message>, change: Option<Message>, said: seq<Message>) {
    if change.None? then said == ms
    else
      || (said == [change.value] + ms && forall i :: 0 <= i < |ms| ==> !ms[i].System?)
      || exists j :: 0 <= j < |ms| && ms[j].System? && said == ms[j := change.value]
                     && forall i :: j < i < |ms| ==> !ms[i].System?
  }

  /** The messages that are no system messages. */
  function Spoken(ms: seq<Message>): (r: seq<Message>) {
    if ms == [] then [] else (if ms[0].System? then [] else [ms[0]]) + Spoken(ms[1..])
  }

  lemma {:induction false} SpokenConcat(a: seq<Message>, b: seq<Message>)
    ensures Spoken(a + b) == Spoken(a) + Spoken(b)
  {
    if a == [] {
      assert a + b == b;
    } else {
      assert (a + b)[1..] == a[1..] + b;
      SpokenConcat(a[1..], b);
    }
  }

  lemma SpokenReplaced(a: seq<Message>, x: Message, y: Message, b: seq<Message>)
    requires x.System? && y.System?
    ensures Spoken(a + [x] + b) == Spoken(a + [y] + b)
  {
    SpokenNone(x);
    SpokenNone(y);
    hide Spoken;
    SpokenConcat(a + [x], b);
    SpokenConcat(a, [x]);
    SpokenConcat(a + [y], b);
    SpokenConcat(a, [y]);
  }

  lemma SpokenNone(x: Message)
    requires x.System?
    ensures Spoken([x]) == []
  {
    assert [x][1..] == [];
  }

  /** The message in the place of another, seen as its parts. */
  lemma Replaced(ms: seq<Message>, i: nat, y: Message)
    requires i < |ms|
    ensures ms == ms[..i] + [ms[i]] + ms[i + 1..] && ms[i := y] == ms[..i] + [y] + ms[i + 1..]
  {
  }

  /** Whatever is declared, every other message is said once and in order. */
  lemma SaidOnce(ms: seq<Message>, change: Option<Message>, said: seq<Message>)
    requires SaidAs(ms, change, said) && (change.Some? ==> change.value.System?)
    ensures Spoken(said) == Spoken(ms)
  {
    hide Spoken;
    if change.Some? && said == [change.value] + ms {
      SpokenNone(change.value);
      SpokenConcat([change.value], ms);
      assert [] + Spoken(ms) == Spoken(ms);
    } else if change.Some? {
      var j :| 0 <= j < |ms| && ms[j].System? && said == ms[j := change.value];
      hide SaidAs;
      Replaced(ms, j, change.value);
      SpokenReplaced(ms[..j], ms[j], change.value, ms[j + 1..]);
    }
  }

  lemma {:induction false} LastSystemIsLast(ms: seq<Message>)
    ensures forall i :: LastSystem(ms) < i < |ms| ==> !ms[i].System?
  {
    if ms != [] && !ms[|ms| - 1].System? {
      LastSystemIsLast(ms[..|ms| - 1]);
    }
  }

  lemma DeclaredSays(ms: seq<Message>, change: Option<Message>)
    ensures SaidAs(ms, change, Declared(ms, change))
  {
    LastSystemIsLast(ms);
  }

  /** A message of no queue in place of another. */
  lemma OfReplaced(steering: bool, a: seq<Message>, x: Message, y: Message, b: seq<Message>)
    requires !x.Queued? && !y.Queued?
    ensures Of(steering, a + [x] + b) == Of(steering, a + [y] + b)
  {
    OfNone(steering, [x]);
    OfNone(steering, [y]);
    hide Of;
    OfConcat(steering, a + [x], b);
    OfConcat(steering, a, [x]);
    OfConcat(steering, a + [y], b);
    OfConcat(steering, a, [y]);
  }

  lemma DeclaredKeeps(steering: bool, ms: seq<Message>, change: Option<Message>)
    requires change.Some? ==> change.value.System?
    ensures Of(steering, Declared(ms, change)) == Of(steering, ms)
  {
    hide Of;
    var i := LastSystem(ms);
    if change.Some? && i >= 0 {
      Replaced(ms, i, change.value);
      OfReplaced(steering, ms[..i], ms[i], change.value, ms[i + 1..]);
    } else if change.Some? {
      OfNone(steering, [change.value]);
      OfConcat(steering, [change.value], ms);
      assert [] + Of(steering, ms) == Of(steering, ms);
    }
  }

  // The run

  datatype Chunk = Begin(partial: Message) | Delta(partial: Message)

  /** How often a stream of chunks begins. */
  function Begins(chunks: seq<Chunk>): (n: nat) {
    if chunks == [] then 0
    else Begins(chunks[..|chunks| - 1]) + if chunks[|chunks| - 1].Begin? then 1 else 0
  }

  datatype Decision = Natural | End | Continue

  /** How many messages arrive in each queue at some moment. */
  datatype Arrivals = Arrivals(steering: nat, followUp: nat)

  /**
   What the outside answers in one turn. `early`, `late` and `follow` are what arrives, in either queue, since the poll
   before: until the poll while the turn is prepared, the one after it, and the one for follow-up messages.
   */
  datatype Turn = Turn(prepared: seq<Message>, early: Arrivals, change: Option<Message>, chunks: seq<Chunk>, answer: Message,
                       sequential: bool, outcomes: seq<Outcome>, moves: seq<Move>, decision: Decision, late: Arrivals,
                       follow: Arrivals)
  {
    predicate Sound() {
      && NoneQueued(prepared) && (change.Some? ==> change.value.System?)
      && answer.Assistant? && |outcomes| == answer.calls
      && Begins(chunks) <= 1
    }

    predicate Unaborted() {
      forall i :: 0 <= i < |outcomes| ==> !outcomes[i].aborted
    }
  }

  /** What the calls of an answer come to: a truncated answer's are refused. */
  predicate ReportsOf(turn: Turn, results: seq<Message>) {
    turn.answer.Assistant? &&
    if Failed(turn.answer) then results == []
    else if turn.answer.stop == Length then
      |results| == turn.answer.calls && forall i :: 0 <= i < |results| ==> results[i] == Result(i, 0)
    else Outcomes(turn.outcomes, results) && Reaches(turn.outcomes, |results|)
  }

  /** The turn asks for another: it had tool calls, not all of which ask to stop. */
  predicate AsksOn(turn: Turn, results: seq<Message>) {
    && turn.answer.Assistant? && !Failed(turn.answer) && turn.answer.calls > 0
    && (turn.answer.stop == Length || exists i :: 0 <= i < |results| && i < |turn.outcomes| && !turn.outcomes[i].terminate)
  }

  /**
   A queue of the agent: what its last poll left behind, what arrived since, and what will arrive later in the run.
   */
  datatype Queue = Queue(left: seq<Message>, recent: seq<Message>, later: seq<Message>)
  {
    function Waiting(): seq<Message> {
      left + recent
    }

    function All(): seq<Message> {
      left + recent + later
    }

    /** `n` more messages arrive. */
    function Arrive(n: nat): (q: Queue)
      ensures q.All() == All() && q.left == left
    {
      var k := if n < |later| then n else |later|;
      assert later == later[..k] + later[k..];
      Queue(left, recent + later[..k], later[k..])
    }
  }

  /** What the loop has emitted, returned and put into its context, the agent's queues, and whether an abort cut a batch short. */
  datatype Log = Log(events: seq<Event>, messages: seq<Message>, context: seq<Message>, steering: Queue, followUp: Queue, aborted: bool)
  {
    function Emit(e: Event): (r: Log) {
      this.(events := events + [e])
    }

    function Arrive(a: Arrivals): (r: Log) {
      this.(steering := steering.Arrive(a.steering), followUp := followUp.Arrive(a.followUp))
    }
  }

  /** Everything queued before or during the run, by queue. */
  datatype Inbox = Inbox(steered: seq<Message>, followed: seq<Message>)

  /** The events since the last answer ended. */
  function Since(es: seq<Event>): (r: seq<Event>) {
    if es == [] then []
    else
      var e := es[|es| - 1];
      if e.MessageEnd? && e.message.Assistant? then [] else Since(es[..|es| - 1]) + [e]
  }

  /** The last answer that ended. */
  function Answer(es: seq<Event>): (m: Option<Message>) {
    if es == [] then None
    else
      var e := es[|es| - 1];
      if e.MessageEnd? && e.message.Assistant? then Some(e.message) else Answer(es[..|es| - 1])
  }

  predicate Failed(m: Message) {
    m.Assistant? && (m.stop == Error || m.stop == Aborted)
  }

  /** A turn that ends after `es`: its answer, then one batch of its calls, all of them unless the run was aborted. */
  ghost predicate WholeTurn(es: seq<Event>, m: Message, results: seq<Message>, aborted: bool) {
    && Answer(es) == Some(m) && m.Assistant? && Batch(Since(es), results, |results|) && |results| <= m.calls
    && (if Failed(m) then results == [] else (m.calls > 0 ==> results != []) && (!aborted ==> |results| == m.calls))
  }

  /** Every turn that ended was whole. */
  ghost predicate TurnsWhole(es: seq<Event>, aborted: bool) {
    es == [] ||
    var e := es[|es| - 1];
    TurnsWhole(es[..|es| - 1], aborted) && (e.TurnEnd? ==> WholeTurn(es[..|es| - 1], e.message, e.results, aborted))
  }

  lemma WholeAppended(es: seq<Event>, e: Event, aborted: bool)
    ensures TurnsWhole(es + [e], aborted) <==>
            TurnsWhole(es, aborted) && (e.TurnEnd? ==> WholeTurn(es, e.message, e.results, aborted))
    ensures e.MessageEnd? && e.message.Assistant? ==> Since(es + [e]) == [] && Answer(es + [e]) == Some(e.message)
  {
    assert (es + [e])[..|es|] == es;
  }

  lemma {:induction false} WholeBatch(es: seq<Event>, batch: seq<Event>, aborted: bool, now: bool)
    requires TurnsWhole(es, aborted) && (aborted ==> now) && Since(es) == [] && OnlyBatch(batch)
    ensures TurnsWhole(es + batch, now) && Since(es + batch) == batch && Answer(es + batch) == Answer(es)
    decreases |batch|
  {
    if batch == [] {
      assert es + batch == es;
      AbortLater(es, aborted, now);
    } else {
      hide WholeTurn;
      var rest, e := batch[..|batch| - 1], batch[|batch| - 1];
      WholeBatch(es, rest, aborted, now);
      assert OfBatch(e);
      assert (es + batch)[..|es + batch| - 1] == es + rest;
    }
  }

  /** An abort asks less of the turns before it. */
  lemma {:induction false} AbortLater(es: seq<Event>, aborted: bool, now: bool)
    requires TurnsWhole(es, aborted) && (aborted ==> now)
    ensures TurnsWhole(es, now)
  {
    if es != [] {
      AbortLater(es[..|es| - 1], aborted, now);
    }
  }

  /** So each turn of a run, wherever it ended, had its answer and then one batch of that answer's calls. */
  lemma {:induction false} EveryTurn(es: seq<Event>, aborted: bool, i: nat)
    requires TurnsWhole(es, aborted) && i < |es| && es[i].TurnEnd?
    ensures WholeTurn(es[..i], es[i].message, es[i].results, aborted)
  {
    if i < |es| - 1 {
      EveryTurn(es[..|es| - 1], aborted, i);
      assert es[..|es| - 1][..i] == es[..i];
    }
  }

  /** The events, the returned messages and the context agree, and every turn so far was whole. */
  ghost predicate Records(base: seq<Message>, log: Log, phase: Phase) {
    && Ended(log.events) == log.messages && log.context == base + log.messages && Scan(Fresh, log.events) == phase
    && TurnsWhole(log.events, log.aborted)
  }

  /** What is queued in the run is among the messages, pending, or still to be taken: once, and in order. */
  ghost predicate Kept(log: Log, pending: seq<Message>, inbox: Inbox) {
    && Of(true, log.messages + pending) + log.steering.All() == inbox.steered
    && Of(false, log.messages + pending) + log.followUp.All() == inbox.followed
  }

  lemma Emits(base: seq<Message>, log: Log, phase: Phase, e: Event)
    requires Records(base, log, phase) && !e.MessageEnd?
    requires e.TurnEnd? ==> WholeTurn(log.events, e.message, e.results, log.aborted)
    ensures Records(base, log.Emit(e), Advance(phase, e))
  {
    Appended(log.events, e);
    WholeAppended(log.events, e, log.aborted);
  }

  /** A message that is complete: start and end, and into the context and the returned messages. */
  method Say(ghost base: seq<Message>, log: Log, m: Message) returns (r: Log)
    requires Records(base, log, InTurn)
    ensures Records(base, r, InTurn)
    ensures r == log.(events := log.events + Whole(m), messages := log.messages + [m], context := log.context + [m])
  {
    Emits(base, log, InTurn, MessageStart(m));
    var started := log.Emit(MessageStart(m));
    Appended(started.events, MessageEnd(m));
    WholeAppended(started.events, MessageEnd(m), log.aborted);
    hide Ended, Scan, TurnsWhole;
    assert base + log.messages + [m] == base + (log.messages + [m]);
    assert log.events + [MessageStart(m)] + [MessageEnd(m)] == log.events + Whole(m);
    r := started.Emit(MessageEnd(m)).(messages := log.messages + [m], context := log.context + [m]);
  }

  function AllWhole(ms: seq<Message>): (es: seq<Event>) {
    if ms == [] then [] else AllWhole(ms[..|ms| - 1]) + Whole(ms[|ms| - 1])
  }

  method SayAll(ghost base: seq<Message>, log: Log, ms: seq<Message>) returns (r: Log)
    requires Records(base, log, InTurn)
    ensures Records(base, r, InTurn)
    ensures r == log.(events := log.events + AllWhole(ms), messages := log.messages + ms, context := log.context + ms)
  {
    r := log;
    assert log.messages + [] == log.messages && log.context + [] == log.context && log.events + [] == log.events;
    assert ms[..0] == [] && AllWhole([]) == [];
    hide Records, Whole;
    for i := 0 to |ms|
      invariant Records(base, r, InTurn)
      invariant r == log.(events := log.events + AllWhole(ms[..i]), messages := log.messages + ms[..i], context := log.context + ms[..i])
    {
      r := Say(base, r, ms[i]);
      assert ms[..i + 1] == ms[..i] + [ms[i]] && ms[..i + 1][..i] == ms[..i];
      assert log.events + AllWhole(ms[..i]) + Whole(ms[i]) == log.events + AllWhole(ms[..i + 1]);
    }
    assert ms[..|ms|] == ms;
  }

  /** While an answer streams its partial message stands at the end of the context. */
  ghost predicate Streaming(log: Log, r: Log, added: bool) {
    && r == log.(events := r.events, context := r.context) && Ended(r.events) == Ended(log.events)
    && TurnsWhole(r.events, r.aborted)
    && (if added then
          Scan(Fresh, r.events) == InMessage && |r.context| == |log.context| + 1 && r.context[..|log.context|] == log.context
        else Scan(Fresh, r.events) == InTurn && r.context == log.context)
  }

  lemma StreamingOn(log: Log, r: Log, added: bool, partial: Message)
    requires Streaming(log, r, added)
    ensures !added ==> Streaming(log, r.Emit(MessageStart(partial)).(context := r.context + [partial]), true)
    ensures added ==> Streaming(log, r.Emit(MessageUpdate(partial)).(context := r.context[|r.context| - 1 := partial]), true)
  {
    Appended(r.events, MessageStart(partial));
    Appended(r.events, MessageUpdate(partial));
    WholeAppended(r.events, MessageStart(partial), r.aborted);
    WholeAppended(r.events, MessageUpdate(partial), r.aborted);
    hide Ended, Scan, TurnsWhole;
  }

  /** `n` partial messages stand behind the context as it was. */
  ghost predicate Appending(log: Log, r: Log, n: nat) {
    && r == log.(events := r.events, context := r.context)
    && |r.context| == |log.context| + n && r.context[..|log.context|] == log.context
  }

  /** What the listener sees of a stream: nothing before it begins, then every chunk. */
  function ChunkEvents(chunks: seq<Chunk>): (es: seq<Event>) {
    if chunks == [] then []
    else
      var init, last := chunks[..|chunks| - 1], chunks[|chunks| - 1];
      ChunkEvents(init) + if last.Begin? then [MessageStart(last.partial)]
                          else if Begins(init) > 0 then [MessageUpdate(last.partial)] else []
  }

  lemma StreamingStarts(base: seq<Message>, log: Log)
    requires Records(base, log, InTurn)
    ensures Streaming(log, log, false) && Appending(log, log, 0)
  {
  }

  /** One chunk: a beginning is appended, a delta replaces what began last. */
  function Chunked(r: Log, chunk: Chunk, added: bool): (u: Log)
    requires added ==> r.context != []
  {
    if chunk.Begin? then r.Emit(MessageStart(chunk.partial)).(context := r.context + [chunk.partial])
    else if added then r.Emit(MessageUpdate(chunk.partial)).(context := r.context[|r.context| - 1 := chunk.partial])
    else r
  }

  lemma ChunkedOn(log: Log, r: Log, n: nat, chunk: Chunk)
    requires Appending(log, r, n) && (n <= 1 ==> Streaming(log, r, n > 0))
    ensures var u, k := Chunked(r, chunk, n > 0), if chunk.Begin? then n + 1 else n;
            Appending(log, u, k) && (k <= 1 ==> Streaming(log, u, k > 0))
  {
    if n <= 1 {
      StreamingOn(log, r, n > 0, chunk.partial);
    }
    hide Streaming;
  }

  /**
   `streamAssistantResponse`: the final message replaces the newest partial one, or comes whole if nothing streamed. The
   records agree afterwards exactly if the stream began at most once: partial messages it began before stay.
   */
  method Stream(ghost base: seq<Message>, log: Log, chunks: seq<Chunk>, answer: Message) returns (r: Log)
    requires Records(base, log, InTurn)
    requires answer.Assistant?
    ensures Records(base, r, InTurn) <==> Begins(chunks) <= 1
    ensures Begins(chunks) <= 1 ==>
              && Since(r.events) == [] && Answer(r.events) == Some(answer)
              && r == log.(events := r.events, messages := log.messages + [answer], context := log.context + [answer])
    ensures var n := if Begins(chunks) == 0 then 1 else Begins(chunks);
            && Appending(log.(messages := log.messages + [answer]), r, n) && r.context[|r.context| - 1] == answer
    ensures r.events == log.events + ChunkEvents(chunks) + (if Begins(chunks) == 0 then [MessageStart(answer)] else [])
                        + [MessageEnd(answer)]
  {
    r := log;
    var added := false;
    StreamedNone(base, log);
    assert chunks[..0] == [];
    hide Streamed, Appending, Ended, Scan, TurnsWhole, Since, Answer, Records, Begins, ChunkEvents;
    for i := 0 to |chunks|
      invariant added == (Begins(chunks[..i]) > 0) && Streamed(log, r, chunks[..i])
    {
      BeginsNext(chunks, i);
      StreamedNext(log, r, chunks, i);
      if chunks[i].Begin? {
        r := r.Emit(MessageStart(chunks[i].partial)).(context := r.context + [chunks[i].partial]);
        added := true;
      } else if added {
        r := r.Emit(MessageUpdate(chunks[i].partial)).(context := r.context[|r.context| - 1 := chunks[i].partial]);
      }
    }
    assert chunks[..|chunks|] == chunks;
    StreamedWhole(base, log, r, chunks, answer);
    if added {
      r := r.(context := r.context[|r.context| - 1 := answer]);
    } else {
      r := r.Emit(MessageStart(answer)).(context := r.context + [answer]);
    }
    r := r.Emit(MessageEnd(answer)).(messages := r.messages + [answer]);
  }

  /** What the loop has done with the chunks so far. */
  ghost predicate Streamed(log: Log, r: Log, chunks: seq<Chunk>) {
    var n := Begins(chunks);
    && Appending(log, r, n) && (n <= 1 ==> Streaming(log, r, n > 0)) && r.events == log.events + ChunkEvents(chunks)
  }

  lemma StreamedNone(base: seq<Message>, log: Log)
    requires Records(base, log, InTurn)
    ensures Begins([]) == 0 && Streamed(log, log, [])
  {
    StreamingStarts(base, log);
    assert log.events + [] == log.events;
  }

  lemma StreamedNext(log: Log, r: Log, chunks: seq<Chunk>, i: nat)
    requires i < |chunks| && Streamed(log, r, chunks[..i])
    ensures Begins(chunks[..i]) > 0 ==> r.context != []
    ensures Streamed(log, Chunked(r, chunks[i], Begins(chunks[..i]) > 0), chunks[..i + 1])
  {
    BeginsNext(chunks, i);
    hide Streaming, Begins, ChunkEvents;
    ChunkedOn(log, r, Begins(chunks[..i]), chunks[i]);
  }

  /** The final message in place of the newest of `n` partial ones, or whole. */
  function Placed(r: Log, n: nat, answer: Message): (t: Log)
    requires n > 0 ==> r.context != []
  {
    if n > 0 then r.(context := r.context[|r.context| - 1 := answer])
    else r.Emit(MessageStart(answer)).(context := r.context + [answer])
  }

  /** The message ends. */
  function Closing(t: Log, answer: Message): (u: Log) {
    t.Emit(MessageEnd(answer)).(messages := t.messages + [answer])
  }

  lemma StreamedWhole(base: seq<Message>, log: Log, r: Log, chunks: seq<Chunk>, answer: Message)
    requires Records(base, log, InTurn) && answer.Assistant? && Streamed(log, r, chunks)
    ensures Begins(chunks) > 0 ==> r.context != []
    ensures var n := Begins(chunks);
            var u := Closing(Placed(r, n, answer), answer);
            && (Records(base, u, InTurn) <==> n <= 1)
            && (n <= 1 ==>
                  && Since(u.events) == [] && Answer(u.events) == Some(answer)
                  && u == log.(events := u.events, messages := log.messages + [answer], context := log.context + [answer]))
            && Appending(log.(messages := log.messages + [answer]), u, if n == 0 then 1 else n) && u.context[|u.context| - 1] == answer
            && u.events == log.events + ChunkEvents(chunks) + (if n == 0 then [MessageStart(answer)] else []) + [MessageEnd(answer)]
  {
    var n := Begins(chunks);
    assert n > 0 ==> r.context != [];
    hide Streaming, Ended, Scan, TurnsWhole, Since, Answer, Records, Begins, ChunkEvents;
    StreamLast(log, r, n, answer);
    StreamedEvents(log.events, chunks, answer);
    hide Appending, Placed;
    StreamSettles(base, log, Placed(r, n, answer), n, answer);
    PlacedEvents(r, n, answer);
  }

  lemma PlacedEvents(r: Log, n: nat, answer: Message)
    requires n > 0 ==> r.context != []
    ensures Placed(r, n, answer).events == r.events + if n == 0 then [MessageStart(answer)] else []
  {
  }

  lemma StreamedEvents(es: seq<Event>, chunks: seq<Chunk>, answer: Message)
    ensures es + ChunkEvents(chunks) + [] + [MessageEnd(answer)] == es + ChunkEvents(chunks) + [MessageEnd(answer)]
  {
    hide ChunkEvents;
    assert es + ChunkEvents(chunks) + [] == es + ChunkEvents(chunks);
  }

  lemma BeginsNext(chunks: seq<Chunk>, i: nat)
    requires i < |chunks|
    ensures Begins(chunks[..i + 1]) == Begins(chunks[..i]) + if chunks[i].Begin? then 1 else 0
    ensures ChunkEvents(chunks[..i + 1]) == ChunkEvents(chunks[..i])
              + (if chunks[i].Begin? then [MessageStart(chunks[i].partial)]
                 else if Begins(chunks[..i]) > 0 then [MessageUpdate(chunks[i].partial)] else [])
  {
    assert chunks[..i + 1][..i] == chunks[..i];
  }

  /** With one partial message the records agree; with more the context has too many. */
  lemma StreamSettles(base: seq<Message>, log: Log, r: Log, n: nat, answer: Message)
    requires Records(base, log, InTurn) && answer.Assistant?
    requires Appending(log, r, if n == 0 then 1 else n) && r.context[|r.context| - 1] == answer && (n <= 1 ==> Streaming(log, r, true))
    ensures var u := Closing(r, answer);
            && (Records(base, u, InTurn) <==> n <= 1)
            && (n <= 1 ==>
                  && Since(u.events) == [] && Answer(u.events) == Some(answer)
                  && u == log.(events := u.events, messages := log.messages + [answer], context := log.context + [answer]))
            && u.context[|u.context| - 1] == answer
            && Appending(log.(messages := log.messages + [answer]), u, if n == 0 then 1 else n)
  {
    if n <= 1 {
      StreamEnds(base, log, r, answer);
    }
    hide Ended, Scan, TurnsWhole, Since, Answer, Streaming;
  }

  /** The final message stands in the place of the newest partial one. */
  lemma StreamLast(log: Log, r: Log, n: nat, answer: Message)
    requires Appending(log, r, n) && (n <= 1 ==> Streaming(log, r, n > 0))
    ensures n > 0 ==> r.context != []
    ensures var u := Placed(r, n, answer);
            && Appending(log, u, if n == 0 then 1 else n) && u.context[|u.context| - 1] == answer
            && (n <= 1 ==> Streaming(log, u, true))
  {
    if n <= 1 {
      StreamingOn(log, r, n > 0, answer);
    }
  }

  lemma StreamEnds(base: seq<Message>, log: Log, r: Log, answer: Message)
    requires Records(base, log, InTurn) && Streaming(log, r, true) && r.context[|r.context| - 1] == answer
    requires answer.Assistant?
    ensures Records(base, Closing(r, answer), InTurn)
    ensures r.context == log.context + [answer]
    ensures var es := r.events + [MessageEnd(answer)]; Since(es) == [] && Answer(es) == Some(answer)
  {
    Appended(r.events, MessageEnd(answer));
    WholeAppended(r.events, MessageEnd(answer), r.aborted);
    hide Ended, Scan, TurnsWhole, Since, Answer;
    assert r.context == log.context + [answer];
    assert base + log.messages + [answer] == base + (log.messages + [answer]);
  }

  /** The batch of an answer's calls, and whether it asks to stop. */
  method ToolBatch(turn: Turn) returns (es: seq<Event>, results: seq<Message>, terminate: bool)
    requires turn.Sound()
    requires !Failed(turn.answer) && turn.answer.calls > 0
    ensures Batch(es, results, |results|) && |results| <= turn.answer.calls && results != []
    ensures turn.Unaborted() ==> |results| == turn.answer.calls
    ensures ReportsOf(turn, results) && terminate == !AsksOn(turn, results)
  {
    hide Begun, Ended, Scan, StoryOf;
    terminate := false;
    if turn.answer.stop == Length {
      es, results := TruncatedBatch(turn.answer.calls);
      return;
    }
    if turn.sequential {
      es, results := SequentialBatch(turn.outcomes);
    } else {
      es, results := ParallelBatch(turn.outcomes, turn.moves);
    }
    terminate := |results| > 0 && forall i :: 0 <= i < |results| ==> turn.outcomes[i].terminate;
  }

  /** Runs the calls of an answer and puts their results after it. */
  method RunTools(ghost base: seq<Message>, log: Log, turn: Turn) returns (r: Log, results: seq<Message>, terminate: bool)
    requires Records(base, log, InTurn) && turn.Sound() && !Failed(turn.answer) && turn.answer.calls > 0
    requires Since(log.events) == [] && Answer(log.events) == Some(turn.answer)
    ensures Records(base, r, InTurn) && NoneQueued(results) && WholeTurn(r.events, turn.answer, results, r.aborted)
    ensures r == log.(events := r.events, messages := log.messages + results, context := log.context + results, aborted := r.aborted)
    ensures turn.Unaborted() ==> r.aborted == log.aborted
    ensures ReportsOf(turn, results) && terminate == !AsksOn(turn, results)
  {
    hide Records, Batch, TurnsWhole, WholeTurn, Since, Answer;
    var es;
    es, results, terminate := ToolBatch(turn);
    var aborted := log.aborted || |results| < turn.answer.calls;
    BatchRecorded(base, log, turn.answer, es, results, aborted);
    r := log.(events := log.events + es, messages := log.messages + results, context := log.context + results, aborted := aborted);
  }

  lemma BatchRecorded(base: seq<Message>, log: Log, answer: Message, es: seq<Event>, results: seq<Message>, aborted: bool)
    requires Records(base, log, InTurn) && Since(log.events) == [] && Answer(log.events) == Some(answer)
    requires answer.Assistant? && !Failed(answer) && Batch(es, results, |results|)
    requires |results| <= answer.calls && (answer.calls > 0 ==> results != [])
    requires aborted == (log.aborted || |results| < answer.calls)
    ensures NoneQueued(results) && WholeTurn(log.events + es, answer, results, aborted)
    ensures Records(base, log.(events := log.events + es, messages := log.messages + results, context := log.context + results,
                               aborted := aborted), InTurn)
  {
    Concat(log.events, es, Fresh);
    WholeBatch(log.events, es, log.aborted, aborted);
    hide Ended, Begun, Scan, StoryOf, TurnsWhole, Since, Answer;
    assert base + log.messages + results == base + (log.messages + results);
  }

  /** Messages arrive, and a poll takes what its mode allows from its queue. */
  method Poll(log: Log, steering: bool, all: bool, arrivals: Arrivals, ghost inbox: Inbox) returns (r: Log, taken: seq<Message>)
    requires Kept(log, [], inbox) && Queues(log)
    ensures Kept(r, taken, inbox) && Queues(r) && r == log.(steering := r.steering, followUp := r.followUp)
    ensures taken == [] ==> (if steering then r.steering else r.followUp).left == []
    ensures From(steering, taken) && if all then (if steering then r.steering else r.followUp).left == [] else |taken| <= 1
    ensures (if steering then r.followUp else r.steering).left == (if steering then log.followUp else log.steering).left
  {
    hide Kept, Of, From;
    var now := log.Arrive(arrivals);
    Arrived(log, arrivals, inbox);
    var queue := if steering then now.steering else now.followUp;
    taken := Drained(queue.Waiting(), all);
    var rest := Queue(queue.Waiting()[|taken|..], [], queue.later);
    Taken(steering, queue, taken);
    hide Queue.All;
    Polled(now, steering, taken, rest, inbox);
    r := if steering then now.(steering := rest) else now.(followUp := rest);
  }

  lemma Arrived(log: Log, arrivals: Arrivals, inbox: Inbox)
    requires Kept(log, [], inbox) && Queues(log)
    ensures Kept(log.Arrive(arrivals), [], inbox) && Queues(log.Arrive(arrivals))
  {
    hide Of, From;
  }

  lemma Taken(steering: bool, queue: Queue, taken: seq<Message>)
    requires From(steering, queue.All()) && taken <= queue.Waiting()
    ensures var rest := Queue(queue.Waiting()[|taken|..], [], queue.later);
            taken + rest.All() == queue.All() && From(steering, taken) && From(steering, rest.All())
  {
    var all, rest := queue.All(), Queue(queue.Waiting()[|taken|..], [], queue.later);
    assert taken + rest.All() == all;
    assert forall i :: 0 <= i < |taken| ==> taken[i] == all[i];
    assert forall i :: 0 <= i < |rest.All()| ==> rest.All()[i] == all[i + |taken|];
  }

  lemma Polled(log: Log, steering: bool, taken: seq<Message>, rest: Queue, inbox: Inbox)
    requires Kept(log, [], inbox) && From(steering, taken)
    requires taken + rest.All() == (if steering then log.steering else log.followUp).All()
    ensures Kept(if steering then log.(steering := rest) else log.(followUp := rest), taken, inbox)
  {
    hide Of, From, Queue.All;
    assert log.messages + [] == log.messages;
    OfConcat(true, log.messages, taken);
    OfConcat(false, log.messages, taken);
    OfFrom(steering, taken);
    var before := Of(steering, log.messages);
    assert before + taken + rest.All() == before + (taken + rest.All());
    assert Of(!steering, log.messages) + [] == Of(!steering, log.messages);
  }

  /** Messages that are no queue's change nothing; the pending ones, however declared, are now among the messages. */
  lemma KeptSaid(log: Log, r: Log, pending: seq<Message>, said: seq<Message>, inbox: Inbox)
    requires Kept(log, pending, inbox) && r.messages == log.messages + said
    requires r.steering == log.steering && r.followUp == log.followUp
    requires Of(true, said) == Of(true, pending) && Of(false, said) == Of(false, pending)
    ensures Kept(r, [], inbox)
  {
    assert r.messages + [] == r.messages;
    OfConcat(true, log.messages, said);
    OfConcat(false, log.messages, said);
    OfConcat(true, log.messages, pending);
    OfConcat(false, log.messages, pending);
  }

  lemma KeptOther(log: Log, r: Log, said: seq<Message>, inbox: Inbox)
    requires Kept(log, [], inbox) && r.messages == log.messages + said && NoneQueued(said)
    requires r.steering == log.steering && r.followUp == log.followUp
    ensures Kept(r, [], inbox)
  {
    OfNone(true, said);
    OfNone(false, said);
    KeptSaid(log, r, [], said, inbox);
  }

  /** Prepared and pending messages go out before the request, with the tools they declare. */
  method SayPending(ghost base: seq<Message>, log: Log, prepared: seq<Message>, pending: seq<Message>, change: Option<Message>, ghost inbox: Inbox)
    returns (r: Log)
    requires Records(base, log, InTurn) && Kept(log, pending, inbox) && NoneQueued(prepared)
    requires change.Some? ==> change.value.System?
    ensures Records(base, r, InTurn) && Kept(r, [], inbox)
    ensures exists said :: SaidAs(prepared + pending, change, said) && r.messages == log.messages + said
    ensures r.steering == log.steering && r.followUp == log.followUp && r.aborted == log.aborted
  {
    var said := Declared(prepared + pending, change);
    DeclaredSays(prepared + pending, change);
    r := SayAll(base, log, said);
    DeclaredKeeps(true, prepared + pending, change);
    DeclaredKeeps(false, prepared + pending, change);
    OfConcat(true, prepared, pending);
    OfConcat(false, prepared, pending);
    OfNone(true, prepared);
    OfNone(false, prepared);
    hide Records, Of, Kept, Declared;
    KeptSaid(log, r, pending, said, inbox);
  }

  /** What a turn adds: the messages said before the request, the answer, and the results of its calls. */
  ghost predicate TurnSaid(before: seq<Message>, after: seq<Message>, opening: seq<Message>, turn: Turn, results: seq<Message>) {
    ReportsOf(turn, results)
    && exists said :: SaidAs(opening, turn.change, said) && after == before + said + [turn.answer] + results
  }

  /** How a turn ended. */
  datatype Outlook = Stopped | Goes(more: bool)

  /** From the pending messages to `turn_end` (agent-loop.ts:219-296), and `agent_end` if the run stops here. */
  method OneTurn(ghost base: seq<Message>, log: Log, prepared: seq<Message>, pending: seq<Message>, turn: Turn, ghost inbox: Inbox)
    returns (r: Log, outlook: Outlook, ghost results: seq<Message>)
    requires Records(base, log, InTurn) && Kept(log, pending, inbox) && NoneQueued(prepared) && turn.Sound()
    ensures Records(base, r, if outlook.Stopped? then Done else Between) && Kept(r, [], inbox)
    ensures r.steering == log.steering && r.followUp == log.followUp && (turn.Unaborted() ==> r.aborted == log.aborted)
    ensures outlook.Stopped? ==> Last(r.events) == Some(AgentEnd(r.messages))
    ensures TurnSaid(log.messages, r.messages, prepared + pending, turn, results)
    ensures outlook.Stopped? <==> Failed(turn.answer) || turn.decision == End
    ensures outlook.Goes? ==> outlook.more == AsksOn(turn, results)
  {
    hide Ended, Scan, Of, Kept, Records, TurnsWhole, WholeTurn, Since, Answer, SaidAs, Reaches, Outcomes, Appending, Begins;
    var said := SayPending(base, log, prepared, pending, turn.change, inbox);
    r := Stream(base, said, turn.chunks, turn.answer);
    KeptOther(said, r, [turn.answer], inbox);
    assert r.messages + [] == r.messages;
    var reports := [];
    var terminate := false;
    if !Failed(turn.answer) && turn.answer.calls > 0 {
      var before := r;
      r, reports, terminate := RunTools(base, before, turn);
      KeptOther(before, r, reports, inbox);
    } else {
      NoCalls(r.events, turn.answer, r.aborted);
      NoReports(turn);
    }
    results := reports;
    var ended := r.Emit(TurnEnd(turn.answer, reports));
    Emits(base, r, InTurn, TurnEnd(turn.answer, reports));
    Emits(base, ended, Between, AgentEnd(ended.messages));
    KeptSame(r, ended, inbox);
    KeptSame(r, ended.Emit(AgentEnd(ended.messages)), inbox);
    if Failed(turn.answer) || turn.decision == End {
      r, outlook := ended.Emit(AgentEnd(ended.messages)), Stopped;
    } else {
      r, outlook := ended, Goes(turn.answer.calls > 0 && !terminate);
    }
  }

  lemma NoReports(turn: Turn)
    requires turn.Sound() && (Failed(turn.answer) || turn.answer.calls == 0)
    ensures ReportsOf(turn, []) && !AsksOn(turn, [])
  {
  }

  lemma NoCalls(es: seq<Event>, m: Message, aborted: bool)
    requires Since(es) == [] && Answer(es) == Some(m) && m.Assistant? && (Failed(m) || m.calls == 0)
    ensures WholeTurn(es, m, [], aborted)
  {
  }

  function Last(es: seq<Event>): Option<Event> {
    if es == [] then None else Some(es[|es| - 1])
  }

  lemma KeptSame(log: Log, r: Log, inbox: Inbox)
    requires Kept(log, [], inbox) && r == log.(events := r.events)
    ensures Kept(r, [], inbox)
  {
  }

  /** How the agent's queues are drained, and whether the first steering poll is skipped. */
  datatype Config = Config(steerAll: bool, followAll: bool, skipFirst: bool)

  /** What holds of a run's log when the loop has left it: the whole stream, and nothing pending. */
  ghost predicate Complete(base: seq<Message>, log: Log, inbox: Inbox) {
    && Records(base, log, Done) && Last(log.events) == Some(AgentEnd(log.messages))
    && Of(true, log.messages) + log.steering.All() == inbox.steered
    && Of(false, log.messages) + log.followUp.All() == inbox.followed
  }

  lemma Completed(base: seq<Message>, log: Log, inbox: Inbox)
    requires Records(base, log, Done) && Kept(log, [], inbox) && Last(log.events) == Some(AgentEnd(log.messages))
    ensures Complete(base, log, inbox)
  {
    assert log.messages + [] == log.messages;
  }

  /** The queues hold what they should, whatever else the log says. */
  predicate Queues(log: Log) {
    From(true, log.steering.All()) && From(false, log.followUp.All())
  }

  /** What waits for a turn comes from one queue, as its mode allows. */
  predicate Pends(config: Config, pending: seq<Message>) {
    || (From(true, pending) && (!config.steerAll ==> |pending| <= 1))
    || (From(false, pending) && (!config.followAll ==> |pending| <= 1))
  }

  /** Why a turn follows another: messages wait, the one before asked for it, or its decision did. */
  predicate Due(before: Turn, results: seq<Message>, pending: seq<Message>) {
    pending != [] || AsksOn(before, results) || before.decision == Continue
  }

  /** The n-th turn of a run: after a reason to take it, its prepared messages and what waited, its answer, its results. */
  ghost predicate TookTurn(script: seq<Turn>, config: Config, n: nat, rest: seq<Message>, before: seq<Message>,
                           pending: seq<Message>, ms: seq<Message>, results: seq<Message>)
    requires 0 < n <= |script|
  {
    && Pends(config, pending) && (n > 1 ==> Due(script[n - 2], before, pending))
    && TurnSaid(rest, ms, (if n == 1 then [] else script[n - 1].prepared) + pending, script[n - 1], results)
  }

  /** The messages of a run after `n` turns of the script: the opening, then what each turn said. `results` are the last one's. */
  ghost predicate Told(script: seq<Turn>, config: Config, prelude: seq<Message>, n: nat, ms: seq<Message>, results: seq<Message>) {
    n <= |script| &&
    if n == 0 then ms == prelude
    else exists rest, before, pending ::
      Told(script, config, prelude, n - 1, rest, before) && TookTurn(script, config, n, rest, before, pending, ms, results)
  }

  lemma ToldNext(script: seq<Turn>, config: Config, prelude: seq<Message>, n: nat, rest: seq<Message>, before: seq<Message>,
                 pending: seq<Message>, prepared: seq<Message>, ms: seq<Message>, results: seq<Message>)
    requires n < |script| && Told(script, config, prelude, n, rest, before) && Pends(config, pending)
    requires n > 0 ==> Due(script[n - 1], before, pending)
    requires prepared == if n == 0 then [] else script[n].prepared
    requires TurnSaid(rest, ms, prepared + pending, script[n], results)
    ensures Told(script, config, prelude, n + 1, ms, results)
  {
    assert TookTurn(script, config, n + 1, rest, before, pending, ms, results);
    hide TookTurn;
  }

  lemma TurnGrows(before: seq<Message>, after: seq<Message>, opening: seq<Message>, turn: Turn, results: seq<Message>)
    requires TurnSaid(before, after, opening, turn, results)
    ensures before <= after
  {
    hide SaidAs;
    var said :| SaidAs(opening, turn.change, said) && after == before + said + [turn.answer] + results;
  }

  /** The opening comes first. */
  lemma {:induction false} ToldOpens(script: seq<Turn>, config: Config, prelude: seq<Message>, n: nat, ms: seq<Message>, results: seq<Message>)
    requires Told(script, config, prelude, n, ms, results)
    ensures prelude <= ms
  {
    if n > 0 {
      hide TurnSaid, Pends, Due;
      var rest, before, pending :|
        Told(script, config, prelude, n - 1, rest, before) && TookTurn(script, config, n, rest, before, pending, ms, results);
      TurnGrows(rest, ms, (if n == 1 then [] else script[n - 1].prepared) + pending, script[n - 1], results);
      ToldOpens(script, config, prelude, n - 1, rest, before);
    }
  }

  /** How a run of `n` turns ended: by itself after a turn that asked for nothing, for its last turn's sake, or not yet. */
  predicate Ends(script: seq<Turn>, n: nat, results: seq<Message>, over: bool, natural: bool) {
    && n <= |script| && (if over then n > 0 else n == |script|)
    && (natural ==> n > 0 && !AsksOn(script[n - 1], results) && script[n - 1].decision == Natural && !Failed(script[n - 1].answer))
    && (over && !natural ==> n > 0 && (Failed(script[n - 1].answer) || script[n - 1].decision == End))
  }

  /**
   What a run returned: the prompts, as declared, and then what each of its turns said, in order. Without a change the
   prompts come first as they are; whatever is declared, each that is no system message does once and in order.
   */
  ghost predicate Conversation(script: seq<Turn>, config: Config, prompts: seq<Message>, change: Option<Message>,
                               ms: seq<Message>, over: bool, natural: bool)
  {
    && (change.None? ==> prompts <= ms)
    && (exists k: nat :: k <= |ms| && Spoken(ms[..k]) == Spoken(prompts))
    && exists prelude, n, results ::
         SaidAs(prompts, change, prelude) && Told(script, config, prelude, n, ms, results) && Ends(script, n, results, over, natural)
  }

  /** What opened a run is at its beginning, whatever it told since. */
  lemma RunTold(script: seq<Turn>, config: Config, prompts: seq<Message>, change: Option<Message>, prelude: seq<Message>, n: nat,
                ms: seq<Message>, results: seq<Message>, over: bool, natural: bool)
    requires SaidAs(prompts, change, prelude) && (change.Some? ==> change.value.System?)
    requires Told(script, config, prelude, n, ms, results) && Ends(script, n, results, over, natural)
    ensures Conversation(script, config, prompts, change, ms, over, natural)
  {
    ToldOpens(script, config, prelude, n, ms, results);
    SaidOnce(prompts, change, prelude);
    assert ms[..|prelude|] == prelude;
    assert change.None? ==> prompts == prelude;
    hide Told, Ends, Spoken, SaidAs;
  }

  lemma ToldNone(script: seq<Turn>, config: Config, prelude: seq<Message>)
    ensures Told(script, config, prelude, 0, prelude, []) && Pends(config, [])
  {
  }

  /** Why the inner loop was left: nothing more to do, the run is over, or the script is. */
  datatype Left = Idle | Over | Unscripted

  /** A turn after the first: what was queued while it was prepared is taken, unless messages wait already. */
  method TurnBegins(ghost base: seq<Message>, log: Log, pending: seq<Message>, turn: Turn, config: Config, ghost inbox: Inbox)
    returns (r: Log, waiting: seq<Message>)
    requires Records(base, log, Between) && Kept(log, pending, inbox) && Queues(log) && Pends(config, pending)
    ensures Records(base, r, InTurn) && Kept(r, waiting, inbox) && Queues(r) && Pends(config, waiting)
    ensures r.messages == log.messages && r.aborted == log.aborted && (pending != [] ==> waiting == pending)
  {
    r, waiting := log, pending;
    hide Ended, Scan, Of, Kept, Records, TurnsWhole;
    if waiting == [] {
      r, waiting := Poll(r, true, config.steerAll, turn.early, inbox);
      RecordsSame(base, log, r, Between);
    }
    Emits(base, r, Between, TurnStart);
    KeptEmit(r, waiting, inbox, TurnStart);
    r := r.Emit(TurnStart);
  }

  /** The next turn of the script: it follows one before for a reason, and adds what it says. */
  method TakeTurn(ghost base: seq<Message>, log: Log, pending: seq<Message>, config: Config, script: seq<Turn>, n: nat,
                  ghost inbox: Inbox, ghost prelude: seq<Message>, ghost last: seq<Message>)
    returns (r: Log, outlook: Outlook, ghost results: seq<Message>)
    requires Records(base, log, if n > 0 then Between else InTurn) && Kept(log, pending, inbox) && Queues(log)
    requires n < |script| && script[n].Sound() && Told(script, config, prelude, n, log.messages, last) && Pends(config, pending)
    requires n > 0 ==> Due(script[n - 1], last, pending)
    ensures Records(base, r, if outlook.Stopped? then Done else Between) && Kept(r, [], inbox) && Queues(r)
    ensures script[n].Unaborted() ==> r.aborted == log.aborted
    ensures outlook.Stopped? ==> Last(r.events) == Some(AgentEnd(r.messages)) && Ends(script, n + 1, results, true, false)
    ensures outlook.Goes? ==> script[n].decision != End && !Failed(script[n].answer) && outlook.more == AsksOn(script[n], results)
    ensures Told(script, config, prelude, n + 1, r.messages, results)
  {
    hide Ended, Scan, Of, Kept, Records, TurnsWhole, Told, AsksOn, From, TurnSaid;
    var turn := script[n];
    var prepared, waiting := [], pending;
    r := log;
    if n > 0 {
      prepared := turn.prepared;
      r, waiting := TurnBegins(base, log, pending, turn, config, inbox);
    }
    r, outlook, results := OneTurn(base, r, prepared, waiting, turn, inbox);
    ToldNext(script, config, prelude, n, log.messages, last, waiting, prepared, r.messages, results);
  }

  /** The poll after a turn. */
  method PollLate(ghost base: seq<Message>, log: Log, turn: Turn, config: Config, ghost inbox: Inbox)
    returns (r: Log, waiting: seq<Message>)
    requires Records(base, log, Between) && Kept(log, [], inbox) && Queues(log)
    ensures Records(base, r, Between) && Kept(r, waiting, inbox) && Queues(r) && Pends(config, waiting)
    ensures r.messages == log.messages && r.aborted == log.aborted && (waiting == [] ==> r.steering.left == [])
  {
    hide Ended, Scan, Of, Kept, Records, TurnsWhole;
    r, waiting := Poll(log, true, config.steerAll, turn.late, inbox);
    RecordsSame(base, log, r, Between);
  }

  /**
   The inner loop (agent-loop.ts:191-308): turns while there are tool calls or pending messages. `n` counts the turns
   of the script; if it runs out, the run is not over.
   */
  method Turns(ghost base: seq<Message>, log: Log, pending: seq<Message>, config: Config,
               script: seq<Turn>, n: nat, ghost inbox: Inbox, ghost prelude: seq<Message>, ghost last: seq<Message>)
    returns (r: Log, m: nat, left: Left, continued: bool, ghost results: seq<Message>)
    requires Records(base, log, if n > 0 then Between else InTurn) && Kept(log, pending, inbox) && Queues(log)
    requires n <= |script| && forall i :: 0 <= i < |script| ==> script[i].Sound()
    requires Told(script, config, prelude, n, log.messages, last) && Pends(config, pending)
    requires n > 0 ==> pending != [] || script[n - 1].decision == Continue
    ensures n <= m <= |script| && Told(script, config, prelude, m, r.messages, results)
    ensures left == Over ==> Ends(script, m, results, true, false)
    ensures left == Unscripted ==> m == |script|
    ensures left == Idle ==> m > 0 && !AsksOn(script[m - 1], results) && script[m - 1].decision != End && !Failed(script[m - 1].answer)
    ensures left == Idle ==> (continued <==> script[m - 1].decision == Continue)
    ensures Ended(r.events) == r.messages && r.context == base + r.messages && TurnsWhole(r.events, r.aborted)
    ensures (forall i :: 0 <= i < |script| ==> script[i].Unaborted()) ==> r.aborted == log.aborted
    ensures left == Over ==> Complete(base, r, inbox)
    ensures left == Idle ==> Records(base, r, Between) && Kept(r, [], inbox) && Queues(r) && m > n && r.steering.left == []
  {
    r, m := log, n;
    var waiting, again := pending, true;
    continued, results := false, last;
    hide Ended, Scan, Of, Kept, Records, TurnsWhole, Told, AsksOn, Turn.Sound, Turn.Unaborted, Complete, Ends, From, Pends;
    while again || waiting != []
      invariant n <= m <= |script| && (m == n ==> again)
      invariant Told(script, config, prelude, m, r.messages, results) && Pends(config, waiting)
      invariant m == n && n > 0 ==> waiting != [] || script[n - 1].decision == Continue
      invariant m > n ==> again == AsksOn(script[m - 1], results) && script[m - 1].decision != End && !Failed(script[m - 1].answer)
      invariant m > n && !again && waiting == [] ==> (continued <==> script[m - 1].decision == Continue)
      invariant Records(base, r, if m > 0 then Between else InTurn) && Kept(r, waiting, inbox) && Queues(r)
      invariant m > n && waiting == [] ==> r.steering.left == []
      invariant (forall i :: 0 <= i < |script| ==> script[i].Unaborted()) ==> r.aborted == log.aborted
      decreases |script| - m
    {
      if m == |script| {
        RecordsMean(base, r, if m > 0 then Between else InTurn);
        left := Unscripted;
        return;
      }
      var outlook;
      var turn := script[m];
      r, outlook, results := TakeTurn(base, r, waiting, config, script, m, inbox, prelude, results);
      if outlook.Stopped? {
        m := m + 1;
        Completed(base, r, inbox);
        RecordsMean(base, r, Done);
        left := Over;
        return;
      }
      again := outlook.more;
      m := m + 1;
      r, waiting := PollLate(base, r, turn, config, inbox);
      continued := turn.decision == Continue && !again && waiting == [];
    }
    left := Idle;
    RecordsMean(base, r, Between);
  }

  lemma RecordsSame(base: seq<Message>, log: Log, r: Log, phase: Phase)
    requires Records(base, log, phase) && r == log.(steering := r.steering, followUp := r.followUp)
    ensures Records(base, r, phase)
  {
  }

  lemma RecordsMean(base: seq<Message>, log: Log, phase: Phase)
    requires Records(base, log, phase)
    ensures Ended(log.events) == log.messages && log.context == base + log.messages && TurnsWhole(log.events, log.aborted)
  {
  }

  lemma KeptEmit(log: Log, pending: seq<Message>, inbox: Inbox, e: Event)
    requires Kept(log, pending, inbox)
    ensures Kept(log.Emit(e), pending, inbox)
  {
  }

  /**
   `runAgentLoop` (agent-loop.ts:111-135, 172-330). When the run is over its event stream is whole, the ended messages, the
   returned messages and what the context gained coincide, both queues' messages were appended once, in order, and every
   turn was whole; a run the script leaves unfinished keeps the agreement too. When a run stops by itself, all that still
   waits in a queue arrived after that queue's last poll.
   */
  method RunAgentLoop(base: seq<Message>, prompts: seq<Message>, change: Option<Message>, first: Arrivals, config: Config,
                      steering: Queue, followUp: Queue, script: seq<Turn>, closing: Arrivals)
    returns (log: Log, over: bool, natural: bool)
    requires NoneQueued(prompts) && (change.Some? ==> change.value.System?)
    requires From(true, steering.All()) && From(false, followUp.All())
    requires forall i :: 0 <= i < |script| ==> script[i].Sound()
    ensures Ended(log.events) == log.messages && log.context == base + log.messages && TurnsWhole(log.events, log.aborted)
    ensures (forall i :: 0 <= i < |script| ==> script[i].Unaborted()) ==> !log.aborted
    ensures over ==> Complete(base, log, Inbox(steering.All(), followUp.All()))
    ensures natural ==> over && log.steering.left == [] && log.followUp.left == []
    ensures Conversation(script, config, prompts, change, log.messages, over, natural)
  {
    ghost var inbox := Inbox(steering.All(), followUp.All());
    ghost var prelude;
    hide Ended, Scan, Of, Kept, Records, From, TurnsWhole, Told, SaidAs, AsksOn, Conversation, Turn.Sound, Complete;
    log, prelude := Opening(base, prompts, change, steering, followUp);
    ToldNone(script, config, prelude);
    var pending: seq<Message> := [];
    if !config.skipFirst {
      ghost var before := log;
      log, pending := Poll(log, true, config.steerAll, first, inbox);
      RecordsSame(base, before, log, InTurn);
    }
    var n := 0;
    ghost var results := [];
    assert Pends(config, pending);
    while true
      invariant n <= |script| && Records(base, log, if n > 0 then Between else InTurn) && Kept(log, pending, inbox) && Queues(log)
      invariant (forall i :: 0 <= i < |script| ==> script[i].Unaborted()) ==> !log.aborted
      invariant Told(script, config, prelude, n, log.messages, results) && Pends(config, pending)
      invariant n > 0 ==> pending != [] || script[n - 1].decision == Continue
      decreases |script| - n
    {
      var left, continued, m;
      log, m, left, continued, results := Turns(base, log, pending, config, script, n, inbox, prelude, results);
      if left != Idle {
        over, natural := left == Over, false;
        RunTold(script, config, prompts, change, prelude, m, log.messages, results, over, natural);
        return;
      }
      n := m;
      ghost var before := log;
      log, pending := Poll(log, false, config.followAll, script[n - 1].follow, inbox);
      RecordsSame(base, before, log, Between);
      assert Pends(config, pending);
      if pending == [] && !continued {
        break;
      }
    }
    // More may arrive while the last poll and the last event are awaited.
    ghost var before := log;
    Arrived(log, closing, inbox);
    log := log.Arrive(closing);
    RecordsSame(base, before, log, Between);
    Emits(base, log, Between, AgentEnd(log.messages));
    KeptEmit(log, [], inbox, AgentEnd(log.messages));
    log := log.Emit(AgentEnd(log.messages));
    Completed(base, log, inbox);
    RecordsMean(base, log, Done);
    over, natural := true, true;
    RunTold(script, config, prompts, change, prelude, n, log.messages, results, over, natural);
  }

  /** `agent_start`, the first `turn_start`, and the prompts. */
  method Opening(base: seq<Message>, prompts: seq<Message>, change: Option<Message>, steering: Queue, followUp: Queue)
    returns (log: Log, ghost prelude: seq<Message>)
    requires NoneQueued(prompts) && (change.Some? ==> change.value.System?)
    requires From(true, steering.All()) && From(false, followUp.All())
    ensures Records(base, log, InTurn) && Kept(log, [], Inbox(steering.All(), followUp.All())) && Queues(log) && !log.aborted
    ensures SaidAs(prompts, change, prelude) && log.messages == prelude
  {
    ghost var inbox := Inbox(steering.All(), followUp.All());
    log := Log([], [], base, steering, followUp, false);
    LogStarts(base, log);
    hide Ended, Scan, Of, Kept, Records, From, TurnsWhole, SaidAs, Queue.All;
    log := log.Emit(AgentStart).Emit(TurnStart);
    KeptAtStart(log, inbox);
    assert prompts + [] == prompts;
    log := SayPending(base, log, prompts, [], change, inbox);
    prelude := log.messages;
  }

  lemma KeptAtStart(log: Log, inbox: Inbox)
    requires log.messages == [] && inbox == Inbox(log.steering.All(), log.followUp.All())
    ensures Kept(log, [], inbox)
  {
    assert log.messages + [] == [];
  }

  lemma LogStarts(base: seq<Message>, log: Log)
    requires log.events == [] && log.messages == [] && log.context == base
    ensures Records(base, log.Emit(AgentStart).Emit(TurnStart), InTurn)
  {
    assert base + [] == base;
    Appended([], AgentStart);
    assert [] + [AgentStart] == [AgentStart];
    Emits(base, log.Emit(AgentStart), Opened, TurnStart);
  }

  // The agent

  /** What `processEvents` keeps of a run. */
  datatype Agent = Agent(messages: seq<Message>, streaming: Option<Message>, pendingTools: set<nat>)

  function Reduce(a: Agent, e: Event): (r: Agent) {
    match e
    case MessageStart(m) => a.(streaming := Some(m))
    case MessageUpdate(m) => a.(streaming := Some(m))
    case MessageEnd(m) => a.(streaming := None, messages := a.messages + [m])
    case ToolStart(call) => a.(pendingTools := a.pendingTools + {call})
    case ToolEnd(call) => a.(pendingTools := a.pendingTools - {call})
    case AgentEnd(_) => a.(streaming := None)
    case _ => a
  }

  function ReduceAll(a: Agent, es: seq<Event>): (r: Agent) {
    if es == [] then a else Reduce(ReduceAll(a, es[..|es| - 1]), es[|es| - 1])
  }

  /** The transcript grows by exactly the messages that ended. */
  lemma {:induction false} TranscriptGrows(a: Agent, es: seq<Event>)
    ensures ReduceAll(a, es).messages == a.messages + Ended(es)
  {
    if es != [] {
      TranscriptGrows(a, es[..|es| - 1]);
    }
  }

  /** A whole run leaves no message streaming: it was whole when its stream was. */
  lemma {:induction false} StreamingInMessage(a: Agent, p: Phase, es: seq<Event>)
    requires a.streaming.Some? <==> p == InMessage
    ensures Scan(p, es) != Bad ==> (ReduceAll(a, es).streaming.Some? <==> Scan(p, es) == InMessage)
  {
    if es != [] {
      StreamingInMessage(a, p, es[..|es| - 1]);
    }
  }

  lemma {:induction false} PendingRuns(a: Agent, es: seq<Event>, call: nat)
    requires call !in a.pendingTools
    ensures StoryOf(call, es) != Confused ==> (call in ReduceAll(a, es).pendingTools <==> StoryOf(call, es) == Running)
  {
    if es != [] {
      PendingRuns(a, es[..|es| - 1], call);
    }
  }

  /** After a batch no call is pending. */
  lemma BatchLeavesNone(a: Agent, es: seq<Event>, results: seq<Message>, started: nat)
    requires Batch(es, results, started) && a.pendingTools == {}
    ensures ReduceAll(a, es).pendingTools == {}
  {
    forall call: nat
      ensures call !in ReduceAll(a, es).pendingTools
    {
      PendingRuns(a, es, call);
    }
  }

  /**
   After a run the agent's transcript is what it was with the returned messages after it: the same as the loop's context,
   and nothing streams.
   */
  lemma AgentFollows(a: Agent, log: Log, inbox: Inbox)
    requires a.streaming.None? && Complete(a.messages, log, inbox)
    ensures ReduceAll(a, log.events).messages == a.messages + log.messages == log.context
    ensures ReduceAll(a, log.events).streaming.None?
  {
    TranscriptGrows(a, log.events);
    StreamingInMessage(a, Fresh, log.events);
  }
}
