/**
 Coordinated reload of a server and its child hosts (packages/chord/src/cluster.ts, reload.ts, host.ts).

 A deadline is a step that can happen at any time, a link is a queue each way that either end may close, and a child
 installs code only through the server. `installed` and `had` are histories: the versions the server ever installed, and
 the versions a child held at some time since it connected over this link.
 */
module Clusters {
  import opened Streams

  /** What the server sends a child. `Call` is a call of a root of that version. */
  datatype Control =
    | Prepare(id: nat, version: nat)
    | Commit(id: nat)
    | Abort(id: nat)
    | Retire(upTo: nat)
    | Call(root: nat)
  {
    predicate IsOp() {
      Prepare? || Commit? || Abort?
    }
  }

  datatype Reply = Hello(version: nat) | Vote(id: nat, ok: bool)

  datatype Progress = Loading | Preparing | Prepared

  /** `ChildOperation` (cluster.ts:161-166). */
  datatype Operation = Operation(id: nat, version: nat, progress: Progress, cancelled: bool)

  /** `busy` is the host's reload slot (`host.reloading`), `allowed` its `#retireAllowed`. */
  datatype Child = Child(current: nat, previous: Option<nat>, allowed: nat, operation: Option<Operation>, busy: bool, upstream: Option<nat>)
  {
    function Retained(): set<nat> {
      {current} + if previous.Some? then {previous.value} else {}
    }

    predicate Runs(id: nat) {
      operation.Some? && operation.value.id == id
    }

    predicate ReadyFor(id: nat, version: nat) {
      operation == Some(Operation(id, version, Prepared, false))
    }

    /** `ChildReloads.handle` and `HostImpl.allowRetire` (cluster.ts:181-225, host.ts:716-720). */
    function Receive(f: Control): (c: Child) {
      match f
      case Prepare(id, version) =>
        if operation.Some? || busy then this
        else this.(operation := Some(Operation(id, version, Loading, false)), busy := true)
      case Commit(id) =>
        if Runs(id) && operation.value.progress == Prepared then
          this.(current := operation.value.version, previous := Some(current), operation := None, busy := false)
        else this
      case Abort(id) => if Runs(id) then Cancelled() else this
      case Retire(upTo) => this.(allowed := if upTo > allowed then upTo else allowed)
      case Call(_) => this
    }

    /** `#cancel`: a prepared operation ends here, its rollback still holding the slot; another unwinds when it settles. */
    function Cancelled(): (c: Child) {
      if operation.None? then this
      else if operation.value.progress == Prepared then this.(operation := None)
      else this.(operation := Some(operation.value.(cancelled := true)))
    }

    /** A `prepare` that finds another reload running is refused at once. */
    function Answer(f: Control): (r: seq<Reply>) {
      if f.Prepare? && (operation.Some? || busy) then [Vote(f.id, false)] else []
    }
  }

  function ReceiveAll(c: Child, frames: seq<Control>): (r: Child)
    decreases |frames|
  {
    if frames == [] then c else ReceiveAll(c.Receive(frames[0]), frames[1..])
  }

  datatype Seen = Unseen | Deferred | Reconciling | Synced

  /** A vote the server waits for on a link, or has. */
  datatype Round = Quiet | Asked(id: nat, version: nat) | Agreed(id: nat, version: nat)

  datatype Link = Link(child: nat, serverOpen: bool, childOpen: bool, down: seq<Control>, up: seq<Reply>,
                       seen: Seen, peer: nat, round: Round, had: set<nat>)
  {
    /** `Connection.send`: a closed link sends nothing. */
    function Send(fs: seq<Control>): (l: Link) {
      if serverOpen then this.(down := down + fs) else this
    }
  }

  /** The server's own part in a reload: `Reload.prepare`. */
  datatype Local = Running | Ready | Broken

  datatype Phase =
    | Idle
    | Beginning(version: nat, synced: set<nat>)
    | Voting(version: nat, id: nat, participants: set<nat>, failed: bool, local: Local)
    | Ending

  /** The links a running reload of the server takes part over. */
  function Members(p: Phase): set<nat> {
    if p.Beginning? then p.synced else if p.Voting? then p.participants else {}
  }

  datatype Server = Server(current: nat, previous: Option<nat>, seqNo: nat, installed: set<nat>, rounds: nat, phase: Phase)
  {
    function Retained(): set<nat> {
      {current} + if previous.Some? then {previous.value} else {}
    }

    function Oldest(): nat {
      if previous.Some? then previous.value else current
    }

    /** `announceRetired` (host.ts:737-740). */
    function Announcement(): (fs: seq<Control>) {
      if Oldest() > 1 then [Retire(Oldest() - 1)] else []
    }
  }

  datatype Cluster = Cluster(server: Server, links: seq<Link>, children: seq<Child>)

  datatype Step =
    | Spawn
    | Connect(child: nat)
    | ServerCloses(link: nat)
    | ChildCloses(link: nat)
    | HelloArrives(link: nat)
    | HelloAgain(link: nat)
    | VoteArrives(link: nat)
    | VoteMissing(link: nat)
    | Reconcile(link: nat)
    | Conclude(link: nat)
    | Begin
    | BeginFails
    | ServerRetires
    | Ask
    | LocalDone(ok: bool, loaded: bool)
    | Decide
    | EndReload
    | SendCall(link: nat, root: nat)
    | ChildReceives(link: nat)
    | ChildLoads(child: nat)
    | ChildRetires(child: nat)
    | ChildForced(child: nat)
    | ChildPrepares(child: nat)
    | ChildFails(child: nat)
    | ChildUnwinds(child: nat)

  /** A host starts in code version 1 (host.ts:319-342). */
  const Newborn: Child := Child(1, None, 0, None, false, None)

  predicate Enabled(k: Cluster, step: Step) {
    var s := k.server;
    match step
    case Spawn => true
    case Connect(c) => c < |k.children| && k.children[c].upstream == None
    case ServerCloses(i) => i < |k.links| && k.links[i].serverOpen
    case ChildCloses(i) => i < |k.links| && k.links[i].childOpen && k.links[i].child < |k.children|
    case HelloArrives(i) =>
      i < |k.links| && k.links[i].serverOpen && k.links[i].up != [] && k.links[i].up[0].Hello? && k.links[i].seen == Unseen
    case HelloAgain(i) => i < |k.links| && k.links[i].serverOpen && k.links[i].seen == Deferred && s.phase == Idle
    case VoteArrives(i) => i < |k.links| && k.links[i].serverOpen && k.links[i].up != [] && k.links[i].up[0].Vote?
    case VoteMissing(i) => i < |k.links| && k.links[i].round.Asked?
    case Reconcile(i) =>
      i < |k.links| && k.links[i].serverOpen && k.links[i].seen == Reconciling && k.links[i].round == Quiet && s.phase == Idle
    case Conclude(i) => i < |k.links| && k.links[i].seen == Reconciling && k.links[i].round.Agreed?
    case Begin => s.phase == Idle
    case BeginFails => s.phase.Beginning?
    case ServerRetires => s.previous.Some?
    case Ask => s.phase.Beginning? && s.previous == None
    case LocalDone(ok, loaded) => s.phase.Voting? && s.phase.local == Running && (ok ==> loaded)
    case Decide =>
      && s.phase.Voting? && s.phase.local != Running
      && forall i :: 0 <= i < |k.links| && i in s.phase.participants ==> !k.links[i].round.Asked?
    case EndReload => s.phase == Ending
    case SendCall(i, root) => i < |k.links| && k.links[i].serverOpen && k.links[i].seen == Synced && root in s.installed
    case ChildReceives(i) => i < |k.links| && k.links[i].childOpen && k.links[i].child < |k.children| && k.links[i].down != []
    case ChildLoads(c) => c < |k.children| && k.children[c].operation.Some? && k.children[c].operation.value.progress == Loading
      && !k.children[c].operation.value.cancelled
    case ChildRetires(c) =>
      && c < |k.children| && k.children[c].previous.Some?
      && (k.children[c].upstream == None || k.children[c].previous.value <= k.children[c].allowed)
    case ChildForced(c) =>
      c < |k.children| && k.children[c].operation.Some? && k.children[c].operation.value.progress == Preparing
    case ChildPrepares(c) =>
      && c < |k.children| && k.children[c].operation.Some? && k.children[c].operation.value.progress == Preparing
      && !k.children[c].operation.value.cancelled && k.children[c].previous == None
      && k.children[c].operation.value.version > k.children[c].current
    case ChildFails(c) =>
      c < |k.children| && k.children[c].operation.Some? && k.children[c].operation.value.progress != Prepared
    case ChildUnwinds(c) => c < |k.children| && k.children[c].operation == None
  }

  /** The server's view of a link once it knows the version the child runs (`peerHello`, host.ts:987-1018). */
  function PeerHello(s: Server, l: Link, version: nat): (r: Link)
    ensures r.child == l.child && r.childOpen == l.childOpen && r.had == l.had
  {
    if version > s.current then l.(serverOpen := false)
    else if s.phase != Idle then l.(peer := version, seen := Deferred)
    else if version == s.current then l.(peer := version, seen := Synced).Send(s.Announcement())
    else l.(peer := version, seen := Reconciling)
  }

  /** A vote that failed, or never came: a reconciliation closes its link, a cluster reload fails as a whole. */
  function Unvoted(l: Link): (r: Link)
    ensures r.child == l.child && r.childOpen == l.childOpen && r.had == l.had
  {
    if l.seen == Reconciling then l.(round := Quiet, serverOpen := false) else l.(round := Quiet)
  }

  function Failing(s: Server, l: Link): (r: Server) {
    if s.phase.Voting? && l.seen == Synced then s.(phase := s.phase.(failed := true)) else s
  }

  function SetLink(k: Cluster, i: nat, l: Link): (r: Cluster)
    requires i < |k.links|
  {
    k.(links := k.links[i := l])
  }

  function SetChild(k: Cluster, c: nat, child: Child): (r: Cluster)
    requires c < |k.children|
  {
    k.(children := k.children[c := child])
  }

  /** A child answers on its upstream link. */
  function Reported(k: Cluster, c: nat, child: Child, replies: seq<Reply>): (r: Cluster)
    requires c < |k.children|
  {
    var up := k.children[c].upstream;
    if up.Some? && up.value < |k.links| then
      SetChild(SetLink(k, up.value, k.links[up.value].(up := k.links[up.value].up + replies)), c, child)
    else SetChild(k, c, child)
  }

  function Everywhere(links: seq<Link>, f: (nat, Link) -> Link): (r: seq<Link>)
    ensures |r| == |links| && forall i :: 0 <= i < |r| ==> r[i] == f(i, links[i])
  {
    seq(|links|, i requires 0 <= i < |links| => f(i, links[i]))
  }

  /** What each step of `runClusterReload` does to a link of the server. */
  function Asks(participants: set<nat>, id: nat, version: nat): (nat, Link) -> Link {
    (i: nat, l: Link) => if i in participants then l.Send([Prepare(id, version)]).(round := Asked(id, version)) else l
  }

  function Aborts(participants: set<nat>, id: nat): (nat, Link) -> Link {
    (i: nat, l: Link) => if i in participants then l.Send([Abort(id)]).(round := Quiet) else l
  }

  function Commits(participants: set<nat>, id: nat, version: nat): (nat, Link) -> Link {
    (i: nat, l: Link) => if i in participants then l.Send([Commit(id)]).(round := Quiet, peer := version) else l
  }

  function Retires(version: nat): (nat, Link) -> Link {
    (i: nat, l: Link) => l.Send([Retire(version)])
  }

  function Decided(k: Cluster): (r: Cluster)
    requires k.server.phase.Voting?
    ensures r.children == k.children && |r.links| == |k.links|
    ensures forall i :: 0 <= i < |k.links| ==>
              r.links[i].child == k.links[i].child && r.links[i].childOpen == k.links[i].childOpen && r.links[i].had == k.links[i].had
  {
    var s, p := k.server, k.server.phase;
    if p.failed || p.local == Broken then
      Cluster(s.(phase := Ending), Everywhere(k.links, Aborts(p.participants, p.id)), k.children)
    else
      Cluster(s.(current := p.version, previous := Some(s.current), installed := s.installed + {p.version}, phase := Ending),
              Everywhere(k.links, Commits(p.participants, p.id, p.version)), k.children)
  }

  /** One turn of the loop of `reconcileChild` (cluster.ts:124-148). */
  function Reconciled(s: Server, l: Link): (r: (Server, Link))
    ensures r.1.child == l.child && r.1.childOpen == l.childOpen && r.1.had == l.had
  {
    if l.peer == s.current then (s, l.(seen := Synced).Send(s.Announcement()))
    else (s.(rounds := s.rounds + 1),
          l.Send(s.Announcement() + [Prepare(s.rounds + 1, s.current)]).(round := Asked(s.rounds + 1, s.current)))
  }

  /** After the vote (cluster.ts:149-157). */
  function Concluded(s: Server, l: Link): (r: Link)
    requires l.round.Agreed?
    ensures r.child == l.child && r.childOpen == l.childOpen && r.had == l.had
  {
    if l.round.version != s.current then l.Send([Abort(l.round.id)]).(round := Quiet)
    else l.Send([Commit(l.round.id)]).(round := Quiet, peer := l.round.version)
  }

  function Next(k: Cluster, step: Step): (r: Cluster)
    requires Enabled(k, step)
  {
    var s := k.server;
    match step
    case Spawn => k.(children := k.children + [Newborn])
    case Connect(c) =>
      var child := k.children[c];
      SetChild(k.(links := k.links + [Link(c, true, true, [], [Hello(child.current)], Unseen, 0, Quiet, child.Retained())]),
               c, child.(upstream := Some(|k.links|)))
    case ServerCloses(i) =>
      var l := k.links[i];
      if l.round.Asked? then SetLink(k.(server := Failing(s, l)), i, Unvoted(l).(serverOpen := false))
      else SetLink(k, i, l.(serverOpen := false))
    case ChildCloses(i) =>
      SetChild(SetLink(k, i, k.links[i].(childOpen := false)), k.links[i].child,
               k.children[k.links[i].child].Cancelled().(upstream := None))
    case HelloArrives(i) => SetLink(k, i, PeerHello(s, k.links[i].(up := k.links[i].up[1..]), k.links[i].up[0].version))
    case HelloAgain(i) => SetLink(k, i, PeerHello(s, k.links[i], k.links[i].peer))
    case VoteArrives(i) =>
      var l := k.links[i].(up := k.links[i].up[1..]);
      var vote := k.links[i].up[0];
      if !l.round.Asked? || l.round.id != vote.id then SetLink(k, i, l)
      else if vote.ok then SetLink(k, i, l.(round := Agreed(l.round.id, l.round.version)))
      else SetLink(k.(server := Failing(s, l)), i, Unvoted(l))
    case VoteMissing(i) => SetLink(k.(server := Failing(s, k.links[i])), i, Unvoted(k.links[i]))
    case Reconcile(i) => var (s', l) := Reconciled(s, k.links[i]); SetLink(k.(server := s'), i, l)
    case Conclude(i) => SetLink(k, i, Concluded(s, k.links[i]))
    case Begin =>
      k.(server := s.(phase := Beginning(s.seqNo + 1, set i | 0 <= i < |k.links| && k.links[i].serverOpen && k.links[i].seen == Synced)))
    case BeginFails => k.(server := s.(phase := Ending))
    case ServerRetires => Cluster(s.(previous := None), Everywhere(k.links, Retires(s.previous.value)), k.children)
    case Ask =>
      var id, version := s.rounds + 1, s.phase.version;
      var participants := set i | i in s.phase.synced && i < |k.links| && k.links[i].serverOpen;
      Cluster(s.(rounds := id, phase := Voting(version, id, participants, false, Running)),
              Everywhere(k.links, Asks(participants, id, version)), k.children)
    case LocalDone(ok, loaded) =>
      k.(server := s.(seqNo := if loaded then s.phase.version else s.seqNo, phase := s.phase.(local := if ok then Ready else Broken)))
    case Decide => Decided(k)
    case EndReload => k.(server := s.(phase := Idle))
    case SendCall(i, root) => SetLink(k, i, k.links[i].Send([Call(root)]))
    case ChildReceives(i) => Received(k, i)
    case ChildLoads(c) =>
      SetChild(k, c, k.children[c].(operation := Some(k.children[c].operation.value.(progress := Preparing))))
    case ChildRetires(c) => SetChild(k, c, k.children[c].(previous := None))
    case ChildForced(c) => SetChild(k, c, k.children[c].(previous := None))
    case ChildPrepares(c) =>
      var op := k.children[c].operation.value;
      Reported(k, c, k.children[c].(operation := Some(op.(progress := Prepared))), [Vote(op.id, true)])
    case ChildFails(c) =>
      var op := k.children[c].operation.value;
      Reported(k, c, k.children[c].(operation := None, busy := false), if op.cancelled then [] else [Vote(op.id, false)])
    case ChildUnwinds(c) => SetChild(k, c, k.children[c].(busy := false))
  }

  /** The child takes the next frame of its link. */
  function Received(k: Cluster, i: nat): (r: Cluster)
    requires i < |k.links| && k.links[i].child < |k.children| && k.links[i].down != []
  {
    var l := k.links[i];
    var c := k.children[l.child];
    var f := l.down[0];
    SetChild(SetLink(k, i, l.(down := l.down[1..], up := l.up + c.Answer(f), had := l.had + c.Receive(f).Retained())),
             l.child, c.Receive(f))
  }

  // What is on a link

  function LastOp(d: seq<Control>): (r: Option<Control>) {
    if d == [] then None
    else if LastOp(d[1..]).Some? then LastOp(d[1..])
    else if d[0].IsOp() then Some(d[0]) else None
  }

  function CommitOf(d: seq<Control>): (r: Option<nat>) {
    if d == [] then None else if d[0].Commit? then Some(d[0].id) else CommitOf(d[1..])
  }

  /** At most one commit is on the way, ahead of every other operation frame. */
  predicate CommitFirst(d: seq<Control>) {
    d == [] || if d[0].IsOp() then CommitOf(d[1..]) == None else CommitFirst(d[1..])
  }

  predicate IdsUpTo(d: seq<Control>, id: nat) {
    d == [] || ((d[0].IsOp() ==> d[0].id <= id) && IdsUpTo(d[1..], id))
  }

  /** Each `prepare` on the way has a number above `low` and above those before it. */
  predicate Ascending(low: int, d: seq<Control>)
    decreases |d|
  {
    d == [] || if d[0].Prepare? then d[0].id > low && Ascending(d[0].id, d[1..]) else Ascending(low, d[1..])
  }

  /** The version a child runs after these frames, `target` being the version of its operation. */
  function Upcoming(current: nat, target: nat, d: seq<Control>): (r: nat)
    decreases |d|
  {
    if d == [] then current else Upcoming(if d[0].Commit? then target else current, target, d[1..])
  }

  /**
   What the frames on a link may rely on, in the order the child takes them: a `prepare` finds the child's previous
   version dropped by the server, a `retire` names dropped versions only, a call finds its version installed.
   */
  predicate Flow(oldest: nat, current: nat, previous: Option<nat>, target: nat, d: seq<Control>)
    decreases |d|
  {
    d == [] ||
    match d[0]
    case Prepare(_, _) => (previous.Some? ==> previous.value < oldest) && Flow(oldest, current, previous, target, d[1..])
    case Commit(_) => Flow(oldest, target, Some(current), target, d[1..])
    case Abort(_) => Flow(oldest, current, previous, target, d[1..])
    case Retire(upTo) => upTo < oldest && Flow(oldest, current, previous, target, d[1..])
    case Call(root) => root <= current && Flow(oldest, current, previous, target, d[1..])
  }

  predicate NoVote(up: seq<Reply>, id: nat) {
    forall j :: 0 <= j < |up| ==> up[j].Vote? ==> up[j].id != id
  }

  predicate Votes(up: seq<Reply>, id: nat, ok: bool) {
    forall j :: 0 <= j < |up| ==> up[j].Vote? && up[j].id == id ==> up[j].ok == ok
  }

  function Target(c: Child): nat {
    if c.operation.Some? then c.operation.value.version else 0
  }

  // The invariant

  predicate ServerOk(s: Server) {
    && 1 in s.installed && s.current in s.installed && s.current <= s.seqNo
    && (forall v :: v in s.installed ==> 1 <= v <= s.current && (s.previous.Some? && v != s.current ==> v <= s.previous.value))
    && (s.previous.Some? ==> s.previous.value in s.installed && s.previous.value < s.current)
    && (s.phase.Beginning? ==> s.phase.version > s.current)
    && (s.phase.Voting? ==> s.phase.version > s.current && s.previous == None && s.phase.id <= s.rounds
                             && (s.phase.local == Ready ==> s.phase.version <= s.seqNo))
  }

  predicate ChildOk(s: Server, c: Child) {
    && c.Retained() <= s.installed && c.allowed < s.Oldest()
    && (c.previous.Some? ==> c.previous.value < c.current)
    && (c.operation.Some? ==>
          && c.busy && c.operation.value.id <= s.rounds
          && (c.previous.Some? ==> c.previous.value < s.Oldest())
          && (!c.operation.value.cancelled ==> c.upstream.Some?)
          && (c.operation.value.progress == Prepared ==>
                c.previous == None && !c.operation.value.cancelled && c.operation.value.version > c.current))
  }

  /** What holds while the child's end is open: it may still take what is on the link. */
  predicate Delivers(s: Server, l: Link, c: Child) {
    && CommitFirst(l.down) && IdsUpTo(l.down, s.rounds) && Ascending(-1, l.down)
    && (CommitOf(l.down).Some? ==>
          c.operation.Some? && c.ReadyFor(CommitOf(l.down).value, Target(c)) && Target(c) in s.installed)
    && Flow(s.Oldest(), c.current, c.previous, Target(c), l.down)
    && c.Retained() <= l.had <= s.installed && l.had * s.Retained() <= c.Retained()
  }

  /** Where an unanswered `prepare` is: on its way, being worked on, or answered with the vote on its way. */
  predicate Token(id: nat, version: nat, l: Link, c: Child) {
    || (LastOp(l.down) == Some(Prepare(id, version)) && !c.Runs(id) && NoVote(l.up, id))
    || (&& LastOp(l.down) == None && c.Runs(id) && !c.operation.value.cancelled && c.operation.value.version == version
        && if c.operation.value.progress == Prepared then Votes(l.up, id, true) else NoVote(l.up, id))
    || (LastOp(l.down) == None && !c.Runs(id) && Votes(l.up, id, false))
  }

  predicate Greeted(l: Link, c: Child) {
    if l.seen == Unseen then
      && l.up == [Hello(c.current)] && LastOp(l.down) == None
      && (c.operation.Some? ==> c.operation.value.cancelled)
    else
      && (forall j :: 0 <= j < |l.up| ==> l.up[j].Vote?)
      && l.peer == Upcoming(c.current, Target(c), l.down)
  }

  /** What the server knows of a child whose link is open at both ends. */
  predicate Agrees(s: Server, i: nat, l: Link, c: Child) {
    && Greeted(l, c)
    && (forall j :: 0 <= j < |l.up| && l.up[j].Vote? ==> l.up[j].id <= s.rounds)
    && (l.seen == Synced ==> l.peer == s.current)
    && (l.round.Asked? ==> l.round.id <= s.rounds && Token(l.round.id, l.round.version, l, c))
    && (l.round.Agreed? ==> LastOp(l.down) == None && c.ReadyFor(l.round.id, l.round.version))
    && Rounds(s, i, l)
  }

  predicate Rounds(s: Server, i: nat, l: Link) {
    && (l.seen == Synced ==>
          && (s.phase.Beginning? ==> i in s.phase.synced)
          && (!s.phase.Voting? ==> l.round == Quiet)
          && (s.phase.Voting? ==>
                && i in s.phase.participants
                && (if l.round.Quiet? then s.phase.failed else l.round.id == s.phase.id && l.round.version == s.phase.version)))
    && (i in Members(s.phase) ==> l.seen == Synced)
    && (l.seen == Unseen || l.seen == Deferred ==> l.round == Quiet)
    && (l.seen == Reconciling && !l.round.Quiet? ==> l.round.version in s.installed)
  }

  predicate LinkOk(s: Server, i: nat, l: Link, c: Child) {
    && (l.childOpen ==> Delivers(s, l, c))
    && (l.childOpen && l.serverOpen ==> Agrees(s, i, l, c))
  }

  predicate Wired(k: Cluster) {
    && (forall i :: i in Members(k.server.phase) ==> i < |k.links|)
    && (forall c :: 0 <= c < |k.children| && k.children[c].upstream.Some? ==>
          var i := k.children[c].upstream.value; i < |k.links| && k.links[i].child == c && k.links[i].childOpen)
    && (forall i :: 0 <= i < |k.links| ==>
          k.links[i].child < |k.children| && (k.links[i].childOpen ==> k.children[k.links[i].child].upstream == Some(i)))
  }

  predicate ChildrenOk(s: Server, children: seq<Child>) {
    forall c :: 0 <= c < |children| ==> ChildOk(s, children[c])
  }

  predicate LinksOk(k: Cluster)
    requires Wired(k)
  {
    forall i :: 0 <= i < |k.links| ==> LinkOk(k.server, i, k.links[i], k.children[k.links[i].child])
  }

  predicate Inv(k: Cluster) {
    Wired(k) && ServerOk(k.server) && ChildrenOk(k.server, k.children) && LinksOk(k)
  }

  predicate Init(k: Cluster) {
    k == Cluster(Server(1, None, 1, {1}, 0, Idle), [], [])
  }

  // Queues

  lemma {:induction false} Appended(d: seq<Control>, f: Control, current: nat, target: nat)
    ensures LastOp(d + [f]) == if f.IsOp() then Some(f) else LastOp(d)
    ensures CommitOf(d + [f]) == if CommitOf(d) == None && f.Commit? then Some(f.id) else CommitOf(d)
    ensures CommitFirst(d + [f]) == (CommitFirst(d) && (f.Commit? ==> LastOp(d) == None))
    ensures Upcoming(current, target, d + [f]) == if f.Commit? then target else Upcoming(current, target, d)
  {
    if d != [] {
      assert (d + [f])[1..] == d[1..] + [f];
      Appended(d[1..], f, if d[0].Commit? then target else current, target);
      if LastOp(d[1..]) == None {
        NoOp(d[1..], current, target);
      }
    }
  }

  lemma {:induction false} NoOp(d: seq<Control>, current: nat, target: nat)
    requires LastOp(d) == None
    ensures CommitOf(d) == None && CommitFirst(d) && Upcoming(current, target, d) == current
  {
    if d != [] {
      NoOp(d[1..], current, target);
    }
  }

  lemma {:induction false} AppendedIds(d: seq<Control>, f: Control, id: nat, id': nat)
    requires IdsUpTo(d, id) && id <= id' && (f.IsOp() ==> f.id <= id')
    ensures IdsUpTo(d, id') && IdsUpTo(d + [f], id')
  {
    if d != [] {
      assert (d + [f])[1..] == d[1..] + [f];
      AppendedIds(d[1..], f, id, id');
    }
  }

  lemma {:induction false} AppendedAscending(low: int, d: seq<Control>, f: Control)
    requires Ascending(low, d) && (f.Prepare? ==> low < f.id && f.id > 0 && IdsUpTo(d, f.id - 1))
    ensures Ascending(low, d + [f])
    decreases |d|
  {
    if d != [] {
      assert (d + [f])[1..] == d[1..] + [f];
      AppendedAscending(if d[0].Prepare? then d[0].id else low, d[1..], f);
    }
  }

  lemma {:induction false} LastAscends(low: int, d: seq<Control>)
    requires Ascending(low, d) && LastOp(d).Some? && LastOp(d).value.Prepare?
    ensures LastOp(d).value.id > low
    decreases |d|
  {
    if LastOp(d[1..]).Some? {
      LastAscends(if d[0].Prepare? then d[0].id else low, d[1..]);
    }
  }

  lemma {:induction false} AscendsBelow(low: int, low': int, d: seq<Control>)
    requires Ascending(low, d) && low' <= low
    ensures Ascending(low', d)
    decreases |d|
  {
    if d != [] && !d[0].Prepare? {
      AscendsBelow(low, low', d[1..]);
    }
  }

  /** The previous version a child will have after these frames. */
  function Behind(current: nat, previous: Option<nat>, target: nat, d: seq<Control>): (r: Option<nat>)
    decreases |d|
  {
    if d == [] then previous
    else if d[0].Commit? then Behind(target, Some(current), target, d[1..]) else Behind(current, previous, target, d[1..])
  }

  lemma {:induction false} AppendedFlow(oldest: nat, current: nat, previous: Option<nat>, target: nat, d: seq<Control>, f: Control)
    requires Flow(oldest, current, previous, target, d)
    requires f.Prepare? ==> var p := Behind(current, previous, target, d); p.Some? ==> p.value < oldest
    requires f.Retire? ==> f.upTo < oldest
    requires f.Call? ==> f.root <= Upcoming(current, target, d)
    ensures Flow(oldest, current, previous, target, d + [f])
    decreases |d|
  {
    if d != [] {
      assert (d + [f])[1..] == d[1..] + [f];
      if d[0].Commit? {
        AppendedFlow(oldest, target, Some(current), target, d[1..], f);
      } else {
        AppendedFlow(oldest, current, previous, target, d[1..], f);
      }
    }
  }

  /** The server only drops more, a child only loses its previous version, and a new operation needs no commit here. */
  lemma {:induction false} FlowKept(o: nat, o': nat, current: nat, p: Option<nat>, p': Option<nat>, t: nat, t': nat, d: seq<Control>)
    requires Flow(o, current, p, t, d) && o <= o' && (p' == p || p' == None)
    requires t == t' || CommitOf(d) == None
    ensures Flow(o', current, p', t', d)
    decreases |d|
  {
    if d != [] {
      if d[0].Commit? {
        FlowKept(o, o', t, Some(current), Some(current), t, t', d[1..]);
      } else {
        FlowKept(o, o', current, p, p', t, t', d[1..]);
      }
    }
  }

  lemma {:induction false} NoCommit(current: nat, previous: Option<nat>, t: nat, d: seq<Control>)
    requires CommitOf(d) == None
    ensures CommitFirst(d) && Upcoming(current, t, d) == current && Behind(current, previous, t, d) == previous
    decreases |d|
  {
    if d != [] {
      NoCommit(current, previous, t, d[1..]);
    }
  }

  /** With a commit on its way a child ends in its version, with the version it runs now as the previous one. */
  lemma {:induction false} OneCommit(current: nat, previous: Option<nat>, t: nat, d: seq<Control>)
    requires CommitOf(d).Some? && CommitFirst(d)
    ensures Upcoming(current, t, d) == t && Behind(current, previous, t, d) == Some(current)
    decreases |d|
  {
    if d[0].Commit? {
      NoCommit(t, Some(current), t, d[1..]);
    } else {
      OneCommit(current, previous, t, d[1..]);
    }
  }

  /** Taking the frames of an open link in order ends in the version `Upcoming` says. */
  lemma {:induction false} Reaches(c: Child, d: seq<Control>)
    requires CommitFirst(d)
    requires CommitOf(d).Some? ==> c.operation.Some? && c.ReadyFor(CommitOf(d).value, Target(c))
    ensures ReceiveAll(c, d).current == Upcoming(c.current, Target(c), d)
    decreases |d|
  {
    if d != [] {
      if CommitOf(d[1..]) == None {
        NoCommit(c.Receive(d[0]).current, None, Target(c.Receive(d[0])), d[1..]);
        NoCommit(c.Receive(d[0]).current, None, Target(c), d[1..]);
        Stays(c.Receive(d[0]), d[1..]);
      } else {
        Reaches(c.Receive(d[0]), d[1..]);
      }
    }
  }

  lemma {:induction false} Stays(c: Child, d: seq<Control>)
    requires CommitOf(d) == None
    ensures ReceiveAll(c, d).current == c.current
    decreases |d|
  {
    if d != [] {
      Stays(c.Receive(d[0]), d[1..]);
    }
  }

  // One step keeps the invariant

  /** The server only moves forward: it drops versions, installs newer ones, and numbers its rounds upwards. */
  predicate Grows(s: Server, t: Server) {
    && s.installed <= t.installed && s.Oldest() <= t.Oldest() && s.rounds <= t.rounds
    && t.Retained() * s.installed <= s.Retained()
  }

  lemma {:induction false} IdsGrow(d: seq<Control>, id: nat, id': nat)
    requires IdsUpTo(d, id) && id <= id'
    ensures IdsUpTo(d, id')
  {
    if d != [] {
      IdsGrow(d[1..], id, id');
    }
  }

  lemma DeliversGrow(s: Server, t: Server, l: Link, c: Child)
    requires Delivers(s, l, c) && Grows(s, t)
    ensures Delivers(t, l, c)
  {
    IdsGrow(l.down, s.rounds, t.rounds);
    FlowKept(s.Oldest(), t.Oldest(), c.current, c.previous, c.previous, Target(c), Target(c), l.down);
  }

  lemma ChildrenGrow(s: Server, t: Server, children: seq<Child>)
    requires ChildrenOk(s, children) && Grows(s, t)
    ensures ChildrenOk(t, children)
  {
    forall c | 0 <= c < |children|
      ensures ChildOk(t, children[c])
    {
      assert ChildOk(s, children[c]);
    }
  }

  /** A frame the server may put on an open link. */
  predicate MaySend(s: Server, l: Link, c: Child, f: Control) {
    match f
    case Prepare(id, _) =>
      && id == s.rounds > 0 && IdsUpTo(l.down, s.rounds - 1)
      && var p := Behind(c.current, c.previous, Target(c), l.down); p.Some? ==> p.value < s.Oldest()
    case Commit(id) => id <= s.rounds && LastOp(l.down) == None && c.ReadyFor(id, Target(c)) && Target(c) in s.installed
    case Abort(id) => id <= s.rounds
    case Retire(upTo) => upTo < s.Oldest()
    case Call(root) => root <= Upcoming(c.current, Target(c), l.down)
  }

  lemma Sends(s: Server, l: Link, c: Child, f: Control)
    requires Delivers(s, l, c) && MaySend(s, l, c, f)
    ensures Delivers(s, l.Send([f]), c)
    ensures var d := l.Send([f]).down;
            l.serverOpen ==>
              && LastOp(d) == (if f.IsOp() then Some(f) else LastOp(l.down))
              && Upcoming(c.current, Target(c), d) == (if f.Commit? then Target(c) else Upcoming(c.current, Target(c), l.down))
  {
    Appended(l.down, f, c.current, Target(c));
    AppendedIds(l.down, f, s.rounds, s.rounds);
    AppendedAscending(-1, l.down, f);
    AppendedFlow(s.Oldest(), c.current, c.previous, Target(c), l.down, f);
    if f.Commit? {
      NoOp(l.down, c.current, Target(c));
    }
  }

  /** A frame that starts or ends no operation changes nothing the server knows. */
  lemma SendsPlain(s: Server, i: nat, l: Link, c: Child, f: Control)
    requires LinkOk(s, i, l, c) && (l.childOpen ==> MaySend(s, l, c, f)) && !f.IsOp()
    ensures LinkOk(s, i, l.Send([f]), c)
  {
    if l.childOpen {
      Sends(s, l, c, f);
    }
  }

  /** A step that touches one link, and of the server only its counters or a failed vote. */
  predicate Steady(s: Server, t: Server) {
    && ServerOk(t) && Grows(s, t) && s.current == t.current
    && (t.phase == s.phase || (s.phase.Voting? && t.phase == s.phase.(failed := true)))
  }

  lemma OneLink(k: Cluster, t: Server, i: nat, l: Link)
    requires Inv(k) && Steady(k.server, t) && i < |k.links|
    requires l.child == k.links[i].child && l.childOpen == k.links[i].childOpen
    requires LinkOk(t, i, l, k.children[l.child])
    ensures Inv(SetLink(k.(server := t), i, l))
  {
    var k' := SetLink(k.(server := t), i, l);
    ChildrenGrow(k.server, t, k.children);
    forall j | 0 <= j < |k'.links|
      ensures LinkOk(t, j, k'.links[j], k'.children[k'.links[j].child])
    {
      hide LinkOk;
      if j != i {
        SteadyLink(k.server, t, j, k.links[j], k.children[k.links[j].child]);
      }
    }
    hide LinkOk, ChildrenOk, ServerOk;
    assert Members(t.phase) == Members(k.server.phase);
  }

  lemma SteadyLink(s: Server, t: Server, i: nat, l: Link, c: Child)
    requires LinkOk(s, i, l, c) && Steady(s, t)
    ensures LinkOk(t, i, l, c)
  {
    if l.childOpen {
      DeliversGrow(s, t, l, c);
    }
  }

  /** A step of a child, with the link it is connected over. */
  lemma OneChild(k: Cluster, c: nat, child: Child, l: Link)
    requires Inv(k) && c < |k.children|
    requires k.children[c].upstream.Some? && child.upstream == k.children[c].upstream
    requires var i := k.children[c].upstream.value;
             && l.child == c && l.childOpen
             && LinkOk(k.server, i, l, child)
    requires ChildOk(k.server, child)
    ensures Inv(SetChild(SetLink(k, k.children[c].upstream.value, l), c, child))
  {
    hide Delivers, Agrees, ChildOk, ServerOk;
  }

  lemma LoneChild(k: Cluster, c: nat, child: Child)
    requires Inv(k) && c < |k.children|
    requires k.children[c].upstream == child.upstream == None
    requires ChildOk(k.server, child)
    ensures Inv(SetChild(k, c, child))
  {
    hide Delivers, Agrees, ChildOk, ServerOk;
  }

  lemma SpawnKept(k: Cluster)
    requires Inv(k)
    ensures Inv(Next(k, Spawn))
  {
    var k' := Next(k, Spawn);
    assert forall v :: v in k.server.installed ==> 1 <= v;
    forall i | 0 <= i < |k'.links|
      ensures LinkOk(k'.server, i, k'.links[i], k'.children[k'.links[i].child])
    {
      assert LinkOk(k.server, i, k.links[i], k.children[k.links[i].child]);
    }
  }

  lemma NewLink(s: Server, i: nat, l: Link, c: Child)
    requires ServerOk(s) && ChildOk(s, c.(upstream := None)) && i !in Members(s.phase)
    requires l == Link(l.child, true, true, [], [Hello(c.current)], Unseen, 0, Quiet, c.Retained())
    ensures LinkOk(s, i, l, c)
  {
  }

  lemma ConnectKept(k: Cluster, c: nat)
    requires Inv(k) && Enabled(k, Connect(c))
    ensures Inv(Next(k, Connect(c)))
  {
    var k' := Next(k, Connect(c));
    assert ChildOk(k.server, k.children[c]);
    NewLink(k.server, |k.links|, k'.links[|k.links|], k'.children[c]);
    ConnectWired(k, c);
    forall i | 0 <= i < |k.links|
      ensures LinkOk(k'.server, i, k'.links[i], k'.children[k'.links[i].child])
    {
      hide Delivers, Agrees, ServerOk, ChildrenOk;
      assert LinkOk(k.server, i, k.links[i], k.children[k.links[i].child]);
    }
    hide LinkOk, ServerOk, Wired;
  }

  lemma ConnectWired(k: Cluster, c: nat)
    requires Wired(k) && Enabled(k, Connect(c))
    ensures Wired(Next(k, Connect(c)))
  {
  }

  lemma ServerClosesKept(k: Cluster, i: nat)
    requires Inv(k) && Enabled(k, ServerCloses(i))
    ensures Inv(Next(k, ServerCloses(i)))
  {
    var l := k.links[i];
    assert LinkOk(k.server, i, l, k.children[l.child]);
    if l.round.Asked? {
      OneLink(k, Failing(k.server, l), i, Unvoted(l).(serverOpen := false));
    } else {
      OneLink(k, k.server, i, l.(serverOpen := false));
    }
  }

  lemma ChildClosesKept(k: Cluster, i: nat)
    requires Inv(k) && Enabled(k, ChildCloses(i))
    ensures Inv(Next(k, ChildCloses(i)))
  {
    assert ChildOk(k.server, k.children[k.links[i].child]);
  }

  lemma SendsAnnouncement(s: Server, l: Link, c: Child)
    requires l.childOpen ==> Delivers(s, l, c)
    ensures var m := l.Send(s.Announcement());
            && m == l.(down := m.down)
            && (l.childOpen ==>
                  Delivers(s, m, c) && LastOp(m.down) == LastOp(l.down)
                  && Upcoming(c.current, Target(c), m.down) == Upcoming(c.current, Target(c), l.down))
  {
    if s.Oldest() <= 1 {
      assert l.down + [] == l.down;
    } else if l.childOpen && l.serverOpen {
      Sends(s, l, c, Retire(s.Oldest() - 1));
    }
  }

  lemma PeerHelloKept(s: Server, i: nat, l: Link, c: Child, version: nat)
    requires ServerOk(s)
    requires l.childOpen ==> Delivers(s, l, c)
    requires l.serverOpen
    requires l.childOpen ==>
               && (forall j :: 0 <= j < |l.up| ==> l.up[j].Vote? && l.up[j].id <= s.rounds)
               && version == Upcoming(c.current, Target(c), l.down) && l.round == Quiet && i !in Members(s.phase)
    ensures LinkOk(s, i, PeerHello(s, l, version), c)
  {
    if version == s.current && s.phase == Idle {
      SendsAnnouncement(s, l.(peer := version, seen := Synced), c);
    }
  }

  lemma HelloKept(k: Cluster, i: nat)
    requires Inv(k) && Enabled(k, HelloArrives(i))
    ensures Inv(Next(k, HelloArrives(i)))
  {
    var l := k.links[i];
    var c := k.children[l.child];
    assert LinkOk(k.server, i, l, c);
    if l.childOpen {
      NoOp(l.down, c.current, Target(c));
    }
    PeerHelloKept(k.server, i, l.(up := l.up[1..]), c, l.up[0].version);
    OneLink(k, k.server, i, PeerHello(k.server, l.(up := l.up[1..]), l.up[0].version));
  }

  lemma HelloAgainKept(k: Cluster, i: nat)
    requires Inv(k) && Enabled(k, HelloAgain(i))
    ensures Inv(Next(k, HelloAgain(i)))
  {
    var l := k.links[i];
    assert LinkOk(k.server, i, l, k.children[l.child]);
    PeerHelloKept(k.server, i, l, k.children[l.child], l.peer);
    OneLink(k, k.server, i, PeerHello(k.server, l, l.peer));
  }

  lemma VoteKept(k: Cluster, i: nat)
    requires Inv(k) && Enabled(k, VoteArrives(i))
    ensures Inv(Next(k, VoteArrives(i)))
  {
    var was := k.links[i];
    var c := k.children[was.child];
    var l, vote := was.(up := was.up[1..]), was.up[0];
    assert LinkOk(k.server, i, was, c);
    if !l.round.Asked? || l.round.id != vote.id {
      OneLink(k, k.server, i, l);
    } else if vote.ok {
      OneLink(k, k.server, i, l.(round := Agreed(l.round.id, l.round.version)));
    } else {
      OneLink(k, Failing(k.server, l), i, Unvoted(l));
    }
  }

  lemma VoteMissingKept(k: Cluster, i: nat)
    requires Inv(k) && Enabled(k, VoteMissing(i))
    ensures Inv(Next(k, VoteMissing(i)))
  {
    var l := k.links[i];
    assert LinkOk(k.server, i, l, k.children[l.child]);
    OneLink(k, Failing(k.server, l), i, Unvoted(l));
  }

  lemma ReconcileKept(k: Cluster, i: nat)
    requires Inv(k) && Enabled(k, Reconcile(i))
    ensures Inv(Next(k, Reconcile(i)))
  {
    var l := k.links[i];
    var c := k.children[l.child];
    var s := k.server;
    var (t, m) := Reconciled(s, l);
    assert LinkOk(s, i, l, c);
    if l.peer == s.current {
      SendsAnnouncement(s, l.(seen := Synced), c);
    } else if l.childOpen {
      ReconcileAsks(s, i, l, c);
    }
    OneLink(k, t, i, m);
  }

  lemma ReconcileAsks(s: Server, i: nat, l: Link, c: Child)
    requires ServerOk(s) && ChildOk(s, c) && LinkOk(s, i, l, c)
    requires l.childOpen && l.serverOpen && l.seen == Reconciling && l.round == Quiet && l.peer != s.current
    ensures var (t, m) := Reconciled(s, l); LinkOk(t, i, m, c)
  {
    var (t, m) := Reconciled(s, l);
    SendsAnnouncement(s, l, c);
    var a := l.Send(s.Announcement());
    DeliversGrow(s, t, a, c);
    if CommitOf(a.down).Some? {
      OneCommit(c.current, c.previous, Target(c), a.down);
    } else {
      NoCommit(c.current, c.previous, Target(c), a.down);
    }
    var f := Prepare(t.rounds, s.current);
    Sends(t, a, c, f);
    assert l.down + (s.Announcement() + [f]) == a.down + [f];
  }

  lemma ConcludeKept(k: Cluster, i: nat)
    requires Inv(k) && Enabled(k, Conclude(i))
    ensures Inv(Next(k, Conclude(i)))
  {
    var l := k.links[i];
    var c := k.children[l.child];
    assert LinkOk(k.server, i, l, c);
    if l.childOpen && l.serverOpen {
      Sends(k.server, l, c, if l.round.version != k.server.current then Abort(l.round.id) else Commit(l.round.id));
    }
    OneLink(k, k.server, i, Concluded(k.server, l));
  }

  lemma CallKept(k: Cluster, i: nat, root: nat)
    requires Inv(k) && Enabled(k, SendCall(i, root))
    ensures Inv(Next(k, SendCall(i, root)))
  {
    var l := k.links[i];
    assert LinkOk(k.server, i, l, k.children[l.child]);
    SendsPlain(k.server, i, l, k.children[l.child], Call(root));
    OneLink(k, k.server, i, l.Send([Call(root)]));
  }

  /** A step of the server that touches every link. */
  lemma AllLinks(k: Cluster, t: Server, f: (nat, Link) -> Link)
    requires Inv(k) && ServerOk(t) && Grows(k.server, t) && Members(t.phase) <= Members(k.server.phase)
    requires forall i :: 0 <= i < |k.links| ==>
               && f(i, k.links[i]).child == k.links[i].child && f(i, k.links[i]).childOpen == k.links[i].childOpen
               && LinkOk(t, i, f(i, k.links[i]), k.children[k.links[i].child])
    ensures Inv(Cluster(t, Everywhere(k.links, f), k.children))
  {
    ChildrenGrow(k.server, t, k.children);
  }

  lemma PhaseKept(k: Cluster, t: Server)
    requires Inv(k) && ServerOk(t) && t == k.server.(seqNo := t.seqNo, phase := t.phase)
    requires forall i :: i in Members(t.phase) ==> i < |k.links|
    requires forall i :: 0 <= i < |k.links| && k.links[i].childOpen && k.links[i].serverOpen ==>
               (Rounds(k.server, i, k.links[i]) ==> Rounds(t, i, k.links[i]))
    ensures Inv(k.(server := t))
  {
    ChildrenGrow(k.server, t, k.children);
    forall i | 0 <= i < |k.links|
      ensures LinkOk(t, i, k.links[i], k.children[k.links[i].child])
    {
      var l, c := k.links[i], k.children[k.links[i].child];
      assert LinkOk(k.server, i, l, c);
      if l.childOpen {
        DeliversGrow(k.server, t, l, c);
      }
    }
  }

  lemma RetiresKept(k: Cluster)
    requires Inv(k) && Enabled(k, ServerRetires)
    ensures Inv(Next(k, ServerRetires))
  {
    var s := k.server;
    var t := s.(previous := None);
    var f := Retires(s.previous.value);
    forall i | 0 <= i < |k.links|
      ensures f(i, k.links[i]).child == k.links[i].child && f(i, k.links[i]).childOpen == k.links[i].childOpen
      ensures LinkOk(t, i, f(i, k.links[i]), k.children[k.links[i].child])
    {
      var l, c := k.links[i], k.children[k.links[i].child];
      assert LinkOk(s, i, l, c);
      if l.childOpen {
        DeliversGrow(s, t, l, c);
      }
      SendsPlain(t, i, l, c, Retire(s.previous.value));
    }
    AllLinks(k, t, f);
  }

  lemma AskKept(k: Cluster)
    requires Inv(k) && Enabled(k, Ask)
    ensures Inv(Next(k, Ask))
  {
    var s := k.server;
    var t := Next(k, Ask).server;
    var f := Asks(t.phase.participants, t.rounds, s.phase.version);
    assert ServerOk(t) && Grows(s, t) && Members(t.phase) <= Members(s.phase);
    hide LinkOk;
    forall i | 0 <= i < |k.links|
      ensures f(i, k.links[i]).child == k.links[i].child && f(i, k.links[i]).childOpen == k.links[i].childOpen
      ensures LinkOk(t, i, f(i, k.links[i]), k.children[k.links[i].child])
    {
      assert ChildOk(s, k.children[k.links[i].child]);
      Asking(s, t, i, k.links[i], k.children[k.links[i].child]);
    }
    hide ServerOk, Grows;
    AllLinks(k, t, f);
  }

  lemma Asking(s: Server, t: Server, i: nat, l: Link, c: Child)
    requires ServerOk(s) && ChildOk(s, c) && LinkOk(s, i, l, c)
    requires s.phase.Beginning? && s.previous == None
    requires t == s.(rounds := s.rounds + 1, phase := t.phase)
    requires t.phase.Voting? && t.phase.version == s.phase.version && t.phase.id == t.rounds && !t.phase.failed
    requires i in t.phase.participants <==> i in s.phase.synced && l.serverOpen
    ensures LinkOk(t, i, Asks(t.phase.participants, t.rounds, s.phase.version)(i, l), c)
  {
    if l.childOpen {
      DeliversGrow(s, t, l, c);
      if i in t.phase.participants {
        if CommitOf(l.down).Some? {
          OneCommit(c.current, c.previous, Target(c), l.down);
        } else {
          NoCommit(c.current, c.previous, Target(c), l.down);
        }
        Sends(t, l, c, Prepare(t.rounds, s.phase.version));
      }
    }
  }

  lemma AbortKept(s: Server, t: Server, i: nat, l: Link, c: Child)
    requires ServerOk(s) && LinkOk(s, i, l, c) && s.phase.Voting? && t == s.(phase := Ending)
    ensures LinkOk(t, i, Aborts(s.phase.participants, s.phase.id)(i, l), c)
  {
    if l.childOpen {
      DeliversGrow(s, t, l, c);
      Sends(t, l, c, Abort(s.phase.id));
    }
  }

  lemma CommitKept(s: Server, t: Server, i: nat, l: Link, c: Child)
    requires ServerOk(s) && LinkOk(s, i, l, c) && s.phase.Voting? && !s.phase.failed
    requires i in s.phase.participants ==> !l.round.Asked?
    requires t == s.(current := s.phase.version, previous := Some(s.current), installed := s.installed + {s.phase.version},
                     phase := Ending)
    ensures LinkOk(t, i, Commits(s.phase.participants, s.phase.id, s.phase.version)(i, l), c)
  {
    if l.childOpen {
      DeliversGrow(s, t, l, c);
      if i in s.phase.participants && l.serverOpen {
        Sends(t, l, c, Commit(s.phase.id));
      }
    }
  }

  lemma DecidedServer(k: Cluster)
    requires ServerOk(k.server) && Enabled(k, Decide)
    ensures var t := Next(k, Decide).server; ServerOk(t) && Grows(k.server, t) && Members(t.phase) == {}
  {
  }

  lemma DecideKept(k: Cluster)
    requires Inv(k) && Enabled(k, Decide)
    ensures Inv(Next(k, Decide))
  {
    var s, p := k.server, k.server.phase;
    var t := Next(k, Decide).server;
    var failed := p.failed || p.local == Broken;
    var f := if failed then Aborts(p.participants, p.id) else Commits(p.participants, p.id, p.version);
    forall i | 0 <= i < |k.links|
      ensures f(i, k.links[i]).child == k.links[i].child && f(i, k.links[i]).childOpen == k.links[i].childOpen
      ensures LinkOk(t, i, f(i, k.links[i]), k.children[k.links[i].child])
    {
      hide LinkOk;
      if failed {
        AbortKept(s, t, i, k.links[i], k.children[k.links[i].child]);
      } else {
        CommitKept(s, t, i, k.links[i], k.children[k.links[i].child]);
      }
    }
    DecidedServer(k);
    hide LinkOk, ServerOk;
    AllLinks(k, t, f);
  }

  lemma PhasesKept(k: Cluster, step: Step)
    requires Inv(k) && Enabled(k, step) && (step.Begin? || step.BeginFails? || step.LocalDone? || step.EndReload?)
    ensures Inv(Next(k, step))
  {
    var s := k.server;
    var t := Next(k, step).server;
    assert t == s.(seqNo := t.seqNo, phase := t.phase) && ServerOk(t);
    hide LinksOk, ChildrenOk, ServerOk;
    if step.Begin? {
      assert forall i :: i in t.phase.synced ==> i < |k.links|;
    } else {
      assert Members(t.phase) <= Members(s.phase);
    }
    forall i | 0 <= i < |k.links| && k.links[i].childOpen && k.links[i].serverOpen && Rounds(s, i, k.links[i])
      ensures Rounds(t, i, k.links[i])
    {
    }
    assert Next(k, step) == k.(server := t);
    hide Rounds;
    PhaseKept(k, t);
  }

  lemma ReceivesKept(k: Cluster, i: nat)
    requires Inv(k) && Enabled(k, ChildReceives(i))
    ensures Inv(Next(k, ChildReceives(i)))
  {
    var s, l, c := k.server, k.links[i], k.children[k.links[i].child];
    var f := l.down[0];
    var l' := l.(down := l.down[1..], up := l.up + c.Answer(f), had := l.had + c.Receive(f).Retained());
    assert LinkOk(s, i, l, c);
    assert ChildOk(s, c);
    ReceiveDelivers(s, l, l', c);
    if l.serverOpen {
      ReceiveAgrees(s, i, l, l', c);
    }
    OneChild(k, l.child, c.Receive(f), l');
  }

  lemma ReceiveDelivers(s: Server, l: Link, l': Link, c: Child)
    requires ServerOk(s) && ChildOk(s, c) && Delivers(s, l, c) && l.down != [] && c.upstream.Some?
    requires l'.down == l.down[1..] && l'.had == l.had + c.Receive(l.down[0]).Retained()
    ensures ChildOk(s, c.Receive(l.down[0])) && Delivers(s, l', c.Receive(l.down[0]))
  {
    var f := l.down[0];
    var c' := c.Receive(f);
    AscendsBelow(if f.Prepare? then f.id else -1, -1, l'.down);
    if f.IsOp() {
      NoCommit(c.current, c.previous, Target(c), l'.down);
    }
    if !f.Commit? {
      FlowKept(s.Oldest(), s.Oldest(), c.current, c.previous, c.previous, Target(c), Target(c'), l'.down);
    } else {
      FlowKept(s.Oldest(), s.Oldest(), c'.current, c'.previous, c'.previous, Target(c), Target(c'), l'.down);
    }
  }

  lemma ReceiveAgrees(s: Server, i: nat, l: Link, l': Link, c: Child)
    requires ServerOk(s) && ChildOk(s, c) && Delivers(s, l, c) && Agrees(s, i, l, c) && l.down != [] && c.upstream.Some?
    requires l' == l.(down := l.down[1..], up := l.up + c.Answer(l.down[0]), had := l'.had)
    ensures Agrees(s, i, l', c.Receive(l.down[0]))
  {
    var f := l.down[0];
    var c' := c.Receive(f);
    if f.IsOp() {
      NoCommit(c'.current, None, Target(c), l'.down);
      NoCommit(c'.current, None, Target(c'), l'.down);
    }
    if l.round.Asked? {
      ReceiveToken(l.round.id, l.round.version, l, l', c);
    }
    hide Token, ServerOk, Flow;
  }

  lemma ReceiveToken(id: nat, version: nat, l: Link, l': Link, c: Child)
    requires Token(id, version, l, c) && l.down != [] && Ascending(-1, l.down)
    requires l'.down == l.down[1..] && l'.up == l.up + c.Answer(l.down[0])
    ensures Token(id, version, l', c.Receive(l.down[0]))
  {
    if LastOp(l'.down).Some? && LastOp(l'.down).value.Prepare? {
      LastAscends(if l.down[0].Prepare? then l.down[0].id else -1, l'.down);
    }
  }

  /** A child that changes without taking a frame, and what it may say on its link. */
  lemma ChildActs(k: Cluster, c: nat, child: Child, replies: seq<Reply>)
    requires Inv(k) && c < |k.children| && child.upstream == k.children[c].upstream && ChildOk(k.server, child)
    requires child.upstream.Some? ==>
               var i := child.upstream.value;
               LinkOk(k.server, i, k.links[i].(up := k.links[i].up + replies), child)
    ensures Inv(Reported(k, c, child, replies))
  {
    hide LinkOk, ChildOk, ServerOk;
    if child.upstream.Some? {
      var l := k.links[child.upstream.value];
      OneChild(k, c, child, l.(up := l.up + replies));
    } else {
      LoneChild(k, c, child);
    }
  }

  /** Losing the previous version, when the server dropped it or nobody is upstream. */
  lemma DropKept(k: Cluster, c: nat)
    requires Inv(k) && c < |k.children|
    requires k.children[c].upstream.Some? && k.children[c].previous.Some? ==>
               k.children[c].previous.value < k.server.Oldest()
    ensures Inv(SetChild(k, c, k.children[c].(previous := None)))
  {
    var was := k.children[c];
    var child := was.(previous := None);
    assert ChildOk(k.server, was);
    if child.upstream.Some? {
      var l := k.links[child.upstream.value];
      assert LinkOk(k.server, child.upstream.value, l, was);
      FlowKept(k.server.Oldest(), k.server.Oldest(), was.current, was.previous, None, Target(was), Target(was), l.down);
      assert l.up + [] == l.up;
      assert k.links == k.links[child.upstream.value := l];
    }
    ChildActs(k, c, child, []);
  }

  lemma ChildLoadsKept(k: Cluster, c: nat)
    requires Inv(k) && Enabled(k, ChildLoads(c))
    ensures Inv(Next(k, ChildLoads(c)))
  {
    var was := k.children[c];
    var child := was.(operation := Some(was.operation.value.(progress := Preparing)));
    assert ChildOk(k.server, was);
    var l := k.links[child.upstream.value];
    assert LinkOk(k.server, child.upstream.value, l, was);
    assert l.up + [] == l.up;
    assert k.links == k.links[child.upstream.value := l];
    ChildActs(k, c, child, []);
  }

  lemma ChildUnwindsKept(k: Cluster, c: nat)
    requires Inv(k) && Enabled(k, ChildUnwinds(c))
    ensures Inv(Next(k, ChildUnwinds(c)))
  {
    var was := k.children[c];
    assert ChildOk(k.server, was);
    if was.upstream.Some? {
      var l := k.links[was.upstream.value];
      assert LinkOk(k.server, was.upstream.value, l, was);
      assert l.up + [] == l.up;
      assert k.links == k.links[was.upstream.value := l];
    }
    ChildActs(k, c, was.(busy := false), []);
  }

  lemma ChildPreparesKept(k: Cluster, c: nat)
    requires Inv(k) && Enabled(k, ChildPrepares(c))
    ensures Inv(Next(k, ChildPrepares(c)))
  {
    var was := k.children[c];
    var op := was.operation.value;
    assert ChildOk(k.server, was);
    assert LinkOk(k.server, was.upstream.value, k.links[was.upstream.value], was);
    ChildActs(k, c, was.(operation := Some(op.(progress := Prepared))), [Vote(op.id, true)]);
  }

  lemma ChildFailsKept(k: Cluster, c: nat)
    requires Inv(k) && Enabled(k, ChildFails(c))
    ensures Inv(Next(k, ChildFails(c)))
  {
    var was := k.children[c];
    var op := was.operation.value;
    var child := was.(operation := None, busy := false);
    var replies := if op.cancelled then [] else [Vote(op.id, false)];
    assert ChildOk(k.server, was);
    if was.upstream.Some? {
      var l := k.links[was.upstream.value];
      assert LinkOk(k.server, was.upstream.value, l, was);
      FlowKept(k.server.Oldest(), k.server.Oldest(), was.current, was.previous, was.previous, Target(was), Target(child), l.down);
      NoCommit(was.current, None, Target(was), l.down);
      NoCommit(was.current, None, Target(child), l.down);
      assert l.up + [] == l.up;
    }
    ChildActs(k, c, child, replies);
  }

  lemma NextKept(k: Cluster, step: Step)
    requires Inv(k) && Enabled(k, step)
    ensures Inv(Next(k, step))
  {
    hide LinksOk, ServerOk, LinkOk;
    match step
    case Spawn => SpawnKept(k);
    case Connect(c) => ConnectKept(k, c);
    case ServerCloses(i) => ServerClosesKept(k, i);
    case ChildCloses(i) => ChildClosesKept(k, i);
    case HelloArrives(i) => HelloKept(k, i);
    case HelloAgain(i) => HelloAgainKept(k, i);
    case VoteArrives(i) => VoteKept(k, i);
    case VoteMissing(i) => VoteMissingKept(k, i);
    case Reconcile(i) => ReconcileKept(k, i);
    case Conclude(i) => ConcludeKept(k, i);
    case ServerRetires => RetiresKept(k);
    case Ask => AskKept(k);
    case Decide => DecideKept(k);
    case SendCall(i, root) => CallKept(k, i, root);
    case ChildReceives(i) => ReceivesKept(k, i);
    case ChildLoads(c) => ChildLoadsKept(k, c);
    case ChildRetires(c) => assert ChildOk(k.server, k.children[c]); DropKept(k, c);
    case ChildForced(c) => assert ChildOk(k.server, k.children[c]); DropKept(k, c);
    case ChildPrepares(c) => ChildPreparesKept(k, c);
    case ChildFails(c) => ChildFailsKept(k, c);
    case ChildUnwinds(c) => ChildUnwindsKept(k, c);
    case _ => PhasesKept(k, step);
  }

  // Runs

  ghost predicate Leads(k: Cluster, k': Cluster) {
    exists step :: Enabled(k, step) && k' == Next(k, step)
  }

  ghost predicate Stepped(run: seq<Cluster>, n: nat)
    requires n < |run| - 1
  {
    Leads(run[n], run[n + 1])
  }

  ghost predicate IsRun(run: seq<Cluster>) {
    run != [] && Init(run[0]) && forall n :: 0 <= n < |run| - 1 ==> Stepped(run, n)
  }

  lemma {:induction false} RunInv(run: seq<Cluster>, n: nat)
    requires IsRun(run) && n < |run|
    ensures Inv(run[n])
  {
    if n != 0 {
      RunInv(run, n - 1);
      assert Stepped(run, n - 1);
      hide Inv, Init, Leads, IsRun;
      LeadsInv(run[n - 1], run[n]);
    }
  }

  lemma LeadsInv(k: Cluster, k': Cluster)
    requires Inv(k) && Leads(k, k')
    ensures Inv(k')
  {
    hide Inv, Enabled, Next;
    var step :| Enabled(k, step) && k' == Next(k, step);
    NextKept(k, step);
  }

  /** `installed` is what the server ran at some time of the run. */
  lemma {:induction false} InstalledIsHistory(run: seq<Cluster>, n: nat, v: nat)
    requires IsRun(run) && n < |run| && v in run[n].server.installed
    ensures exists m :: 0 <= m <= n && run[m].server.current == v
  {
    if n == 0 || v == run[n].server.current {
      assert run[n].server.current == v;
    } else {
      assert Stepped(run, n - 1);
      InstalledIsHistory(run, n - 1, v);
    }
  }

  /**
   A child starts to run a version only after the server ran it: at every step of every run where a child's version
   changes, some earlier state has the server in that version. No child is ever ahead of the server.
   */
  lemma ChildFollowsServer(run: seq<Cluster>, n: nat, c: nat)
    requires IsRun(run) && n + 1 < |run| && c < |run[n].children|
    ensures c < |run[n + 1].children|
    ensures run[n + 1].children[c].current <= run[n + 1].server.current
    ensures run[n + 1].children[c].current != run[n].children[c].current ==>
              exists m :: 0 <= m <= n && run[m].server.current == run[n + 1].children[c].current
  {
    RunInv(run, n);
    RunInv(run, n + 1);
    assert Stepped(run, n);
    hide Enabled, Next;
    var step :| Enabled(run[n], step) && run[n + 1] == Next(run[n], step);
    InstallsInstalled(run[n], step, run[n + 1], c);
    assert ChildOk(run[n + 1].server, run[n + 1].children[c]);
    hide Inv;
    if run[n + 1].children[c].current != run[n].children[c].current {
      InstalledIsHistory(run, n, run[n + 1].children[c].current);
    }
  }

  /** The child a step is taken by. */
  function Actor(k: Cluster, step: Step): (r: Option<nat>)
    requires Enabled(k, step)
  {
    match step
    case Connect(c) => Some(c)
    case ChildCloses(i) => Some(k.links[i].child)
    case ChildReceives(i) => Some(k.links[i].child)
    case ChildLoads(c) => Some(c)
    case ChildRetires(c) => Some(c)
    case ChildForced(c) => Some(c)
    case ChildPrepares(c) => Some(c)
    case ChildFails(c) => Some(c)
    case ChildUnwinds(c) => Some(c)
    case _ => None
  }

  lemma OthersStay(k: Cluster, step: Step, k': Cluster, c: nat)
    requires Enabled(k, step) && k' == Next(k, step) && c < |k.children|
    ensures c < |k'.children| && (Actor(k, step) != Some(c) ==> k'.children[c] == k.children[c])
  {
    hide Decided, Reconciled, Concluded, PeerHello, Unvoted, Failing, Child.Receive, Child.Answer, Child.Cancelled;
  }

  lemma InstallsInstalled(k: Cluster, step: Step, k': Cluster, c: nat)
    requires Inv(k) && Enabled(k, step) && k' == Next(k, step) && c < |k.children|
    ensures c < |k'.children|
    ensures k'.children[c].current != k.children[c].current ==> k'.children[c].current in k.server.installed
  {
    OthersStay(k, step, k', c);
    if Actor(k, step) == Some(c) {
      if step.ChildReceives? {
        ReceivesInstalled(k, step.link);
      } else {
        hide Inv;
      }
    }
  }

  lemma ReceivesInstalled(k: Cluster, i: nat)
    requires Inv(k) && Enabled(k, ChildReceives(i))
    ensures k.children[k.links[i].child].Receive(k.links[i].down[0]).current in k.server.installed
  {
    assert LinkOk(k.server, i, k.links[i], k.children[k.links[i].child]);
    assert ChildOk(k.server, k.children[k.links[i].child]);
  }

  /** A synced child whose link is open runs the server's version once it took what is already on the link. */
  lemma SyncedInStep(run: seq<Cluster>, n: nat, i: nat)
    requires IsRun(run) && n < |run| && i < |run[n].links|
    requires var l := run[n].links[i]; l.childOpen && l.serverOpen && l.seen == Synced
    ensures var l := run[n].links[i];
            l.child < |run[n].children| && ReceiveAll(run[n].children[l.child], l.down).current == run[n].server.current
  {
    RunInv(run, n);
    var l := run[n].links[i];
    assert LinkOk(run[n].server, i, l, run[n].children[l.child]);
    Reaches(run[n].children[l.child], l.down);
  }

  /** A child took the commit of a version before it takes a call of a root of it. */
  lemma CommitBeforeCalls(run: seq<Cluster>, n: nat, i: nat)
    requires IsRun(run) && n < |run| && Enabled(run[n], ChildReceives(i)) && run[n].links[i].down[0].Call?
    ensures run[n].links[i].down[0].root <= run[n].children[run[n].links[i].child].current
  {
    RunInv(run, n);
    assert LinkOk(run[n].server, i, run[n].links[i], run[n].children[run[n].links[i].child]);
  }

  /** While its parent link is up a child drops a version only after the server did, past its own deadline too. */
  lemma DropsAfterServer(run: seq<Cluster>, n: nat, c: nat, v: nat)
    requires IsRun(run) && n + 1 < |run| && c < |run[n].children| && run[n].children[c].upstream.Some?
    requires v in run[n].children[c].Retained()
    ensures c < |run[n + 1].children|
    ensures v !in run[n + 1].children[c].Retained() ==> v !in run[n].server.Retained()
  {
    RunInv(run, n);
    assert Stepped(run, n);
    var step :| Enabled(run[n], step) && run[n + 1] == Next(run[n], step);
    hide Inv, Enabled, Next;
    DropIsAllowed(run[n], step, run[n + 1], c, v);
  }

  lemma DropIsAllowed(k: Cluster, step: Step, k': Cluster, c: nat, v: nat)
    requires Inv(k) && Enabled(k, step) && k' == Next(k, step) && c < |k.children| && k.children[c].upstream.Some?
    requires v in k.children[c].Retained()
    ensures c < |k'.children|
    ensures v !in k'.children[c].Retained() ==> v !in k.server.Retained()
  {
    OthersStay(k, step, k', c);
    if Actor(k, step) == Some(c) {
      assert ChildOk(k.server, k.children[c]) && ServerOk(k.server);
      hide Inv;
      match step
      case ChildRetires(x) => assert x == c; OldDropped(k.server, k.children[c]);
      case ChildForced(x) =>
        assert x == c;
        if k.children[c].previous.Some? {
          OldDropped(k.server, k.children[c]);
        }
      case ChildReceives(i) => ReceiveRetains(k.server, k.children[c], k.links[i].down[0]);
      case _ => SameRetained(k, step, k', c);
    }
  }

  /** A previous version older than the server's oldest is not retained there. */
  lemma OldDropped(s: Server, c: Child)
    requires ServerOk(s) && ChildOk(s, c) && c.previous.Some?
    requires c.operation.Some? || c.previous.value <= c.allowed
    ensures c.previous.value !in s.Retained()
  {
  }

  /** A commit finds no previous version left to replace. */
  lemma ReceiveRetains(s: Server, c: Child, f: Control)
    requires ChildOk(s, c)
    ensures c.Retained() <= c.Receive(f).Retained()
  {
  }

  lemma SameRetained(k: Cluster, step: Step, k': Cluster, c: nat)
    requires Enabled(k, step) && k' == Next(k, step) && c < |k.children| && Actor(k, step) == Some(c)
    requires !step.ChildRetires? && !step.ChildForced? && !step.ChildReceives?
    ensures c < |k'.children| && k'.children[c].Retained() == k.children[c].Retained()
  {
    hide Decided, Reconciled, Concluded, PeerHello, Unvoted, Failing;
  }

  lemma {:induction false} HadGrows(run: seq<Cluster>, m: nat, n: nat, i: nat)
    requires IsRun(run) && m <= n < |run| && i < |run[m].links|
    ensures i < |run[n].links| && run[n].links[i].child == run[m].links[i].child && run[m].links[i].had <= run[n].links[i].had
    ensures run[n].links[i].childOpen ==> run[m].links[i].childOpen
  {
    hide Enabled, Next;
    if m < n {
      HadGrows(run, m, n - 1, i);
      assert Stepped(run, n - 1);
      var step :| Enabled(run[n - 1], step) && run[n] == Next(run[n - 1], step);
      LinkLives(run[n - 1], step, i);
    }
  }

  lemma LinkLives(k: Cluster, step: Step, i: nat)
    requires Enabled(k, step) && i < |k.links|
    ensures var links := Next(k, step).links;
            && i < |links| && links[i].child == k.links[i].child && k.links[i].had <= links[i].had
            && (links[i].childOpen ==> k.links[i].childOpen)
  {
    hide Decided, Reconciled, Concluded, PeerHello, Unvoted, Failing, Child.Receive, Child.Answer, Server.Announcement;
  }

  /**
   So over one link a child keeps what it held: a version it retained at any time since it connected is retained when a
   later call arrives, however many reloads, forced retirements and aborts came between, if the server retains it still.
   */
  lemma KeepsWhatServerRuns(run: seq<Cluster>, m: nat, n: nat, i: nat, v: nat)
    requires IsRun(run) && m <= n < |run| && i < |run[m].links|
    requires run[m].links[i].child < |run[m].children| && v in run[m].children[run[m].links[i].child].Retained()
    ensures i < |run[n].links| && run[n].links[i].child == run[m].links[i].child < |run[n].children|
    ensures run[n].links[i].childOpen && v in run[n].server.Retained() ==>
              v in run[n].children[run[n].links[i].child].Retained()
  {
    RunInv(run, m);
    RunInv(run, n);
    HadGrows(run, m, n, i);
    assert LinkOk(run[m].server, i, run[m].links[i], run[m].children[run[m].links[i].child]);
    assert LinkOk(run[n].server, i, run[n].links[i], run[n].children[run[n].links[i].child]);
  }
}
