# Chord runtime and agent loop, verified

A Dafny model of the parts of the repository whose promises range over whole runs: state replication between hosts,
coordinated hot reload, the data structures under them (schemas, cells, publications, watches, bounded output, the
reference graph), and the agent loop. Each module follows one component and states what that component is for.

- `Streams`, `FlowControl`, `Provider`, `Binding`, `Replication`, `DirectLink`, `Relay`, `RelayedView`: state streamed as snapshots, ops
  and resets through a window of acknowledgements. The provider parks what it cannot send, replaces parked ops by a reset
  built later, and a relay asks for a reset instead. Runs interleave writes, deliveries, acknowledgements, flushes,
  resyncs, shape changes and frames arriving, in any order. Behind a relay shapes overtake the snapshots they list, and
  still the binding is hydrated (`RelayedView`). `Connection` and `RemoteBinding` are the two ends as objects
  updated in place, each method proved against the functions those theorems are about.
- `Cluster`, `Decision`: the two-phase reload of a server and its child hosts, with lost votes, deadlines, dropped links,
  children that come back behind and are reconciled, and retirement of old code versions. `Decision` says what becomes of
  each step: when a reload commits and when not, and where each participant ends.
- `Gate`: the upgrade gate of one object, from the admission cut to the commit of migrated state.
- `Schema`: subtyping of JSON schemas, the cleaning it relies on, and the coverage check of contracts.
- `Output`: head and tail windows of a byte stream, and the buffer that keeps them chunk by chunk.
- `Cells`, `Publications`, `States`, `Watches`: atomic recomputation of derivations, re-entrant delivery in adoption
  order, replicated-state subscriptions, and watch handles.
- `References`: the acyclic reference graph, its cycle check, and disposal of holders first.
- `AgentLoop`: the nested loops of a run, its tool batches, queues, event stream and transcript.

An op is what it does to a value, and an encoded op carries its stream and position, so that a decoder that meets any
other op is visibly corrupt: this stands for the encoder and decoder pair of the delta library. A link is an ordered queue,
a deadline is a step that may happen at any time, and everything else that comes from outside (peers, listeners, hooks, the
model's answers) is a step or a parameter without restriction unless a contract names one. Where code runs re-entrantly or
asynchronously it is a step system; where it is a loop or an object it is a method or a class.

## Where a promise fails

Five promises of the code hold only under a condition; each has a failing input and the exact condition proved.

- `fits` (packages/chord/src/schema.ts:297-373) accepts a consumer schema `{ type: "object" }` without `properties` for a
  provider that names typed properties, yet `cleaned` strips nothing for such a schema (line 151), so a value valid for the
  consumer can fail the provider's check: `Schemas.UnstrippedExample`.
- `fits` asks `key in` of plain objects (lines 331 and 341), which also finds the names every object inherits, such as
  `constructor`. A closed consumer that names such a property fits a closed provider that does not, which then refuses its
  value: `Schemas.InheritedExample`. And a provider that adds an optional property of such a name to an open schema is
  refused unless its schema for it takes anything (`Schemas.AdditiveFits`).

  Of both together: for every consumer of the fragment whose `anyOf` branches keep the promise, it holds over all
  providers and all values exactly when every object schema that some valid value reaches, the consumer's own and those
  inside at any depth, strips (it names its properties, or says what others may hold, or allows none) and, if it is closed,
  allows no value with an inherited name (`Schemas.KeepsExactly`; for one object schema around others that can be read off
  to be right, `Schemas.StripsExactly`). A schema that strips throughout and has no closed part that names an inherited
  property always keeps it (`Schemas.PlainKeeps`).
- `coverage` (packages/chord/src/contract.ts:284-309) compares results and states as if fields a schema does not know were
  stripped, but nothing strips them: a result is checked by the provider's schema and returned as it is
  (packages/chord/src/object.ts:1611), and so is the value of a state (packages/chord/src/connection.ts:1318). A provider
  that returns a field its open schema does not name can hand a covered consumer a value that the consumer's schema refuses
  there: `Schemas.ResultExample`. A valid object is taken as it is by every consumer its provider's schema fits exactly if
  each of its fields is one the schema names or one every object inherits (`Schemas.AsIsExactly`).
- A listener function that unsubscribes and subscribes again while a notification queued for its first subscription is
  waiting is called with that older revision after its new first value (packages/chord/src/cell.ts:44-51):
  `Publications.SubscribedAgain`. Delivery is in order exactly when no waiting notification names the function at the time
  it subscribes: `Publications.FreshIsNeeded`.
- The write guard takes every root whose id starts with `task:` for a task (packages/chord/src/object.ts:1550), and root ids
  start with the host's name (packages/chord/src/host.ts:614). On a host named `task:...` a call that its root did not wait
  for writes behind a drained gate, and after the commit: `Gates.NamedIsNeeded`. Over all runs whose calls come with roots
  of a given set, the gate keeps its promises exactly when no root of the set starts with `task:` (`Gates.KeptExactly`),
  also with such calls left running.

The comment of `fits` also says that a provider schema with an `additionalProperties` schema fits only an identical one;
the code compares with annotations stripped at the top level only, and the model does the same.

## Model

| member | source | states |
|---|---|---|
| DirectLink.Converges | packages/chord/src/connection.ts:468-609 | in every run, folding the frames on the link, then the member's slot (a lazy one stands for the value), then the queued events gives the source's current value |
| DirectLink.QuietMeansEqual | packages/chord/src/connection.ts:989-1049 | when nothing is on the way, waits or is queued, the consumer's value is the source's |
| DirectLink.AlwaysHydrated | packages/chord/src/remote.ts:245-288 | after every frame a live view has every state member of its shape; consuming the link leaves no unit incomplete and the view live once a unit was sent; no decoder met a wrong op |
| DirectLink.NeverViolates | packages/chord/src/connection.ts:582-619 | waiting bytes are the sum of the slots and within the cap, unacknowledged bytes the sum of frames since the last ack, acked <= received <= sent, so the range check never closes the link |
| DirectLink.UnitSettles | packages/chord/src/connection.ts:956-983 | a whole unit applied to a binding that has every member already fed leaves it settled, live, and with each listed member at its snapshot |
| Relaying.NeverMisapplies | packages/chord/src/connection.ts:223-253 | through a relay that may drop anything that waits, the consumer never applies ops to a value they were not computed from |
| Relaying.ForwardsWhatItReceived | packages/chord/src/connection.ts:509-529 | what was forwarded of a member, then what waits, folds to what the relay received, or its reset is awaited with nothing waiting and asked for or coming |
| Relaying.QuietChainEqual | packages/chord/src/connection.ts:223-253 | when nothing is on the way at either hop no reset is awaited, what reached the consumer of a member is the source's value, and so is what its binding holds of it, if it holds it (`RelayedViews.QuietMeansEqual`: it does) |
| Relaying.FirstUnitPasses | packages/chord/src/connection.ts:232-253 | the first shape of a hold goes on at once, and each snapshot it lists passes the window once |
| Relaying.OtherUnitsWait | packages/chord/src/connection.ts:232-253 | any other shape goes on at once too, but what it lists waits like anything else |
| RelayedViews.AlwaysHydrated | packages/chord/src/remote.ts:245-383 | behind a relay too, after every frame, a binding that applied a shape is hydrated with every state member of it, and what a waiting shape wants is there or expected |
| RelayedViews.QuietHydrated | packages/chord/src/connection.ts:223-253 | when nothing is on the way and no member of the hold waits at the relay or is awaited there, after a unit and with no other queued, the binding is live in the provider's shape with every member |
| RelayedViews.QuietMeansEqual | packages/chord/src/connection.ts:223-253 | when nothing of a fed member is on the way or waits, the binding behind the relay holds it with the source's value |
| Replication.StepFollows | packages/chord/src/connection.ts:936-1080 | every provider step keeps all its invariants and, for every member and any peer replica it serves, serves the replica after the frames it sent |
| Replication.DeliverFollows | packages/chord/src/connection.ts:1024-1037 | a source event becomes ops or a reset of a new stream, sent or parked, and the stream still leads to the source's value |
| Replication.WindowHonoured | packages/chord/src/connection.ts:468-506 | a reset or ops frame goes out at once exactly if nothing of its member waits and the peer does not acknowledge or the window is not full |
| Replication.WriteMoves | packages/chord/src/connection.ts:989-1005 | a write changes the value of its member and queues its event with every feed of it, and touches nothing else |
| Replication.DeliverStreams | packages/chord/src/connection.ts:1024-1037 | the frame of the oldest queued event carries its ops, numbered from where the stream stood, and the event leaves the queue |
| Replication.FlushOneFollows | packages/chord/src/connection.ts:592-609 | one round of the flush loop sends a unit, a reset of the current value or a parked slot without disturbing any stream |
| Replication.ReShapeFollows | packages/chord/src/connection.ts:940-954 | a shape change ends the streams of members that left and sends or queues a unit, every other stream going on |
| Replication.ReShapeSends | packages/chord/src/connection.ts:936-954 | feeds of members that stay go on unchanged; a unit without feeds is sent at once, shape first, unless it is of a re-hold, and any other is queued |
| Replication.ResyncFollows | packages/chord/src/connection.ts:1070-1080 | a resync request replaces what waits by a lazy reset |
| Replication.DropHoldFollows | packages/chord/src/connection.ts:1082-1098 | releasing a hold forgets its streams, slots and unit, and no other's |
| Replication.DropHoldForgets | packages/chord/src/connection.ts:1082-1098 | exactly the feeds, slots and unit of the released hold are gone, and nothing is sent |
| Replication.AttachAllTaken | packages/chord/src/connection.ts:985-1005 | once a peer took the snapshots of a unit it knows each listed member exactly as its new feed does |
| FlowControl.SendStateCaught | packages/chord/src/connection.ts:468-506 | sending or parking a state frame moves what the peer will have of its member by exactly that frame, and no other member |
| FlowControl.SendStateCounted | packages/chord/src/connection.ts:468-506 | the byte counters stay the sums of the slots and of the unacknowledged frames, and the cap holds |
| FlowControl.MakeRoomCounted | packages/chord/src/connection.ts:508-529 | dropping the oldest streams makes room: the new ops fit, or their own slot was dropped |
| FlowControl.MakeRoomOldest | packages/chord/src/connection.ts:508-515 | exactly the oldest streams with something waiting are dropped, no more of them than it takes, and the current one only if dropping all others is not enough |
| FlowControl.FlushSlotCaught | packages/chord/src/connection.ts:592-609 | flushing a slot brings the peer to what the slot stood for |
| FlowControl.HelloDecides | packages/chord/src/connection.ts:837-843 | the first hello decides whether the peer acknowledges, later ones change nothing; if it does not, nothing is counted and the window is never full |
| Streams.PlayEncoded | packages/chord/src/remote.ts:270-276 | decoding and applying an encoded batch gives the ops applied, with the decoder where the encoder is |
| Streams.PlayConcat | packages/chord/src/connection.ts:333-335 | batches of one stream may be concatenated |
| Bindings.UnitArrives | packages/chord/src/remote.ts:278-284 | snapshots received one by one leave the binding settled throughout; the last applies the shape with each listed member at its snapshot |
| Connections.Connection.SendState | packages/chord/src/connection.ts:468-506 | in place: the connection becomes the one whose properties are proved, sent or parked |
| Connections.Connection.MakeRoom | packages/chord/src/connection.ts:508-515 | in place: oldest streams first, the current one last |
| Connections.Connection.Drop | packages/chord/src/connection.ts:517-529 | in place: a lazy reset on a provider, a request on a relay |
| Connections.Connection.OnAck | packages/chord/src/connection.ts:582-590 | in place: refuses an ack out of range, else forgets the frames acknowledged and their bytes, and nothing else |
| Connections.Connection.SendUnit | packages/chord/src/connection.ts:956-983 | in place: shape, then the snapshots of what is not fed yet |
| Connections.Connection.Resend | packages/chord/src/connection.ts:1039-1049 | in place: a new stream from the current value |
| Connections.Connection.Flush | packages/chord/src/connection.ts:592-609 | in place: whole slots and units go, oldest first, each begun while the window was open, until nothing waits or the window is full; what the peer will have of every member moves by exactly the frames sent |
| RemoteBindings.RemoteBinding.Shaped | packages/chord/src/remote.ts:244-255 | in place: a shape waits for its listed snapshots and those of the one before |
| RemoteBindings.RemoteBinding.State | packages/chord/src/remote.ts:257-288 | in place: ops and snapshots go to the waiting shape or to the members |
| RemoteBindings.RemoteBinding.Apply | packages/chord/src/remote.ts:364-383 | in place: members outside the variant go, new values are set, hydrated and live follow |
| RemoteBindings.RemoteBinding.Detached | packages/chord/src/remote.ts:304-314 | in place: no longer live, a unit on its way is forgotten, the values and everything else stay |
| Clusters.ChildFollowsServer | packages/chord/src/cluster.ts:39-158 | whenever a child's version changes the server ran that version earlier in the run, and no child is ever ahead |
| Clusters.SyncedInStep | packages/chord/src/cluster.ts:173-250 | a synced child with its link open runs the server's version once it took what is already on the link |
| Clusters.CommitBeforeCalls | packages/chord/src/reload.ts:567-582 | a child that takes a call of a root of v already runs v or later |
| Clusters.DropsAfterServer | packages/chord/src/reload.ts:265-276 | while its parent link is up a child drops a version, past its own deadline too, only after the server did |
| Clusters.KeepsWhatServerRuns | packages/chord/src/host.ts:705-754 | over one link, a version a child held at any earlier time is held whenever the server still retains it |
| Clusters.NextKept | packages/chord/src/host.ts:987-1028 | every step of server, children and links keeps the invariant the reload theorems rest on |
| Decisions.Decides | packages/chord/src/cluster.ts:82-107 | in any run, a decision installs the proposed version with the old one as previous exactly if no vote failed and the own part is ready, else the server stays; every participant with an open link ends on the new version, or on its old one with no operation left, once it took what is on its link |
| Decisions.VetoHolds | packages/chord/src/cluster.ts:60-91 | a proposal, its id and its participants stand until decided, and a failed vote or own part stays failed, by exactly the steps that fail one |
| Decisions.CommitHappens | packages/chord/src/cluster.ts:39-109 | a concrete run in which server and child reach the next version |
| Decisions.Catches | packages/chord/src/cluster.ts:124-158 | a reconciliation that ends brings an open child to the server's version, or, if the server moved on meanwhile, leaves it on its old one with its operation aborted |
| Decisions.HelloSyncs | packages/chord/src/host.ts:987-1018 | a hello of the own version syncs, one of an older begins a reconciliation, one of a newer closes the link |
| Decisions.RetireReaches | packages/chord/src/host.ts:742-754 | a version the server drops is one each open child may drop once it took what is on its link |
| Decisions.Syncs | packages/chord/src/cluster.ts:131-136 | a child known to run the server's version is synced as soon as no reload runs, and may drop what the server dropped |
| Decisions.ChildChanges | packages/chord/src/cluster.ts:181-250 | a child changes its version exactly by the commit of what it prepared, keeps the old one until it drops it, and frees its reload slot after a commit, a failure or the undoing of what was aborted |
| Decisions.SaysNo | packages/chord/src/cluster.ts:181-250 | a child that is busy or fails says no on its link |
| Clusters.Reaches | packages/chord/src/cluster.ts:181-206 | taking the frames of a link in order ends in the version of its one effective commit |
| Gates.DrainedAcceptsNothing | packages/chord/src/object.ts:1520-1552 | once the gate drained no context may write |
| Gates.MigratesFinalState | packages/chord/src/reload.ts:457-521 | from drained to commit or rollback the cells, the minimum and the current version stand still, and the prepared values are the migration of them |
| Gates.CommitInstalls | packages/chord/src/reload.ts:658-690 | a gated commit installs, cell by cell, the migration of the values at the time the gate drained |
| Gates.OldCodeCannotWrite | packages/chord/src/object.ts:1404-1481 | after a gated commit no call, listener or task of older code can write, delayed task starts included |
| Gates.RollbackRestores | packages/chord/src/reload.ts:523-560 | after whatever a prepare did behind the drained gate, a rollback leaves the cells, the minimum, the current and the retained versions as they were when it drained, and opens the gate |
| Gates.OnlyCommits | packages/chord/src/reload.ts:658-690 | of all steps only a write changes one cell and only a gated commit all of them and the minimum version; only commits change the current version, and only commits and retirement the retained ones |
| Gates.GateWaits | packages/chord/src/object.ts:1627-1631 | until commit or rollback, whatever happens, the gate waits for exactly the roots it let through that have not ended |
| Gates.TasksRestart | packages/chord/src/object.ts:1400-1481 | closing a gate and a commit stop the tasks of before; commit and rollback start each declared task once, at once or with the delayed start |
| Gates.AdmittedWrites | packages/chord/src/object.ts:1520-1552 | with no gate a retained root of no less than the minimum version is admitted, and whoever is admitted may write |
| Gates.SettledIsOver | packages/chord/src/object.ts:1400-1481 | whatever happens next, a context whose call or task has settled never writes again |
| Gates.NamedIsNeeded | packages/chord/src/object.ts:1545-1552 | for any root: once it entered, ended with a call left running, and the gate drained, that call may write exactly if the root is named like a task |
| Gates.KeptExactly | packages/chord/src/object.ts:1520-1552 | the drained gate and the end of old code hold in all runs with roots of a set exactly when no root of the set is named like a task |
| Schemas.FitsSound | packages/chord/src/schema.ts:297-373 | if `fits(sub, sup)` and sub keeps the promise at every depth (the condition `KeepsExactly` proves necessary), every value valid under sub is valid under sup once cleaned by sub |
| Schemas.FitsCleaned | packages/chord/src/schema.ts:325-373 | for such a sub, any value whose cleaning by sub is valid under sub is, so cleaned, valid under sup |
| Schemas.CleanValid | packages/chord/src/schema.ts:123-161 | cleaning keeps a valid value valid, whichever branch of an `anyOf` it takes |
| Schemas.CleanRestricts | packages/chord/src/schema.ts:70-73 | cleaning only leaves fields and trailing items out, at any depth |
| Schemas.CleanExact | packages/chord/src/schema.ts:149-159 | nothing a schema knows is taken: a value of a closed schema is left as it is |
| Schemas.AdditiveFits | packages/chord/src/schema.ts:330-338 | a provider that differs from an open consumer by optional fields, more or fewer, fits exactly if each inherited name that only it names takes anything |
| Schemas.IntegerFits | packages/chord/src/schema.ts:313-317 | integers fit numbers and not the other way |
| Schemas.ValuesFit | packages/chord/src/schema.ts:307-310 | against an enum, a constant or enum fits exactly if all its values are in it |
| Schemas.AlternativesFit | packages/chord/src/schema.ts:304-305 | alternatives fit where each of them fits, and any schema fits alternatives one of which it fits |
| Schemas.ListsFit | packages/chord/src/schema.ts:366-373 | lists fit if their items do |
| Schemas.TuplesFit | packages/chord/src/schema.ts:366-373 | a tuple fits a list if each of its items does, and a tuple as long if they do one by one |
| Schemas.ConstantsFit | packages/chord/src/schema.ts:306 | a constant is fit only by itself |
| Schemas.OnlyAlike | packages/chord/src/schema.ts:293-304 | a schema with `prefixItems` or an `additionalProperties` schema is fit only by its like |
| Schemas.NotesIgnored | packages/chord/src/schema.ts:288-300 | annotations at the top of either schema make no difference |
| Schemas.KeepsExactly | packages/chord/src/schema.ts:297-373 | over all providers of the fragment and all values, the promise of `fits` holds for a consumer whose `anyOf` branches keep it exactly when each object schema a valid value reaches, at any depth, strips and if closed allows no inherited name |
| Schemas.PlainKeeps | packages/chord/src/schema.ts:325-342 | a schema that strips throughout and whose closed parts name no inherited property meets that condition |
| Schemas.StripsExactly | packages/chord/src/schema.ts:147-151 | for a consumer whose inner schemas are of that kind, the promise holds exactly when its own object schema strips and, if closed, allows no value with an inherited name |
| Schemas.UnnamedBreaks | packages/chord/src/schema.ts:339-342 | if a closed consumer allows a value with an inherited name, the provider that leaves the name out of its properties and required ones fits, and refuses the cleaned value |
| Schemas.InheritedExample | packages/chord/src/schema.ts:339-342 | a concrete pair of closed schemas and a value for which the promise fails |
| Schemas.UnstrippedUnsound | packages/chord/src/schema.ts:325-338 | of one provider, the consumer `{ type: "object" }` needs exactly that each property it names takes any value |
| Schemas.UnstrippedExample | packages/chord/src/schema.ts:325-338 | a concrete pair of schemas and a value for which it fails |
| Schemas.ArgumentsAccepted | packages/chord/src/contract.ts:284-309 | when a provider covers a consumer whose schema of the arguments keeps the promise, arguments valid for the consumer pass the provider's check in a direct call (object.ts:1590-1597) |
| Schemas.SeesOnlyNamed | packages/chord/src/object.ts:1590-1597 | of an object's fields the provider sees only those its schema names and the consumer's left in |
| Schemas.ResultsAccepted | packages/chord/src/contract.ts:298-300 | a result valid under a covering provider's schema that keeps the promise is, without what that schema does not know, valid under the consumer's |
| Schemas.StatesAccepted | packages/chord/src/contract.ts:301-302 | so is the value of a state member |
| Schemas.AsIsExactly | packages/chord/src/object.ts:1604-1612 | an object valid under an open schema with nothing to strip inside is valid, as it is, under every schema that one fits exactly if each of its fields is named there or inherited |
| Schemas.UnknownBreaks | packages/chord/src/object.ts:1604-1612 | any other field breaks it for some schema that one fits |
| Schemas.ResultExample | packages/chord/src/object.ts:1604-1612 | a concrete pair of schemas and a result for which it fails |
| Schemas.NotCovered | packages/chord/src/contract.ts:284-309 | another name, scope, placement or input, a missing variant or member, another kind, arguments or a result or state that do not fit, or another opaque id: not covered |
| Schemas.CoveredOtherwise | packages/chord/src/contract.ts:284-309 | a provider is refused for nothing else, whatever more it offers |
| Schemas.CleanFrom | packages/chord/src/schema.ts:122-132 | the branch loop, and the copy updated in place, compute the cleaning the lemmas are about |
| Schemas.CleanArray | packages/chord/src/schema.ts:133-146 | the item loop does, for lists and for both forms of tuple |
| Schemas.CleanObject | packages/chord/src/schema.ts:147-161 | the field loop, deleting and replacing, does |
| Outputs.HeadRange | packages/chord/src/output.ts:64-79 | the most whole lines within both limits, or the most characters of a first line that does not fit |
| Outputs.TailRange | packages/chord/src/output.ts:81-102 | the most whole lines at the end within both limits, or the most characters of a last line that does not fit |
| Outputs.BoundOutput | packages/chord/src/output.ts:52-62 | the window, and exactly the bytes and lines it leaves out |
| Outputs.CharacterEnd | packages/chord/src/output.ts:104-109 | the last character boundary at or before an index |
| Outputs.CharacterStart | packages/chord/src/output.ts:111-116 | the first character boundary at or after an index |
| Outputs.LineCount | packages/chord/src/output.ts:118-123 | lines, a final unterminated one included |
| Outputs.WindowIsText | packages/chord/src/output.ts:12-18 | the kept slice of a text is a text, so it decodes exactly |
| Outputs.TailMargin | packages/chord/src/output.ts:246-249 | the tail window of any text that ends with a suffix longer than the window is that suffix's |
| Outputs.HeadFilled | packages/chord/src/output.ts:203-207 | nothing after a full head buffer changes the window |
| Outputs.MarginOf | packages/chord/src/output.ts:246-264 | the shortest suffix on a character boundary with more than the window's bytes or lines, at most maxBytes + 4 long |
| Outputs.OutputBuffer.Accept | packages/chord/src/output.ts:192-220 | any chunk keeps the counters exact, the stored text decisive for every later window, and stored bytes within maxBytes + 1 + max(largest chunk, maxBytes + 4) |
| Outputs.OutputBuffer.Trim | packages/chord/src/output.ts:208-218 | dropping leading chunks keeps more than a window |
| Outputs.OutputBuffer.AcceptAfter | packages/chord/src/output.ts:161-174 | skipped output followed by a chunk longer than the window counts as part of the stream, with the same byte bound over the chunks accepted; head retention refuses it |
| Outputs.OutputBuffer.Snapshot | packages/chord/src/output.ts:222-243 | before sanitizing, the result is `boundOutput` of the whole stream: text, dropped bytes, dropped lines |
| Cells.Visit | packages/chord/src/cell.ts:287-295 | the visit adds exactly transitive dependents and leaves none out |
| Cells.ComputeDependents | packages/chord/src/cell.ts:285-305 | succeeds exactly when some values satisfy every affected derivation and its validation, and returns them |
| Cells.OneSolution | packages/chord/src/cell.ts:285-305 | those values are unique: creation order is as good as any |
| Cells.SolutionConsistent | packages/chord/src/cell.ts:246-272 | installing them leaves every attached derivation equal to its function of the current values |
| Cells.Graph.Publish | packages/chord/src/cell.ts:246-272 | a write is all or nothing: refused exactly if it or a dependent is refused, else every derivation is consistent |
| Cells.Graph.Attach | packages/chord/src/cell.ts:354-360 | attaching computes the first value and follows the sources, all else unchanged; the graph stays consistent exactly if whatever follows the derivation already agrees with that value |
| Cells.Graph.Detach | packages/chord/src/cell.ts:362-366 | detaching keeps everything else consistent |
| Publications.InOrder | packages/chord/src/publish.ts:10-39 | a subscriber got the value current at subscription and then the later revisions, each once and in adoption order, and all of them once nothing is queued |
| Publications.HeldBack | packages/chord/src/publish.ts:20-29 | over any stretch of a run with publications held, a subscriber is called with none; what was adopted meanwhile joins what was on its way, and the drain after release delivers all of it in order |
| Publications.HoldsNest | packages/chord/src/publish.ts:10-39 | nothing is delivered while held, and a release ends just one hold |
| Publications.DrainDelivers | packages/chord/src/publish.ts:31-39 | draining delivers to a subscriber exactly what was on its way to it |
| Publications.FreshIsNeeded | packages/chord/src/cell.ts:28-51 | delivery to a new subscription is in order exactly when no waiting notification names its function |
| Publications.SubscribedAgain | packages/chord/src/cell.ts:40-51 | a concrete run in which a function subscribed again sees a revision twice |
| Publications.SilentAfter | packages/chord/src/cell.ts:40-51 | a function that is not subscribed is called with nothing, whatever was queued for it |
| States.HydratedThenRising | packages/chord/src/state.ts:201-238 | hydration first, then strictly rising sequences; at most 100 waiting; when idle the last value is the publisher's |
| States.RisesPushed | packages/chord/src/state.ts:115-124 | a collapse keeps the order, the hydration and the newest delivery |
| States.PushCollapses | packages/chord/src/state.ts:115-124 | a delivery joins what waits, or, when exactly 100 wait, replaces all but the hydration not yet seen |
| States.NothingLost | packages/chord/src/state.ts:201-238 | a subscriber with never 100 waiting sees or will see every delivery since its hydration, none left out |
| States.StaysGone | packages/chord/src/state.ts:201-238 | who unsubscribed is called with nothing and back only by subscribing |
| States.OneAtATime | packages/chord/src/state.ts:126-160 | a listener is called again only once its call returned, and then if something waits |
| Watches.Watch.Advance | packages/chord/src/watch.ts:304-324 | any frame keeps what waits in agreement with the history, folded, alone or after a failure |
| Watches.Watch.Fail | packages/chord/src/watch.ts:334-343 | a failure drops what waits but not a retirement not reported yet |
| Watches.Watch.Next | packages/chord/src/watch.ts:349-382 | the call has the newest frame's context; its ops turn the value shown before into its own; a root replacement after a failure; a retirement reported |
| Watches.Watch.Turn | packages/chord/src/watch.ts:220-247 | one call while something waits; a watch whose source ended ends once nothing does |
| Watches.Watch.EndAfterDelivery | packages/chord/src/watch.ts:182-186 | ends at once only if nothing waits and no call runs |
| Watches.Watch.Terminate | packages/chord/src/watch.ts:253-266 | ends once, with nothing pending |
| Watches.CopyFollows | packages/chord/src/watch.ts:21-35 | a listener that applies the ops of each value call to its own copy always has the value shown |
| Watches.ReportedNext | packages/chord/src/watch.ts:278-286 | a value call reports a retirement exactly if one came since the value call before, and replaces the root if a failure did |
| Watches.NativeWatch.Advance | packages/chord/src/watch.ts:406-438 | the array with its read index is a queue: the value joins it with its own context, past 100 it collapses to that one, in never more than 398 slots |
| Watches.NativeWatch.Next | packages/chord/src/watch.ts:458-483 | takes the oldest value with its own context, whichever way the array is compacted |
| References.Reaches | packages/chord/src/host.ts:1290-1305 | the worklist says exactly whether a chain of references exists |
| References.Host.Acquire | packages/chord/src/host.ts:544-590 | a reference is refused exactly when its target reaches the holder, and the graph stays acyclic |
| References.NoCycle | packages/chord/src/object.ts:1830-1857 | no chain of references returns to where it began |
| References.DisposeHoldersFirst | packages/chord/src/host.ts:1246-1274 | every object goes once, in non-empty waves, after all its holders in the set; the fallback is never taken |
| AgentLoops.RunAgentLoop | packages/agent/src/agent-loop.ts:111-135 | a finished run says the prompts first, then turn by turn what the turn was prepared with and what was taken from the queues, its answer and the results of its calls, ending after an error, an abort, a decision to end or with nothing left to ask; its events are agent_start (turn)+ agent_end, ended messages, returned messages and context agree, queue messages are appended once in order, every turn is whole, and after a natural stop all that waits in a queue arrived after its last poll |
| AgentLoops.EveryTurn | packages/agent/src/agent-loop.ts:250-296 | each turn_end of such a stream, also under abort, follows its answer and one batch of that answer's calls: the first of them, each started, ended and reported once in order, and all of them if no batch was cut short |
| AgentLoops.Turns | packages/agent/src/agent-loop.ts:187-308 | the inner loop keeps all of that over any number of turns, polls and decisions |
| AgentLoops.OneTurn | packages/agent/src/agent-loop.ts:219-301 | one turn does, its batch included: the messages it adds are those prepared, those pending, its answer and its results; it ends the run exactly after an error, an abort or a decision to end, and asks for another exactly if it had calls not all of which ask to stop |
| AgentLoops.Stream | packages/agent/src/agent-loop.ts:390-479 | the final message takes the place of the newest partial one; events, returned messages and context agree afterwards exactly if the stream began at most once, and then it is once in the context, with one message bracket |
| AgentLoops.SequentialBatch | packages/agent/src/agent-loop.ts:540-594 | the calls started are the first ones in order, all if not aborted, each with one start, one end and one result in that order, each result with its own call's outcome and the progress of each in between |
| AgentLoops.ParallelBatch | packages/agent/src/agent-loop.ts:596-670 | the same for any interleaving of progress and completion, the results in the order of the calls |
| AgentLoops.TruncatedBatch | packages/agent/src/agent-loop.ts:488-513 | the same for calls that are all refused, each result its own refusal |
| AgentLoops.Poll | packages/agent/src/agent.ts:149-180 | a poll takes from the front of its queue, one message or all as the mode says, whatever arrived in either queue before it |
| AgentLoops.DeclaredKeeps | packages/agent/src/agent-loop.ts:342-372 | declaring tool changes neither loses, repeats nor reorders a queued message |
| AgentLoops.SaidOnce | packages/agent/src/agent-loop.ts:342-372 | every message that is not a system message is said once, in order, whether a declared change replaces the last system message or comes first |
| AgentLoops.TranscriptGrows | packages/agent/src/agent.ts:575-588 | the transcript grows by exactly the messages that ended |
| AgentLoops.BatchLeavesNone | packages/agent/src/agent.ts:590-602 | after a batch no tool call is pending |
| AgentLoops.AgentFollows | packages/agent/src/agent.ts:575-613 | after a run the transcript is the one before with the returned messages, equal to the loop's context, and nothing streams |

## Left out

- The delta library, the wire format and the schema compiler: they appear only through the laws stated above.
- Links as transports, pings, clocks, processes and module loading; a link is an ordered queue that either end may close.
- Error state frames, and switching state off and on for a live hold: `Provider` and `Binding` follow holds whose state stays wanted and whose values are valid.
- `Relaying.Relay`: uses the same hold id on both sides, and its connection carries relayed holds only.
- `DirectLink.Init`: a re-hold is a fresh connection whose binding keeps its earlier values; releasing the observed hold ends the run.
- The flush after an ack or a resync is a step of its own per slot in the runs; `Connection.Flush` is the loop.
- Principals, routes, authorization, and calls other than their admission order.
- Reload inside a host other than the gate: factories, resources, registries, the compatible path's derivations, a commit that throws.
- `Clusters`: which modules a child is given, names, and the version a fenced child's roots are admitted in are not modelled; server retirement may happen at any time, so "still running" is "still retained by the server".
- Events a gate queues for listeners, and object disposal during a gate.
- `Schemas.CleanFrom`: the object an `allOf` of object schemas is merged into is not modelled; schemas with `allOf` are outside the fragment.
- `Schemas.CleanObject`: records of `patternProperties` are not modelled; schemas with them are outside the fragment.
- `Relaying.QuietChainEqual`: leaves open whether the binding behind a relay holds the member; `RelayedViews.QuietMeansEqual` proves it for bindings with the provider's contract, as both ends of a hold have.
- Schemas with `patternProperties`, `allOf`, function types, an `items` schema after `prefixItems`, boolean schemas elsewhere, or other keywords, on either side; default values; canonical JSON and hashing, taken as equality.
- `Schemas.KeepsExactly`: says nothing of a consumer with an `anyOf` branch that does not keep the promise, since other branches may take the values that break it.
- `Schemas.AsIsExactly`: is about one open object schema whose named fields have nothing to strip inside; `FitsCleaned` and `ResultsAccepted` cover stripped values at any depth.
- Fields named `__proto__`, which the deep copy before cleaning drops, and an empty `required`, taken as an absent one.
- `Schemas.FitsSound`: assumes `Keeping` of the consumer, which is necessary (`Schemas.KeepsExactly`), and `Sane`: constants and enum values are scalar and satisfy their own schema, `anyOf` stands alone, `required` names properties, `additionalProperties` is not `true`, there is no `uniqueItems` or `minProperties`, and a tuple is no shorter than its `minItems`.
- `Schemas.Covers`: says whether there is a reason against a provider, not which comes first.
- `sanitizeOutput`, the byte decoder in front of the output buffer, and progress pacing; chunks arrive as text, and RFC 3629's rules for second bytes are not needed.
- Derivations over sources of other objects, and precomputed values of a reload.
- `Watches.Watch`: the source's contract that a frame's ops turn the value before into its own is assumed; folding ops is concatenation until an overflow, which may happen at any frame.
- `Publications` and `States`: step systems over values instead of objects, because their listeners run inside their loops.
- `Gates` and `Clusters`: step systems over values for the same reason; in-place update is not captured there.
- The agent's hooks that throw or replace the context, tool preparation and execution themselves, and `continue` from queued messages, which is a run with those as prompts.
- `AgentLoops.RunAgentLoop`: the answers' streams begin at most once each, as the providers' streams do (`AgentLoops.Stream` says what happens otherwise); a script that ends early leaves the run unfinished; nothing says that every run ends.
