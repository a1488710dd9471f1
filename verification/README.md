# Verified model of the IEC 61850 binding

The repository binds an MMS / IEC 61850 protocol engine to Python. The engine itself lives in crates outside the
repository. This project models the logic that is in the repository and proves properties of it, in Dafny 4.11;
`dafny verify dfyconfig.toml` checks all of it.

| file | what it models |
|---|---|
| `Common`, `Text`, `Bytes` | results and exceptions, the string operations and the big-endian numbers the rest is made of |
| `ServerState` | the registration queue of a hosted server, its states, and the sections under the state lock |
| `Replay` | what a start does with the queue it took, pass by pass |
| `RegistrationLaws` | which failures cannot happen, conservation of registrations, order of the listener |
| `StartLog` | what a start has done, call by call, told from the queue, the address and the TLS configuration alone |
| `ReplayRefinement` | queuing and starting against registering on the running server |
| `HostedServer` | the server object: user paths to registrations, registration, bind, start, stop |
| `Lifecycle` | starts, stops and destructors in every interleaving |
| `ControlSettings` | the deferred settings of a control object, their application, and the object as one caller has it |
| `ControlMachine` | commands and setters of one control object in every interleaving: guards, queue, where a recorded value ends up |
| `ControlOrder` | deferred setters against immediate ones: what a command is sent with, and exactly when that is the immediate setting |
| `IedModel`, `PathIndex`, `PathNames`, `PathTranslation` | the model tree, the flat path index, what a path names in the tree, and the keys made of user paths |
| `MmsValues`, `BitStrings`, `GenericConversion`, `ShapedConversion` | the value converters |
| `ConversionTables`, `ShapedTables` | the converters told case by case, apart from how they are computed |
| `References` | the data set member references, composed in Python and decomposed in Rust |
| `UtcTime`, `Ber`, `Tpkt` | the UtcTime decoder, the BER codec (X.690 sections 8.1.2 and 8.1.3) and the TPKT framing (RFC 1006 section 6) of the loopback peer |

How the parts that are not in the repository enter:

* The native server is a log of the calls made on it and a function that says whether the next call is accepted. The
  function is a parameter, so a theorem about starts holds for every way in which calls can be refused. What the calls
  leave installed is read off the log: per key the last one wins, and the model's own control objects go in only where
  none is registered.
* Handles, callbacks and addresses are opaque; the handle a listener opens with is a parameter.
* Binary32 and binary64 numbers are terms of which only one thing is known: narrowing undoes widening.
* A step of the concurrent machines is what a task does under one lock, or between two suspension points. The lock of a
  control object is fair, as the runtime's is: a command is suspended only when it cannot have its guard at once, new
  commands do not pass a writer that waits, and whoever waits is served in order.

## What the proofs found

Where the code and its documentation differ, the model follows the code.

* `decompose_reference` documents two shapes outside the inverse (`src/lib.rs:512-516`): an empty component, and a base
  that already carries a parenthesised decimal. There are two more. A base with parentheses that hold no decimal is lost
  as soon as an index is added to it (`ParenthesisedBaseLost`), and an index above 4294967295 comes back as part of the
  base. `ReferenceRoundTrip` gives the exact condition.
* The key of a read or write handler does not name the logical device, so the same path below two devices is one key:
  `HandlerKeyCollisions` says exactly when two paths share one.
* A log control block is stored under its domain and its item, and looked up under the two halves of its MMS path. The
  two agree exactly when the domain holds no `/` (`LogKeysAgree`). A path shares its key with another
  exactly when its item can be read in a second way around `$LG$`, or another device has the same domain
  (`LogKeyShared`).
* A dict for a constructed attribute is looked at only for its size and for each member name. With a repeated member name
  the dict of exactly the member names is refused (`RepeatedNamesRefused`), and one is accepted only with a key that
  names no member (`MembersNamed`).
* A plain `BINARY TIME` leaf takes octets of any length, while its error message asks for 4 or 6; the tagged form does
  check. A leaf given a tagged dict takes a value of any variant, so `AcceptedConforms` speaks of inputs without one.
* A bit string never survives the way out and back in through a shaped attribute: it goes out as its octets, and is
  taken only as a pair (`ShapedUndoesToPy`).
* A command on a control object is sent, setting by setting, with what setting at once would have given exactly when the
  last command to apply such a setting gives what the last one to begin with such a setting took (`SentExactly`). That
  holds while no command begins between the take and the application of another, and none is dropped while it waits
  (`CommandSeesImmediate`, `SentThroughout`); commands that are on their way are no obstacle. Otherwise it may not: from every state in which
  a command has yet to apply a new origin and a shared guard can be had, the command that begins next may be sent with
  another origin than the immediate one (`OvertakenSeesOldOrigin`), and an overlap leaves its mark on a later command that
  is alone (`EarlierOverlapStays`). While a command is on its way, the settings of one that waits for its guard and is
  dropped are lost (`AbandonedSettingsLost`). Commands one at a time never wait, so they lose nothing
  (`OneAtATimeIsSerial`).
* A stop, or a destructor, that comes while a start is in flight changes nothing (`StopDuringStart`), and the start can
  still come up (`StartComesUp`).

## Model

| member | source | states |
|---|---|---|
| `ServerState.EnqueueAccepts` | src/lib.rs:7470-7486 | a registration is refused exactly when appending it would break the queue invariant, with the exception of the condition it breaks; a setting group handler never is and takes the place of an earlier one |
| `ServerState.EnqueueKeepsInv` | src/lib.rs:7617-7634 | distinct data set names, block paths and setting group domains, at most one from-model entry, every report after the data set it names: kept by every accepted registration |
| `ServerState.RetainKeepsInv` | src/lib.rs:8017-8027 | dropping the earlier handler of a domain keeps the invariant of the queue |
| `ServerState.RetainSlots` | src/lib.rs:8017-8027 | `retain` frees the domain it is called for and no other claim |
| `ServerState.RetainExactly` | src/lib.rs:8017-8019 | `retain` keeps every other entry as often as it is there |
| `ServerState.ClaimsExactly` | src/lib.rs:7472-7474 | which queued entries claim a name, a path, a domain or the model |
| `ServerState.StartedAnswers` | src/lib.rs:7206-7231 | what a running or stopped server answers to each kind of registration, with which exception, and the one call more that a taken one is |
| `ServerState.CallsCarry` | src/lib.rs:7216-7225 | the call of a registration carries what was registered |
| `Replay.ExtractAuthenticator` | src/lib.rs:4233-4243 | the last authenticator of the queue counts, `None` included; the others are taken out and the order of the rest is kept |
| `Replay.InstallAndSort` | src/lib.rs:4258-4310 | the first pass makes exactly the handler and control calls of the queue in queue order, stops at the first that is refused, and sorts every other entry by kind |
| `Replay.RegisterReports` | src/lib.rs:4315-4349 | a report pass registers each report with the data set it names, and collects exactly the names used |
| `Replay.RegisterStandalone` | src/lib.rs:4350-4357 | the third pass registers the data sets no report named, in order |
| `Replay.RunBlockPasses` | src/lib.rs:4312-4393 | the later passes in the order unbuffered reports, buffered reports, data sets, logs, setting groups, model blocks, listener |
| `Replay.ReplayQueue` | src/lib.rs:4233-4393 | everything a start does between its two locked sections, for every native server: the calls made and the error that stopped them |
| `RegistrationLaws.InvMakesReady` | src/lib.rs:4317-4342 | in a queue that keeps its invariant every report finds its data set |
| `RegistrationLaws.StartOutcome` | src/lib.rs:4317-4342 | the two unknown-data-set failures of a start are unreachable; a start makes exactly the planned calls, or a prefix of them up to the one the native server refuses |
| `RegistrationLaws.ListenerOpensLast` | src/lib.rs:4385-4393 | the listener opens after every registration, the model's own blocks right before it, and in no start that fails |
| `RegistrationLaws.StartConserves` | src/lib.rs:4258-4393 | on a successful start every queued read, write, control, report, log and setting group entry is applied exactly once and nothing else is, standalone data sets and the frame of the start apart |
| `RegistrationLaws.DataSetsCarriedOrAlone` | src/lib.rs:4315-4357 | every queued data set is registered once per report that names it, or once on its own when none does, never both |
| `StartLog.StartLogged` | src/lib.rs:4197-4401 | a successful start has had each call as often as the queue, the address and the TLS configuration ask for and no other, in the order of the passes and within each kind in the order of the queue, every call taken in turn; a failed one was stopped by a call that was refused, with the exception of that call |
| `StartLog.BuildComesFirst` | src/lib.rs:4245-4256 | exactly one build, on the address bound, secured exactly when TLS is configured, with that configuration loaded right before it and nothing else, and the authenticator set last; every other call comes after, the listener last |
| `ReplayRefinement.DirectIsSummary` | src/lib.rs:7206-7231 | registrations made on a running server leave per key the last one, and the last authenticator |
| `ReplayRefinement.QueueAllKeepsInv` | src/lib.rs:7472-7484 | the queue invariant holds after every sequence of registration calls, refused ones included |
| `ReplayRefinement.EnqueueIsApply` | src/lib.rs:8012-8043 | queuing a registration of any kind has the effect of its call, also where the queue replaces or refuses |
| `ReplayRefinement.QueueSummary` | src/lib.rs:8012-8043 | for every sequence of registrations of every kind, de-duplication by `retain` and refusals lose nothing: the queue has the summary of the registrations that filled it |
| `ReplayRefinement.PlanInstallsSummary` | src/lib.rs:4233-4393 | the passes of a start install the summary of the queue, despite sorting by kind and taking the authenticator out |
| `ReplayRefinement.QueuedIsDirect` | src/lib.rs:4197-4401 | for every sequence of registrations of every kind, queuing and starting leaves the handlers, control objects, setting group callbacks and authenticator that the same calls leave on a running server, where data sets, reports and logs are refused |
| `ReplayRefinement.DirectMeansQueued` | src/lib.rs:4197-4401 | where earlier calls matter only to the registration of blocks, as for a block already registered, a server that takes the registrations one by one also starts with them queued, and the same is installed |
| `ReplayRefinement.RegistrationTakesEffect` | src/lib.rs:7206-7231 | an accepted registration has the same effect whether it is queued or made at once |
| `ReplayRefinement.StartKeepsEffect` | src/lib.rs:4197-4401 | a successful start changes nothing of what is in effect |
| `ReplayRefinement.KeyErrorMeansGroup` | src/lib.rs:4317-4386 | a start raises a KeyError only for a queued setting group handler that the native server refuses, never for a data set |
| `ReplayRefinement.QueuedReportPlanned` | src/lib.rs:4315-4349 | a start makes the call of every queued report, with a queued data set of the name it gives |
| `HostedServer.IedServer.constructor` | src/lib.rs:4147-4160 | a new server has the index of its model and an empty queue |
| `HostedServer.IedServer.Register` | src/lib.rs:7206-7231 | one registration as one step: queued, called or refused according to the state, and the invariant kept |
| `HostedServer.IedServer.OnRead` | src/lib.rs:7192-7231 | served exactly when the path names a data attribute and the state takes the call, under the key of its node, its functional constraint and its names, which leads back to the path; after it the attribute has this reader, queued or installed, and nothing else in effect has changed |
| `HostedServer.IedServer.OnWrite` | src/lib.rs:7387-7426 | likewise for the writer of an attribute |
| `HostedServer.IedServer.OnControl` | src/lib.rs:7292-7353 | served exactly with a callback, a path that resolves and a server not stopped, each refusal with its exception; after it the control object has these callbacks and settings and nothing else has changed |
| `HostedServer.ControlPathResolves` | src/lib.rs:4487-4519 | exactly when a control path resolves, to what, and with which exception it does not |
| `HostedServer.ControlKeysDistinct` | src/lib.rs:4487-4519 | with distinct domains no two paths name the same control object |
| `HostedServer.IedServer.AddDataset` | src/lib.rs:7441-7491 | the entries are resolved one after the other, the first failure ends the call with the state unchanged |
| `HostedServer.DatasetPrepared` | src/lib.rs:7441-7484 | a data set is accepted for queuing exactly when it has a name, an entry, and all its paths resolve in one domain; it then has one entry per path in order |
| `HostedServer.DatasetRefused` | src/lib.rs:7441-7466 | why a data set is refused, and with which exception: the first path that does not resolve or lies in another domain |
| `HostedServer.IedServer.RegisterUrcb` | src/lib.rs:7588-7651 | taken exactly before the start, with a queued data set and a block that is not queued; it is queued with the name, data set and settings given, and every start from there makes its call with the data set of that name; nothing in effect changes |
| `HostedServer.IedServer.RegisterBrcb` | src/lib.rs:7672-7748 | likewise for a buffered report, which needs a buffer capacity |
| `HostedServer.IedServer.RegisterLogControl` | src/lib.rs:7792-7855 | taken exactly before the start, with a capacity other than zero and a block that is not queued; every start from there registers it with the name, data set and settings given, under the key of its path |
| `HostedServer.IedServer.RegisterSettingGroupHandler` | src/lib.rs:8002-8049 | served exactly for a device of the model whose call the state takes; after it its domain has the callbacks given, each in its place, whatever it had, and nothing else has changed |
| `HostedServer.IedServer.RegisterModelBlocks` | src/lib.rs:7523-7558 | once before the start, as the native server likes after; the model's control objects come in under those that were registered |
| `HostedServer.IedServer.InstallAuthenticator` | src/lib.rs:6880-6905 | refused only once stopped; after it this authenticator is the one in effect |
| `HostedServer.IedServer.Bind` | src/lib.rs:6604-6618 | an address that does not parse is refused in any state, any other once the server was started; a refusal leaves the state alone |
| `HostedServer.IedServer.Start` | src/lib.rs:4197-4401 | a start that succeeds has a complete log on the address bound with the TLS configured, every call taken in turn, and has changed nothing of what is in effect; one that fails was stopped by a refused call, no KeyError is about a data set, and it leaves the state as it was or the server stopped |
| `HostedServer.IedServer.Stop` | src/lib.rs:4403-4418 | a running server is stopped and its handle, which is there, given out; any other state is left alone with an error |
| `HostedServer.RequestKeepsInv` | src/lib.rs:7470-7486 | no request of any kind, accepted or refused, breaks the queue invariant |
| `Lifecycle.StepKeepsInv` | src/lib.rs:4203-4231 | every step of start, stop, destructor and registration keeps: one start past the lock, one listener, one owner of its handle |
| `Lifecycle.OneStartOneHandle` | src/lib.rs:4203-4418 | in every interleaving at most one start ever gets past the lock, at most one listener opens, its handle is in exactly one place and is closed at most once |
| `Lifecycle.StoreReplacesPlaceholder` | src/lib.rs:4395-4400 | the final store of a start only ever replaces the placeholder, never a live handle |
| `Lifecycle.StoppedForGood` | src/lib.rs:4403-4418 | once stopped with no start in flight, always stopped |
| `Lifecycle.StopTakesHandle` | src/lib.rs:4403-4418 | a stop or destructor takes the handle of a running server, and of no other, and closes what it took |
| `Lifecycle.StartRefusedAtLock` | src/lib.rs:4211-4231 | a start is refused at the lock exactly when it has no address or the server was started before, and then leaves the state exactly as it was |
| `Lifecycle.FailedStartStops` | src/lib.rs:4203-4393 | a start that fails past the lock leaves the server stopped for good |
| `Lifecycle.StopDuringStart` | src/lib.rs:4729-4743 | a stop or destructor during a start gets nothing and changes nothing: the start stays in flight as it was |
| `Lifecycle.StartComesUp` | src/lib.rs:4393-4400 | every run with a start in flight goes on to a running server, whatever stops came between |
| `Lifecycle.RegistrationIsConfigure` | src/lib.rs:7206-7231 | every registration is a step of the machine that keeps the lifecycle state |
| `Lifecycle.StartIsItsSteps` | src/lib.rs:4197-4401 | a start of the server object is one, two or three steps of the machine: refused at the lock, failed past it, or come up |
| `ControlMachine.StepKeepsGuards` | src/lib.rs:2308-2322 | exclusive and shared guards never overlap, also across the downgrade |
| `ControlMachine.GuardedSettingsStable` | src/lib.rs:2303-2323 | in every interleaving the origin and the SBO class do not change while a command holds its guard |
| `ControlMachine.WaitsForAnother` | src/lib.rs:2309-2319 | a command waits only for another that holds a guard or waits as well |
| `ControlMachine.WriterNotPassed` | src/lib.rs:2309-2319 | nobody passes a command that waits for the exclusive guard: one that gets a guard was waiting ahead of it |
| `ControlMachine.RunKeepsCalls` | src/lib.rs:2307-2329 | in every interleaving each recorded value is pending, overwritten by a later call of the same setter, or taken by exactly one command, and is the value its call gave |
| `ControlOrder.ConsumedOnce` | src/lib.rs:2307-2322 | a value once taken is never pending again and no other command applies it |
| `ControlSettings.RecordThenApply` | src/lib.rs:2325-2385 | recording a setting and applying it later is setting it on top of what was recorded before |
| `ControlSettings.ExclusiveWhenNeeded` | src/lib.rs:2280-2282 | the exclusive guard is asked for exactly when the settings could change the origin or the SBO class |
| `ControlOrder.RunKeepsOrder` | src/lib.rs:2303-2323 | in every interleaving the handle is what was taken in the order of application, and setting at once gives what was taken in the order of begin with what is pending on top |
| `ControlOrder.SentExactly` | src/lib.rs:2303-2323 | for all runs and each setting: a command is sent with what setting at once up to its begin would have given exactly when the last command to apply such a setting gives what the last one to begin with such a setting took |
| `ControlOrder.OwnSettingsSent` | src/lib.rs:2303-2323 | in every interleaving a command is sent with every setting that was pending when it began |
| `ControlOrder.InOrderSeesImmediate` | src/lib.rs:2303-2323 | overlapping commands that apply in the order they began are sent with the immediate settings |
| `ControlOrder.FromBeginSeesImmediate` | src/lib.rs:2303-2323 | so is a command that finds everything taken so far applied in order and is not overtaken by a later one |
| `ControlOrder.CommandSeesImmediate` | src/lib.rs:2303-2323 | where no command begins between the take and the application of another and none is dropped while it waits, a command is sent with every setter called before its begin applied and none called after; any number of commands may be on their way |
| `ControlOrder.SentThroughout` | src/lib.rs:2303-2323 | and it stays so while the command is on its way: origin and SBO class whatever others do, the other settings until another command applies its own |
| `ControlOrder.OneAtATimeIsSerial` | src/lib.rs:2307-2322 | commands that come one at a time meet that condition, dropped ones included |
| `ControlOrder.OvertakenSeesOldOrigin` | src/lib.rs:2307-2322 | from every reachable state with an origin taken and not applied, nothing exclusive pending and a shared guard to be had, a continuation sends the next command with an origin other than the immediate one |
| `ControlOrder.OverlapSeesOldOrigin` | src/lib.rs:2307-2322 | such a state is reached by one setter and one begin |
| `ControlOrder.EarlierOverlapStays` | src/lib.rs:2307-2322 | an overlap that applied two origins in the wrong order is still seen by a later command that is alone |
| `ControlOrder.DroppedNeverApplied` | src/lib.rs:2307-2319 | in every interleaving what a command took is never applied by any command nor pending again once it is dropped while it waits |
| `ControlOrder.AbandonedSettingsLost` | src/lib.rs:2307-2319 | from every reachable state with a command on its way and no writer waiting: a new origin is lost with a command that waits for its guard and is dropped, and the next command is sent without it |
| `ControlSettings.ControlObjectClient.Apply` | src/lib.rs:2325-2385 | a setter leaves the handle alone and is due from then on |
| `ControlSettings.ControlObjectClient.PrepareCommand` | src/lib.rs:2303-2323 | after it nothing is pending and the handle is the one of immediate setters |
| `PathIndex.IndexBuilder.WalkDaChildren` | src/lib.rs:4178-4184 | the recursive walk adds exactly the entries of the attributes below |
| `PathIndex.IndexBuilder.WalkDoChildren` | src/lib.rs:4162-4176 | likewise for the children of a data object, sub-data objects having no entry of their own |
| `PathIndex.BuildPathIndex` | src/lib.rs:4147-4160 | the index built in place is the one the tree defines |
| `PathIndex.NodeIndexIsWalk` | src/lib.rs:4162-4184 | below any prefix a path is indexed exactly when following it name by name reaches an attribute |
| `PathIndex.PathIndexIsLookup` | src/lib.rs:4147-4184 | with distinct siblings and `.`-free names the index is the tree lookup, on every path |
| `PathIndex.PathIndexSize` | src/lib.rs:4147-4184 | one entry per attribute of the tree: no two paths clash |
| `PathNames.IndexHoldsNamed` | src/lib.rs:4147-4184 | the index holds exactly the attributes that paths name in the model tree, told on the tree itself |
| `PathTranslation.HandlerKeyLeadsBack` | src/lib.rs:4698-4720 | a path has a handler key exactly when it names an attribute; the segments of the key are the node, the functional constraint of the attribute and the names below; with its device the key gives the path back |
| `PathTranslation.HandlerKeyCollisions` | src/lib.rs:4698-4720 | two paths share a key exactly when they are the same below their devices under the same constraint; so never within one device |
| `PathTranslation.DatasetEntryPathsDistinct` | src/lib.rs:4524-4556 | with distinct `/`-free domains a data set entry reference is the domain of the device and the handler key, and names one path of the model |
| `PathTranslation.ResolveParts` | src/lib.rs:4607-4641 | a block path put together from its parts resolves to them |
| `PathTranslation.BlockPathExactly` | src/lib.rs:4607-4641 | exactly when a control block path resolves, to what, and with which exception it does not |
| `PathTranslation.LogKeysAgree` | src/lib.rs:7862-7886 | the key a log control block is stored under, the key that is looked up, and that they are the same exactly when the domain holds no `/` |
| `PathTranslation.LogKeysDistinct` | src/lib.rs:7803-7822 | with distinct `/`-free domains and `$`-free logical node names no two paths share a log key |
| `PathTranslation.LogKeyShared` | src/lib.rs:7913-7943 | with a `/`-free domain, a path shares its key with another of any device exactly when its item reads around `$LG$` in a second way or another device has the same domain |
| `BitStrings.ClearTrailingBits` | src/lib.rs:6189-6318 | bit by bit: the trailing padding is zero, everything else is as it was |
| `BitStrings.ClearInPlace` | src/lib.rs:6189-6318 | only the last octet is rewritten |
| `GenericConversion.FromBitFieldsCanonical` | src/lib.rs:6147-6177 | an accepted bit string has a padding of 0 to 7, 0 when empty, and the octets given but for the cleared bits |
| `GenericConversion.GenericProducible` | src/lib.rs:2580-2615 | whatever is accepted has canonical bit strings, 8-octet UTC times and 4- or 6-octet binary times at every depth |
| `GenericConversion.TagConverts` | src/lib.rs:6189-6318 | the tagged form of a value converts to it, through the mutual recursion with the plain form |
| `GenericConversion.GenericReach` | src/lib.rs:2580-2615 | the values some Python value converts to are exactly those |
| `ConversionTables.PlainUndoesToPy` | src/lib.rs:2580-2615 | every boolean, signed integer, Float32, visible string, octet string and array of such is reached by what it is seen as from Python |
| `ConversionTables.PlainExactly` | src/lib.rs:2580-2615 | a value without dicts is accepted exactly when it is plain at every depth, and gives the value with a plain form that is seen as it |
| `ConversionTables.OutwardExactly` | src/lib.rs:3109-3136 | what every value is seen as from Python, bit strings as their octets and arrays and structures alike as lists |
| `ConversionTables.IntegersExactly` | src/lib.rs:2587-2589 | integers are taken exactly in the range of their type, booleans as 0 and 1 |
| `ConversionTables.BitsExactly` | src/lib.rs:6280-6294 | which bit string comes from which padding and octets, and when none does |
| `ConversionTables.TaggedNumbers` | src/lib.rs:6216-6240 | the tagged booleans and numbers, tag by tag |
| `ConversionTables.TaggedTexts` | src/lib.rs:6241-6250 | the tagged strings |
| `ConversionTables.TaggedOctets` | src/lib.rs:6251-6279 | the tagged octets, with the lengths of the two times |
| `ConversionTables.TaggedBits` | src/lib.rs:6280-6294 | the tagged bit string, made from its two fields |
| `ConversionTables.TaggedOthers` | src/lib.rs:6209-6312 | the default of a known attribute type, and the structure of its components in order |
| `ConversionTables.UnknownTagRefused` | src/lib.rs:6194-6317 | a dict without a tag, or with an unknown one, is refused |
| `ShapedConversion.ShapedUndoesToPy` | src/lib.rs:2627-2770 | for every attribute and every conforming value the shaped conversion undoes the outward one, variants included, exactly when there is no bit string in it |
| `ShapedTables.ShapedUndoesPaired` | src/lib.rs:2627-2770 | with each bit string written as the pair of its octets and its padding, every conforming value comes back, at every depth |
| `ShapedTables.ShapedExactly` | src/lib.rs:2627-2770 | for every input, every attribute and every value: exactly when the conversion gives it, tagged leaves, defaults and refusals included |
| `ShapedTables.LeafExactly` | src/lib.rs:2701-2769 | what each plain value stands for at each kind of leaf |
| `ShapedConversion.DictIsList` | src/lib.rs:2632-2695 | for every constructed attribute the dict form is the list form in model order exactly when it has as many entries as there are members and one under each member name, and is refused otherwise |
| `ShapedConversion.MembersNamed` | src/lib.rs:2632-2695 | with distinct member names that is having exactly these as keys; with a repeated one it takes a key that names no member |
| `ShapedConversion.RepeatedNamesRefused` | src/lib.rs:2632-2695 | with a repeated member name the dict of exactly the member names is refused |
| `ShapedConversion.DictsAreLists` | src/lib.rs:2627-2770 | at every nesting depth the dict form is read as the list form |
| `ShapedConversion.AcceptedConforms` | src/lib.rs:2627-2770 | an accepted input without tagged leaves has become a value of the attribute's shape |
| `ShapedConversion.ShapedBitStrings` | src/lib.rs:2627-2770 | every bit string that comes out at any depth is canonical, tagged input included |
| `References.ReferenceRoundTrip` | src/lib.rs:517-537 | for every selection that composes, decomposing gives it back exactly when it is recoverable: no `(` in a base with an index, the index in 32 bits, the component not empty |
| `References.DecomposeRebuilds` | src/lib.rs:506-537 | whenever an index is reported the parts rebuild the reference up to the spelling of the decimal |
| `References.DecomposeComposeStable` | python/iec61850/_facade.py:46-57 | composing what any reference decomposed to, and decomposing again, changes nothing |
| `References.CreateDataSet` | python/iec61850/_facade.py:872-876 | the encoded list, or the exception of the first member that does not compose |
| `References.ReadDirectory` | python/iec61850/_facade.py:898-910 | one member per reference held, in order |
| `References.CloneReadsBackEqual` | python/iec61850/_facade.py:863-911 | the directory of any data set, used to create another, reads back equal |
| `References.CreatedReadsBack` | python/iec61850/_facade.py:863-911 | a member list reads back as written exactly when every member is recoverable |
| `References.ParenthesisedBaseLost` | src/lib.rs:512-537 | a base with parentheses around no decimal comes back alone, but with no index |
| `References.DecomposeExactly` | src/lib.rs:517-537 | exactly when an index is reported, and which parts |
| `References.ComposeAccepts` | python/iec61850/_facade.py:46-57 | a selection composes exactly with an index that is not negative, or with neither index nor component |
| `References.EncodedExactly` | python/iec61850/_facade.py:872-876 | a member list is encoded exactly when every member composes, in order and with its constraint |
| `References.PlusIsTaken` | src/lib.rs:524-526 | the numeral may carry a plus sign and nothing else but digits |
| `UtcTime.DecodeIsTight` | python/iec61850/_facade.py:91-105 | microseconds below a million, and the decoded instant below the exact one by less than one |
| `UtcTime.DecodeIsMonotone` | python/iec61850/_facade.py:91-105 | monotone in the first seven octets as a number, whatever the quality octet |
| `UtcTime.EveryInstantIsDecoded` | python/iec61850/_facade.py:91-105 | every microsecond of every second of the range is decoded from some octets |
| `UtcTime.EightOctets` | python/iec61850/_facade.py:91-105 | eight octets are taken and no other number |
| `Ber.ReadTlvAt` | tests/_iso_peer.py:206-222 | the loop that moves through the octets reads what the positions define, end of buffer included |
| `Ber.TlvAccepts` | tests/_iso_peer.py:193-203 | a value is encoded exactly when it has at most 65535 octets |
| `Ber.LengthIsShortest` | tests/_iso_peer.py:193-203 | the length octets are the shortest of X.690 section 8.1.3 |
| `Ber.LengthRead` | tests/_iso_peer.py:213-221 | any length octets of that section are read, shortest or not |
| `Ber.ReadTlvInContext` | tests/_iso_peer.py:193-222 | reading at the start of an encoding anywhere in a buffer gives its first tag octet, value and exact end |
| `Ber.CutInValue` | tests/_iso_peer.py:206-222 | an encoding that breaks off in its value is read with what is there, up to the end it announces |
| `Ber.CutInTag` | tests/_iso_peer.py:206-222 | one that breaks off in its identifier or right after it is an IndexError |
| `Ber.ScanFindsFirst` | tests/_iso_peer.py:291-300 | on any run of fields the scan gives the first one tagged 0xA0, or fails when there is none |
| `Ber.ExtractMms` | tests/_iso_peer.py:291-300 | the scanning loop terminates and answers what the scan defines |
| `Ber.PayloadRoundTrip` | tests/_iso_peer.py:225-228 | a payload can be sent exactly when it has at most 65524 octets, and comes back from the session data SPDU that carries it |
| `Ber.PresentationParts` | tests/_iso_peer.py:225-228 | the layers of user data: the tags, the context and the payload, and nothing else |
| `Ber.MmsFound` | tests/_iso_peer.py:291-300 | the PDU is found behind any four octets, whatever the tags around the fields are |
| `Tpkt.Socket.RecvExact` | tests/_iso_peer.py:348-355 | exactly the octets asked for, or the end of the stream, however the stream is cut |
| `Tpkt.Socket.RecvTpdu` | tests/_iso_peer.py:357-360 | one TPDU off the stream |
| `Tpkt.FrameAccepts` | tests/_iso_peer.py:362-366 | a TPDU is framed exactly when it has at most 65531 octets |
| `Tpkt.FrameOctets` | tests/_iso_peer.py:362-366 | a frame is version 3, a zero, its own length in two octets and the TPDU |
| `Tpkt.ReceivedExactly` | tests/_iso_peer.py:357-360 | what is received from any stream: the length counts, the first two octets are not looked at, short lengths and broken streams included |
| `Tpkt.FramesComeBack` | tests/_iso_peer.py:53-56 | the octets of a list of frames, in whatever pieces, decide the list |
| `Tpkt.ReceiveFrames` | tests/_iso_peer.py:348-366 | receiving from any pieces of the concatenated frames returns exactly the TPDUs sent |

## Left out

- The reporting, control, setting group, journal and association state machines, and the MMS PDUs: they are in crates
  that are not part of this repository.
- Sockets, TLS, the two event loops and the GIL; a lock is an atomic section, a future is a sequence of steps.
- Error messages: only the class of an exception is modelled, and every refusal by the native server but that of a
  setting group is one class.
- Token tables and flag packings (control models, SBO classes, trigger options, quality bits, write masks): finite
  tables that would add easy members only. The model takes the decoded settings.
- The server settings that only change the configuration (edition, limits, write policies), and how the text of a bind
  address is parsed.
- `ReportDispatcher`, `JournalQuery`, the connect confirm and the session accept of the peer, and the version check of
  `_read_tpkt`: they would add easy members only.
- Surrogate code points in Python strings, and integer-like objects other than `int` and `bool`.
- ReplayRefinement.DirectMeansQueued: takes it that only the registration of blocks depends on earlier calls, and leaves
  out data sets, reports and log control blocks, which the running server refuses; for these `StartConserves` and
  `DataSetsCarriedOrAlone` say what a start does.
- HostedServer.IedServer.Register: is one step. The source lets go of the state lock before the native call for setting
  groups and the model's own blocks (`src/lib.rs:7547`, `8031`), so there a stop may come between; the call then changes
  nothing of the state.
- ControlMachine.GuardedSettingsStable: the settings that need no exclusive guard are applied in one step, so two
  overlapping commands under shared guards do not mix theirs field by field.
- ReplayRefinement.PlanInstallsSummary: the model's own blocks are followed for control objects only, since they are the
  only ones that share a registry with queued entries of the compared kinds.
- Lifecycle.OneStartOneHandle: says that a handle is in one place, not that a listener is closed when its owner is gone;
  a destructor may come at any time.
- PathIndex.BuildPathIndex: the index holds the attribute itself where the source refers into the pinned tree,
  so identity of attributes with equal contents is not modelled.
- UtcTime.DecodeIsTight: the instant is seconds and microseconds since the epoch; the calendar of `datetime` is not
  modelled.
