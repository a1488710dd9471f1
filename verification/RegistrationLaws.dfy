/** Laws of a start: which failures cannot happen, that nothing queued is lost or applied twice, and that
    everything is in place before the listener opens. */
module RegistrationLaws {
  import opened Common
  import opened ServerState
  import opened Replay

  // Reports find their data sets.

  lemma {:induction false} DatasetSlots(q: seq<Pending>, name: string)
    ensures HasSlot(q, DatasetName(name)) <==> FindDataset(Pick(q, AsDataset), name).Some?
  {
    if q != [] {
      DatasetSlots(q[1..], name);
      HasSlotHead(q, DatasetName(name));
    }
  }

  ghost predicate AllFound(reports: seq<Report>, datasets: seq<Dataset>) {
    forall r <- reports :: FindDataset(datasets, r.datasetName).Some?
  }

  /** In a queue that keeps its invariant every report names a queued data set. */
  lemma {:induction false} ReportsNameQueued(q: seq<Pending>, all: seq<Pending>)
    requires QueueInv(q)
    requires forall s :: HasSlot(q, s) ==> HasSlot(all, s)
    ensures AllFound(Pick(q, AsUrcb), Pick(all, AsDataset)) && AllFound(Pick(q, AsBrcb), Pick(all, AsDataset))
  {
    if q != [] {
      var init, last := q[..|q| - 1], q[|q| - 1];
      assert q == init + [last];
      forall s | HasSlot(init, s) ensures HasSlot(all, s) { HasSlotSnoc(init, last, s); }
      ReportsNameQueued(init, all);
      PickAppend(init, [last], AsUrcb);
      PickAppend(init, [last], AsBrcb);
      if last.Urcb? || last.Brcb? {
        HasSlotSnoc(init, last, DatasetName(last.report.datasetName));
        DatasetSlots(all, last.report.datasetName);
      }
    }
  }

  function ReportCalls(reports: seq<Report>, datasets: seq<Dataset>, buffered: bool): (calls: seq<Call>)
    requires AllFound(reports, datasets)
    ensures |calls| == |reports|
  {
    if reports == [] then []
    else [ReportCall(reports[0], FindDataset(datasets, reports[0].datasetName).value, buffered)] +
         ReportCalls(reports[1..], datasets, buffered)
  }

  lemma {:induction false} ReportStepsAreCalls(reports: seq<Report>, datasets: seq<Dataset>, buffered: bool)
    requires AllFound(reports, datasets)
    ensures ReportSteps(reports, datasets, buffered) == Calls(ReportCalls(reports, datasets, buffered))
  {
    if reports != [] {
      ReportStepsAreCalls(reports[1..], datasets, buffered);
    }
  }

  /** Every report of the queue finds its data set. */
  ghost predicate Ready(q: seq<Pending>) {
    AllFound(Pick(q, AsUrcb), Pick(q, AsDataset)) && AllFound(Pick(q, AsBrcb), Pick(q, AsDataset))
  }

  lemma InvMakesReady(q: seq<Pending>)
    requires QueueInv(q)
    ensures Ready(q) && NamesDistinct(Pick(q, AsDataset))
  {
    ReportsNameQueued(q, q);
    QueuedNamesDistinct(q);
  }

  /** The reports, data sets, logs and setting groups of a queue, in the order they are registered. */
  function BlockCalls(q: seq<Pending>): seq<Call>
    requires Ready(q)
  {
    var datasets, urcbs, brcbs := Pick(q, AsDataset), Pick(q, AsUrcb), Pick(q, AsBrcb);
    ReportCalls(urcbs, datasets, false) + (ReportCalls(brcbs, datasets, true) +
    (Standalone(datasets, NamesUsed(urcbs) + NamesUsed(brcbs)) +
    (LogCalls(Pick(q, AsLog)) + GroupCalls(Pick(q, AsGroup)))))
  }

  /** The calls before the model's own blocks and the listener. */
  function EarlyCalls(t: Taken): seq<Call>
    requires Ready(t.pending)
  {
    Prelude(t) + (Pick(t.pending, AsImmediate) + BlockCalls(t.pending))
  }

  /** The calls of a start whose queue keeps its invariant. */
  function PlannedCalls(t: Taken): seq<Call>
    requires Ready(t.pending)
  {
    EarlyCalls(t) + Finale(t.pending)
  }

  lemma CallsAppend(a: seq<Call>, b: seq<Call>)
    ensures Calls(a + b) == Calls(a) + Calls(b)
  {
  }

  lemma Regroup(u: seq<Step>, b: seq<Step>, s: seq<Step>, l: seq<Step>, g: seq<Step>, f: seq<Step>)
    ensures u + (b + (s + (l + (g + f)))) == u + (b + (s + (l + g))) + f
  {
  }

  lemma BlockPassesAreCalls(q: seq<Pending>)
    requires Ready(q)
    ensures BlockPasses(q) == Calls(BlockCalls(q)) + Calls(Finale(q))
  {
    var datasets, urcbs, brcbs := Pick(q, AsDataset), Pick(q, AsUrcb), Pick(q, AsBrcb);
    ReportStepsAreCalls(urcbs, datasets, false);
    ReportStepsAreCalls(brcbs, datasets, true);
    var g := GroupCalls(Pick(q, AsGroup));
    var l := LogCalls(Pick(q, AsLog));
    var s := Standalone(datasets, NamesUsed(urcbs) + NamesUsed(brcbs));
    var b := ReportCalls(brcbs, datasets, true);
    CallsAppend(l, g);
    CallsAppend(s, l + g);
    CallsAppend(b, s + (l + g));
    CallsAppend(ReportCalls(urcbs, datasets, false), b + (s + (l + g)));
    Regroup(ReportSteps(urcbs, datasets, false), Calls(b), Calls(s), Calls(l), Calls(g), Calls(Finale(q)));
  }

  lemma PlanIsCalls(t: Taken)
    requires Ready(t.pending)
    ensures Plan(t) == Calls(PlannedCalls(t))
  {
    var q := t.pending;
    BlockPassesAreCalls(q);
    CallsAppend(EarlyCalls(t), Finale(q));
    CallsAppend(Prelude(t), Pick(q, AsImmediate) + BlockCalls(q));
    CallsAppend(Pick(q, AsImmediate), BlockCalls(q));
  }

  /** How many of the calls are accepted before one is refused. */
  function AcceptedFirst(native: Native, log: seq<Call>, calls: seq<Call>): (k: nat)
    ensures k <= |calls|
    decreases calls
  {
    if calls == [] || !Accepts(native, log, calls[0]) then 0
    else 1 + AcceptedFirst(native, log + [calls[0]], calls[1..])
  }

  lemma MadeNext(log: seq<Call>, calls: seq<Call>, k: nat)
    requires k < |calls|
    ensures (log + [calls[0]]) + calls[1..][..k] == log + calls[..k + 1]
  {
  }

  /** Calls run in order until one is refused; what was made is a prefix of what was planned. */
  lemma {:induction false} RunCalls(native: Native, log: seq<Call>, calls: seq<Call>)
    ensures var k := AcceptedFirst(native, log, calls);
            Run(native, log, Calls(calls)) == (log + calls[..k], if k < |calls| then Some(Refused(calls[k])) else None)
    decreases calls
  {
    if calls != [] && Accepts(native, log, calls[0]) {
      var rest := calls[1..];
      assert Calls(calls)[1..] == Calls(rest);
      RunCalls(native, log + [calls[0]], rest);
      MadeNext(log, calls, AcceptedFirst(native, log + [calls[0]], rest));
    } else {
      assert log + calls[..0] == log;
    }
  }

  ghost predicate StoppedEarly(made: seq<Call>, err: Option<StartError>, planned: seq<Call>) {
    err.Some? && exists i :: 0 <= i < |planned| && err == Some(Refused(planned[i])) && made == planned[..i]
  }

  lemma RunPlanned(native: Native, planned: seq<Call>)
    ensures var (made, err) := Run(native, [], Calls(planned));
            if err.None? then made == planned else StoppedEarly(made, err, planned)
  {
    RunCalls(native, [], planned);
    var k := AcceptedFirst(native, [], planned);
    assert [] + planned[..k] == planned[..k];
    assert planned[..|planned|] == planned;
  }

  /** From a queue that keeps its invariant neither of the two unknown-data-set failures can be reached; a start
      that succeeds makes exactly the planned calls, and one that fails stops at a call the native server refuses. */
  lemma StartOutcome(native: Native, t: Taken)
    requires QueueInv(t.pending)
    ensures Ready(t.pending)
    ensures var (made, err) := Run(native, [], Plan(t));
            if err.None? then made == PlannedCalls(t) else StoppedEarly(made, err, PlannedCalls(t))
  {
    InvMakesReady(t.pending);
    PlanIsCalls(t);
    RunPlanned(native, PlannedCalls(t));
  }

  // Order.

  predicate Opening(c: Call) { c == Open || c == RegisterFromModel }

  ghost predicate NoOpening(calls: seq<Call>) {
    forall c <- calls :: !Opening(c)
  }

  lemma {:induction false} PickedNoOpening(q: seq<Pending>)
    ensures NoOpening(Pick(q, AsImmediate))
  {
    if q != [] {
      PickedNoOpening(q[1..]);
    }
  }

  lemma {:induction false} ReportsNoOpening(reports: seq<Report>, datasets: seq<Dataset>, buffered: bool)
    requires AllFound(reports, datasets)
    ensures NoOpening(ReportCalls(reports, datasets, buffered))
  {
    if reports != [] {
      ReportsNoOpening(reports[1..], datasets, buffered);
    }
  }

  lemma {:induction false} StandaloneNoOpening(datasets: seq<Dataset>, used: set<string>)
    ensures NoOpening(Standalone(datasets, used))
  {
    if datasets != [] {
      StandaloneNoOpening(datasets[1..], used);
    }
  }

  lemma {:induction false} LogsNoOpening(blocks: seq<LogBlock>)
    ensures NoOpening(LogCalls(blocks))
  {
    if blocks != [] {
      LogsNoOpening(blocks[1..]);
    }
  }

  lemma {:induction false} GroupsNoOpening(groups: seq<Group>)
    ensures NoOpening(GroupCalls(groups))
  {
    if groups != [] {
      GroupsNoOpening(groups[1..]);
    }
  }

  lemma BlocksNoOpening(q: seq<Pending>)
    requires Ready(q)
    ensures NoOpening(BlockCalls(q))
  {
    var datasets, urcbs, brcbs := Pick(q, AsDataset), Pick(q, AsUrcb), Pick(q, AsBrcb);
    ReportsNoOpening(urcbs, datasets, false);
    ReportsNoOpening(brcbs, datasets, true);
    StandaloneNoOpening(datasets, NamesUsed(urcbs) + NamesUsed(brcbs));
    LogsNoOpening(Pick(q, AsLog));
    GroupsNoOpening(Pick(q, AsGroup));
  }

  /** The listener opens last, after the model's own blocks, which come after everything registered explicitly;
      and it opens in no start that fails. */
  lemma ListenerOpensLast(native: Native, t: Taken)
    requires QueueInv(t.pending)
    ensures Ready(t.pending) && PlannedCalls(t) == EarlyCalls(t) + Finale(t.pending) && NoOpening(EarlyCalls(t))
    ensures Run(native, [], Plan(t)).1.Some? ==> Open !in Run(native, [], Plan(t)).0
  {
    InvMakesReady(t.pending);
    PickedNoOpening(t.pending);
    BlocksNoOpening(t.pending);
    StartOutcome(native, t);
    var (made, err) := Run(native, [], Plan(t));
    if err.Some? {
      OpenIsLast(EarlyCalls(t), Finale(t.pending), made, err);
    }
  }

  lemma OpenIsLast(before: seq<Call>, finale: seq<Call>, made: seq<Call>, err: Option<StartError>)
    requires NoOpening(before) && (finale == [Open] || finale == [RegisterFromModel, Open])
    requires StoppedEarly(made, err, before + finale)
    ensures Open !in made
  {
    var i :| 0 <= i < |before + finale| && made == (before + finale)[..i];
    forall j | 0 <= j < i ensures made[j] != Open {
      assert j < |before| ==> before[j] in before;
    }
  }

  // Conservation.

  /** The call an entry of the queue stands for. */
  function EntryCall(datasets: seq<Dataset>, p: Pending): Option<Call> {
    match p
    case Urcb(r) =>
      (match FindDataset(datasets, r.datasetName) case Some(d) => Some(RegisterUrcb(r, d)) case None => None)
    case Brcb(r) =>
      (match FindDataset(datasets, r.datasetName) case Some(d) => Some(RegisterBrcb(r, d)) case None => None)
    case LogControl(b) => Some(RegisterLogControl(b))
    case DataSet(_) => None
    case FromModel => None
    case Authenticator(_) => None
    case _ => DirectCall(p)
  }

  function EntryCalls(datasets: seq<Dataset>, q: seq<Pending>): seq<Call> {
    Pick(q, p => EntryCall(datasets, p))
  }

  function ReportEntry(datasets: seq<Dataset>, buffered: bool): Pending -> Option<Call> {
    (p: Pending) => if (buffered && p.Brcb?) || (!buffered && p.Urcb?) then EntryCall(datasets, p) else None
  }

  function LogEntry(p: Pending): Option<Call> { if p.LogControl? then Some(RegisterLogControl(p.block)) else None }

  function GroupEntry(p: Pending): Option<Call> {
    if p.SettingGroup? then Some(RegisterSettingGroup(p.group)) else None
  }

  function One(o: Option<Call>): multiset<Call> {
    match o case Some(c) => multiset{c} case None => multiset{}
  }

  lemma PickHead(q: seq<Pending>, f: Pending -> Option<Call>)
    requires q != []
    ensures multiset(Pick(q, f)) == One(f(q[0])) + multiset(Pick(q[1..], f))
  {
  }

  lemma ReportCallsCons(r: Report, rest: seq<Report>, datasets: seq<Dataset>, buffered: bool)
    requires AllFound([r] + rest, datasets)
    ensures AllFound(rest, datasets) && FindDataset(datasets, r.datasetName).Some?
    ensures ReportCalls([r] + rest, datasets, buffered) ==
            [ReportCall(r, FindDataset(datasets, r.datasetName).value, buffered)] +
            ReportCalls(rest, datasets, buffered)
  {
    var all := [r] + rest;
    assert all[0] == r && all[1..] == rest && r in all && forall x <- rest :: x in all;
  }

  lemma {:induction false} UrcbCallsPicked(q: seq<Pending>, datasets: seq<Dataset>)
    requires AllFound(Pick(q, AsUrcb), datasets)
    ensures ReportCalls(Pick(q, AsUrcb), datasets, false) == Pick(q, ReportEntry(datasets, false))
  {
    if q != [] {
      if q[0].Urcb? {
        ReportCallsCons(q[0].report, Pick(q[1..], AsUrcb), datasets, false);
      }
      UrcbCallsPicked(q[1..], datasets);
    }
  }

  lemma {:induction false} BrcbCallsPicked(q: seq<Pending>, datasets: seq<Dataset>)
    requires AllFound(Pick(q, AsBrcb), datasets)
    ensures ReportCalls(Pick(q, AsBrcb), datasets, true) == Pick(q, ReportEntry(datasets, true))
  {
    if q != [] {
      if q[0].Brcb? {
        ReportCallsCons(q[0].report, Pick(q[1..], AsBrcb), datasets, true);
      }
      BrcbCallsPicked(q[1..], datasets);
    }
  }

  lemma {:induction false} LogCallsPicked(q: seq<Pending>)
    ensures LogCalls(Pick(q, AsLog)) == Pick(q, LogEntry)
  {
    if q != [] {
      LogCallsPicked(q[1..]);
      assert q[0].LogControl? ==> Pick(q, AsLog)[1..] == Pick(q[1..], AsLog);
    }
  }

  lemma {:induction false} GroupCallsPicked(q: seq<Pending>)
    ensures GroupCalls(Pick(q, AsGroup)) == Pick(q, GroupEntry)
  {
    if q != [] {
      GroupCallsPicked(q[1..]);
      assert q[0].SettingGroup? ==> Pick(q, AsGroup)[1..] == Pick(q[1..], AsGroup);
    }
  }

  /** The calls of a queue, kind by kind. */
  function ByKind(datasets: seq<Dataset>, q: seq<Pending>): multiset<Call> {
    multiset(Pick(q, AsImmediate)) + multiset(Pick(q, ReportEntry(datasets, false))) +
    multiset(Pick(q, ReportEntry(datasets, true))) + multiset(Pick(q, LogEntry)) + multiset(Pick(q, GroupEntry))
  }

  /** Every entry is of one kind. */
  lemma OneKind(datasets: seq<Dataset>, p: Pending)
    ensures One(EntryCall(datasets, p)) ==
            One(AsImmediate(p)) + One(ReportEntry(datasets, false)(p)) + One(ReportEntry(datasets, true)(p)) +
            One(LogEntry(p)) + One(GroupEntry(p))
  {
  }

  lemma ByKindHead(datasets: seq<Dataset>, q: seq<Pending>)
    requires q != []
    ensures ByKind(datasets, q) == One(EntryCall(datasets, q[0])) + ByKind(datasets, q[1..])
  {
    PickHead(q, AsImmediate);
    PickHead(q, ReportEntry(datasets, false));
    PickHead(q, ReportEntry(datasets, true));
    PickHead(q, LogEntry);
    PickHead(q, GroupEntry);
    OneKind(datasets, q[0]);
  }

  lemma {:induction false} EntriesByKind(datasets: seq<Dataset>, q: seq<Pending>)
    ensures multiset(EntryCalls(datasets, q)) == ByKind(datasets, q)
  {
    if q != [] {
      EntriesByKind(datasets, q[1..]);
      PickHead(q, p => EntryCall(datasets, p));
      ByKindHead(datasets, q);
    }
  }

  lemma PassesAreEntries(datasets: seq<Dataset>, q: seq<Pending>)
    requires AllFound(Pick(q, AsUrcb), datasets) && AllFound(Pick(q, AsBrcb), datasets)
    ensures multiset(Pick(q, AsImmediate)) + multiset(ReportCalls(Pick(q, AsUrcb), datasets, false)) +
            multiset(ReportCalls(Pick(q, AsBrcb), datasets, true)) + multiset(LogCalls(Pick(q, AsLog))) +
            multiset(GroupCalls(Pick(q, AsGroup))) == multiset(EntryCalls(datasets, q))
  {
    UrcbCallsPicked(q, datasets);
    BrcbCallsPicked(q, datasets);
    LogCallsPicked(q);
    GroupCallsPicked(q);
    EntriesByKind(datasets, q);
  }

  /** A start that succeeds applies every queued read, write, control, report, log and setting group entry exactly
      once, reordered, and makes no other call than those, the standalone data sets, the build and the finale. */
  lemma StartConserves(native: Native, t: Taken)
    requires QueueInv(t.pending) && Run(native, [], Plan(t)).1.None?
    ensures var q := t.pending;
            var datasets := Pick(q, AsDataset);
            multiset(Run(native, [], Plan(t)).0) ==
            multiset(Prelude(t)) + multiset(EntryCalls(datasets, q)) +
            multiset(Standalone(datasets, NamesUsed(Pick(q, AsUrcb)) + NamesUsed(Pick(q, AsBrcb)))) +
            multiset(Finale(q))
  {
    StartOutcome(native, t);
    PassesAreEntries(Pick(t.pending, AsDataset), t.pending);
  }

  // Data sets: with their reports, or alone.

  /** How many reports bring the data set `d` with them. */
  function Carried(calls: seq<Call>, d: Dataset): nat {
    if calls == [] then 0
    else
      (if (calls[0].RegisterUrcb? || calls[0].RegisterBrcb?) && calls[0].dataset == d then 1 else 0) +
      Carried(calls[1..], d)
  }

  /** How many times `d` is registered on its own. */
  function Alone(calls: seq<Call>, d: Dataset): nat {
    multiset(calls)[RegisterDataset(d)]
  }

  function References(reports: seq<Report>, name: string): nat {
    if reports == [] then 0 else (if reports[0].datasetName == name then 1 else 0) + References(reports[1..], name)
  }

  lemma {:induction false} CarriedAppend(a: seq<Call>, b: seq<Call>, d: Dataset)
    ensures Carried(a + b, d) == Carried(a, d) + Carried(b, d)
    decreases a
  {
    if a == [] {
      assert a + b == b;
    } else {
      assert (a + b)[1..] == a[1..] + b;
      CarriedAppend(a[1..], b, d);
    }
  }

  ghost predicate NamesDistinct(datasets: seq<Dataset>) {
    forall i, j :: 0 <= i < j < |datasets| ==> datasets[i].name != datasets[j].name
  }

  lemma {:induction false} QueuedNamesDistinct(q: seq<Pending>)
    requires QueueInv(q)
    ensures NamesDistinct(Pick(q, AsDataset))
  {
    if q != [] {
      var init, last := q[..|q| - 1], q[|q| - 1];
      assert q == init + [last];
      QueuedNamesDistinct(init);
      PickAppend(init, [last], AsDataset);
      if last.DataSet? {
        DatasetSlots(init, last.dataset.name);
        assert Pick([last], AsDataset) == [last.dataset];
      } else {
        assert Pick([last], AsDataset) == [];
      }
    }
  }

  lemma {:induction false} CarriedByReports(reports: seq<Report>, datasets: seq<Dataset>, buffered: bool, d: Dataset)
    requires AllFound(reports, datasets) && NamesDistinct(datasets) && d in datasets
    ensures Carried(ReportCalls(reports, datasets, buffered), d) == References(reports, d.name)
    ensures Alone(ReportCalls(reports, datasets, buffered), d) == 0
  {
    if reports != [] {
      CarriedByReports(reports[1..], datasets, buffered, d);
      var calls := ReportCalls(reports, datasets, buffered);
      assert calls == [calls[0]] + ReportCalls(reports[1..], datasets, buffered);
    }
  }

  /** A stretch of calls without data sets. */
  ghost predicate NoDatasets(calls: seq<Call>) {
    forall c <- calls :: !c.RegisterUrcb? && !c.RegisterBrcb? && !c.RegisterDataset?
  }

  lemma {:induction false} NothingCarried(calls: seq<Call>, d: Dataset)
    requires NoDatasets(calls)
    ensures Carried(calls, d) == 0 && Alone(calls, d) == 0
  {
    if calls != [] {
      NothingCarried(calls[1..], d);
    }
  }

  lemma OneMoreAlone(c: Call, rest: seq<Call>, d: Dataset)
    ensures Alone([c] + rest, d) == (if c == RegisterDataset(d) then 1 else 0) + Alone(rest, d)
  {
  }

  lemma OneMoreCarried(c: Call, rest: seq<Call>, d: Dataset)
    ensures c.RegisterDataset? ==> Carried([c] + rest, d) == Carried(rest, d)
  {
    assert ([c] + rest)[1..] == rest;
  }

  lemma {:induction false} StandaloneOnce(datasets: seq<Dataset>, used: set<string>, d: Dataset)
    requires NamesDistinct(datasets)
    ensures Carried(Standalone(datasets, used), d) == 0
    ensures Alone(Standalone(datasets, used), d) == if d in datasets && d.name !in used then 1 else 0
  {
    if datasets != [] {
      var first, rest := datasets[0], datasets[1..];
      StandaloneOnce(rest, used, d);
      assert d in datasets <==> d == first || d in rest;
      assert d in rest ==> first.name != d.name;
      if first.name in used {
        assert Standalone(datasets, used) == Standalone(rest, used);
      } else {
        OneMoreAlone(RegisterDataset(first), Standalone(rest, used), d);
        OneMoreCarried(RegisterDataset(first), Standalone(rest, used), d);
      }
    }
  }

  lemma {:induction false} UsedNames(reports: seq<Report>, name: string)
    ensures name in NamesUsed(reports) <==> References(reports, name) > 0
  {
    if reports != [] {
      UsedNames(reports[1..], name);
      assert reports == [reports[0]] + reports[1..];
    }
  }

  lemma {:induction false} PickedNoDatasets(q: seq<Pending>)
    ensures NoDatasets(Pick(q, AsImmediate))
  {
    if q != [] {
      PickedNoDatasets(q[1..]);
    }
  }

  lemma {:induction false} LogsNoDatasets(blocks: seq<LogBlock>)
    ensures NoDatasets(LogCalls(blocks))
  {
    if blocks != [] {
      LogsNoDatasets(blocks[1..]);
    }
  }

  lemma {:induction false} GroupsNoDatasets(groups: seq<Group>)
    ensures NoDatasets(GroupCalls(groups))
  {
    if groups != [] {
      GroupsNoDatasets(groups[1..]);
    }
  }

  lemma SplitCounts(a: seq<Call>, b: seq<Call>, d: Dataset)
    ensures Carried(a + b, d) == Carried(a, d) + Carried(b, d) && Alone(a + b, d) == Alone(a, d) + Alone(b, d)
  {
    CarriedAppend(a, b, d);
  }

  lemma BlockCounts(q: seq<Pending>, d: Dataset)
    requires Ready(q)
    requires NamesDistinct(Pick(q, AsDataset)) && d in Pick(q, AsDataset)
    ensures var references := References(Pick(q, AsUrcb), d.name) + References(Pick(q, AsBrcb), d.name);
            Carried(BlockCalls(q), d) == references && Alone(BlockCalls(q), d) == if references == 0 then 1 else 0
  {
    var datasets, urcbs, brcbs := Pick(q, AsDataset), Pick(q, AsUrcb), Pick(q, AsBrcb);
    var used := NamesUsed(urcbs) + NamesUsed(brcbs);
    var u, b, s := ReportCalls(urcbs, datasets, false), ReportCalls(brcbs, datasets, true), Standalone(datasets, used);
    var l, g := LogCalls(Pick(q, AsLog)), GroupCalls(Pick(q, AsGroup));
    LogsNoDatasets(Pick(q, AsLog));
    GroupsNoDatasets(Pick(q, AsGroup));
    NothingCarried(l + g, d);
    CarriedByReports(urcbs, datasets, false, d);
    CarriedByReports(brcbs, datasets, true, d);
    StandaloneOnce(datasets, used, d);
    UsedNames(urcbs, d.name);
    UsedNames(brcbs, d.name);
    SplitCounts(s, l + g, d);
    SplitCounts(b, s + (l + g), d);
    SplitCounts(u, b + (s + (l + g)), d);
  }

  /** A successful start registers every queued data set with each report that refers to it, or once on its own
      when none does, never both, and always with the entries it was queued with. */
  lemma DataSetsCarriedOrAlone(native: Native, t: Taken, d: Dataset)
    requires QueueInv(t.pending) && Run(native, [], Plan(t)).1.None?
    requires d in Pick(t.pending, AsDataset)
    ensures var log := Run(native, [], Plan(t)).0;
            var references := References(Pick(t.pending, AsUrcb), d.name) + References(Pick(t.pending, AsBrcb), d.name);
            && Carried(log, d) == references
            && Alone(log, d) == if references == 0 then 1 else 0
  {
    StartOutcome(native, t);
    InvMakesReady(t.pending);
    PlannedCounts(t, d);
    BlockCounts(t.pending, d);
  }

  lemma CountsBetween(a: seq<Call>, b: seq<Call>, blocks: seq<Call>, c: seq<Call>, d: Dataset)
    requires NoDatasets(a) && NoDatasets(b) && NoDatasets(c)
    ensures Carried(a + (b + blocks) + c, d) == Carried(blocks, d) && Alone(a + (b + blocks) + c, d) == Alone(blocks, d)
  {
    NothingCarried(a, d);
    NothingCarried(b, d);
    NothingCarried(c, d);
    SplitCounts(b, blocks, d);
    SplitCounts(a, b + blocks, d);
    SplitCounts(a + (b + blocks), c, d);
  }

  lemma PlannedCounts(t: Taken, d: Dataset)
    requires Ready(t.pending)
    ensures Carried(PlannedCalls(t), d) == Carried(BlockCalls(t.pending), d)
    ensures Alone(PlannedCalls(t), d) == Alone(BlockCalls(t.pending), d)
  {
    PickedNoDatasets(t.pending);
    CountsBetween(Prelude(t), Pick(t.pending, AsImmediate), BlockCalls(t.pending), Finale(t.pending), d);
  }
}
