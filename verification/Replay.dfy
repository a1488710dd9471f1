/** The replay of the queue at `start()`: several passes over the pending registrations, in which data sets come
    before the reports that use them, the model's own blocks after every explicit one, and the listener last. */
module Replay {
  import opened Common
  import opened ServerState

  // The queue by kind.

  function Pick<T>(q: seq<Pending>, f: Pending -> Option<T>): seq<T> {
    if q == [] then []
    else
      match f(q[0])
      case Some(x) => [x] + Pick(q[1..], f)
      case None => Pick(q[1..], f)
  }

  function AsImmediate(p: Pending): Option<Call> {
    if p.Read? || p.Write? || p.ControlObject? then DirectCall(p) else None
  }

  function AsDataset(p: Pending): Option<Dataset> { if p.DataSet? then Some(p.dataset) else None }

  function AsUrcb(p: Pending): Option<Report> { if p.Urcb? then Some(p.report) else None }

  function AsBrcb(p: Pending): Option<Report> { if p.Brcb? then Some(p.report) else None }

  function AsLog(p: Pending): Option<LogBlock> { if p.LogControl? then Some(p.block) else None }

  function AsGroup(p: Pending): Option<Group> { if p.SettingGroup? then Some(p.group) else None }

  /** The last authenticator set; `None` removes it. */
  function LastAuthenticator(q: seq<Pending>): Option<Callback> {
    if q == [] then None
    else if q[|q| - 1].Authenticator? then q[|q| - 1].callback
    else LastAuthenticator(q[..|q| - 1])
  }

  function WithoutAuthenticators(q: seq<Pending>): seq<Pending> {
    if q == [] then []
    else
      var rest := WithoutAuthenticators(q[..|q| - 1]);
      if q[|q| - 1].Authenticator? then rest else rest + [q[|q| - 1]]
  }

  // What a start does, step by step.

  datatype Step = Do(call: Call) | MissingDataset(mmsPath: string, datasetName: string)

  datatype StartError = UnknownDataset(mmsPath: string, datasetName: string) | Refused(call: Call)

  /** The calls made, and the error that stopped them. */
  function Run(native: Native, log: seq<Call>, steps: seq<Step>): (seq<Call>, Option<StartError>)
    decreases steps
  {
    if steps == [] then (log, None)
    else
      match steps[0]
      case MissingDataset(path, name) => (log, Some(UnknownDataset(path, name)))
      case Do(c) =>
        if Accepts(native, log, c) then Run(native, log + [c], steps[1..]) else (log, Some(Refused(c)))
  }

  function Calls(calls: seq<Call>): (steps: seq<Step>)
    ensures |steps| == |calls|
    ensures forall i :: 0 <= i < |calls| ==> steps[i] == Do(calls[i])
  {
    seq(|calls|, i requires 0 <= i < |calls| => Do(calls[i]))
  }

  function FindDataset(datasets: seq<Dataset>, name: string): (r: Option<Dataset>)
    ensures r.Some? ==> r.value in datasets && r.value.name == name
    ensures r.None? ==> forall d <- datasets :: d.name != name
  {
    if datasets == [] then None
    else if datasets[0].name == name then Some(datasets[0])
    else FindDataset(datasets[1..], name)
  }

  function ReportCall(report: Report, dataset: Dataset, buffered: bool): Call {
    if buffered then RegisterBrcb(report, dataset) else RegisterUrcb(report, dataset)
  }

  function ReportStep(report: Report, datasets: seq<Dataset>, buffered: bool): Step {
    match FindDataset(datasets, report.datasetName)
    case Some(d) => Do(ReportCall(report, d, buffered))
    case None => MissingDataset(report.mmsPath, report.datasetName)
  }

  function ReportSteps(reports: seq<Report>, datasets: seq<Dataset>, buffered: bool): (steps: seq<Step>)
    ensures |steps| == |reports|
  {
    if reports == [] then []
    else [ReportStep(reports[0], datasets, buffered)] + ReportSteps(reports[1..], datasets, buffered)
  }

  function NamesUsed(reports: seq<Report>): set<string> {
    set r <- reports :: r.datasetName
  }

  function Standalone(datasets: seq<Dataset>, used: set<string>): seq<Call> {
    if datasets == [] then []
    else (if datasets[0].name in used then [] else [RegisterDataset(datasets[0])]) + Standalone(datasets[1..], used)
  }

  function LogCalls(blocks: seq<LogBlock>): (calls: seq<Call>)
    ensures |calls| == |blocks|
  {
    if blocks == [] then [] else [RegisterLogControl(blocks[0])] + LogCalls(blocks[1..])
  }

  function GroupCalls(groups: seq<Group>): (calls: seq<Call>)
    ensures |calls| == |groups|
  {
    if groups == [] then [] else [RegisterSettingGroup(groups[0])] + GroupCalls(groups[1..])
  }

  function Prelude(t: Taken): seq<Call> {
    (if t.tls.Some? then [LoadTls(t.tls.value)] else []) + [Build(t.addr, t.tls.Some?, LastAuthenticator(t.pending))]
  }

  function Finale(q: seq<Pending>): seq<Call> {
    (if HasSlot(q, WholeModel) then [RegisterFromModel] else []) + [Open]
  }

  /** The passes after the reports. */
  function LastPasses(q: seq<Pending>): seq<Step> {
    Calls(Standalone(Pick(q, AsDataset), NamesUsed(Pick(q, AsUrcb)) + NamesUsed(Pick(q, AsBrcb)))) +
    (Calls(LogCalls(Pick(q, AsLog))) + (Calls(GroupCalls(Pick(q, AsGroup))) + Calls(Finale(q))))
  }

  /** The passes after the handlers and control objects. */
  function BlockPasses(q: seq<Pending>): seq<Step> {
    ReportSteps(Pick(q, AsUrcb), Pick(q, AsDataset), false) +
    (ReportSteps(Pick(q, AsBrcb), Pick(q, AsDataset), true) + LastPasses(q))
  }

  /** Everything a start does with what it took. */
  function Plan(t: Taken): seq<Step> {
    Calls(Prelude(t)) + (Calls(Pick(t.pending, AsImmediate)) + BlockPasses(t.pending))
  }

  lemma {:induction false} RunAppend(native: Native, log: seq<Call>, a: seq<Step>, b: seq<Step>)
    ensures Run(native, log, a + b) ==
            var (mid, err) := Run(native, log, a); if err.Some? then (mid, err) else Run(native, mid, b)
    decreases a
  {
    if a == [] {
      assert a + b == b;
    } else {
      assert (a + b)[1..] == a[1..] + b;
      if a[0].Do? {
        RunAppend(native, log + [a[0].call], a[1..], b);
      }
    }
  }

  // The passes.

  method ExtractAuthenticator(q: seq<Pending>) returns (authenticator: Option<Callback>, rest: seq<Pending>)
    ensures authenticator == LastAuthenticator(q) && rest == WithoutAuthenticators(q)
  {
    authenticator, rest := None, [];
    for i := 0 to |q|
      invariant authenticator == LastAuthenticator(q[..i]) && rest == WithoutAuthenticators(q[..i])
    {
      assert q[..i + 1][..i] == q[..i];
      if q[i].Authenticator? {
        authenticator := q[i].callback;
      } else {
        rest := rest + [q[i]];
      }
    }
    assert q[..|q|] == q;
  }

  /** Makes the given calls one after the other. */
  method MakeCalls(native: Native, log0: seq<Call>, calls: seq<Call>) returns (log: seq<Call>, err: Option<StartError>)
    ensures (log, err) == Run(native, log0, Calls(calls))
  {
    log, err := log0, None;
    for i := 0 to |calls|
      invariant Run(native, log0, Calls(calls)) == Run(native, log, Calls(calls)[i..])
    {
      if !Accepts(native, log, calls[i]) {
        return log, Some(Refused(calls[i]));
      }
      log := log + [calls[i]];
    }
  }

  datatype Buckets = Buckets(
    datasets: seq<Dataset>, urcbs: seq<Report>, brcbs: seq<Report>, logs: seq<LogBlock>, groups: seq<Group>,
    fromModel: bool)

  lemma HasSlotHead(q: seq<Pending>, slot: Slot)
    requires q != []
    ensures HasSlot(q, slot) <==> SlotOf(q[0]) == Some(slot) || HasSlot(q[1..], slot)
  {
    if HasSlot(q[1..], slot) {
      var i :| 0 <= i < |q| - 1 && SlotOf(q[1..][i]) == Some(slot);
      assert SlotOf(q[i + 1]) == Some(slot);
    }
    if i :| 0 <= i < |q| && SlotOf(q[i]) == Some(slot) {
      assert i > 0 ==> SlotOf(q[1..][i - 1]) == Some(slot);
    }
  }

  function AddTo(b: Buckets, p: Pending): Buckets {
    match p
    case DataSet(d) => b.(datasets := b.datasets + [d])
    case Urcb(r) => b.(urcbs := b.urcbs + [r])
    case Brcb(r) => b.(brcbs := b.brcbs + [r])
    case LogControl(l) => b.(logs := b.logs + [l])
    case SettingGroup(g) => b.(groups := b.groups + [g])
    case FromModel => b.(fromModel := true)
    case _ => b
  }

  function SortedOf(q: seq<Pending>): Buckets {
    Buckets(Pick(q, AsDataset), Pick(q, AsUrcb), Pick(q, AsBrcb), Pick(q, AsLog), Pick(q, AsGroup),
            HasSlot(q, WholeModel))
  }

  lemma {:induction false} PickAppend<T>(a: seq<Pending>, b: seq<Pending>, f: Pending -> Option<T>)
    ensures Pick(a + b, f) == Pick(a, f) + Pick(b, f)
    decreases a
  {
    if a == [] {
      assert a + b == b;
    } else {
      assert (a + b)[1..] == a[1..] + b;
      PickAppend(a[1..], b, f);
    }
  }

  lemma PickSnoc<T>(q: seq<Pending>, p: Pending, f: Pending -> Option<T>)
    ensures Pick(q + [p], f) == match f(p) case Some(x) => Pick(q, f) + [x] case None => Pick(q, f)
  {
    PickAppend(q, [p], f);
    assert [p][1..] == [];
  }

  lemma SortedSnoc(q: seq<Pending>, p: Pending)
    ensures SortedOf(q + [p]) == AddTo(SortedOf(q), p)
  {
    PickSnoc(q, p, AsDataset);
    PickSnoc(q, p, AsUrcb);
    PickSnoc(q, p, AsBrcb);
    PickSnoc(q, p, AsLog);
    PickSnoc(q, p, AsGroup);
    HasSlotSnoc(q, p, WholeModel);
  }

  /** What installing comes to from the `i`th entry on. */
  function InstallFrom(native: Native, log: seq<Call>, q: seq<Pending>, i: nat): (seq<Call>, Option<StartError>)
    requires i <= |q|
  {
    Run(native, log, Calls(Pick(q[i..], AsImmediate)))
  }

  lemma InstallOne(native: Native, log: seq<Call>, q: seq<Pending>, i: nat)
    requires i < |q|
    ensures InstallFrom(native, log, q, i) ==
            match AsImmediate(q[i])
            case None => InstallFrom(native, log, q, i + 1)
            case Some(c) =>
              if Accepts(native, log, c) then InstallFrom(native, log + [c], q, i + 1) else (log, Some(Refused(c)))
  {
    assert q[i..][1..] == q[i + 1..];
    if AsImmediate(q[i]).Some? {
      var next, rest := Pick(q[i..], AsImmediate), Pick(q[i + 1..], AsImmediate);
      assert next == [AsImmediate(q[i]).value] + rest;
      assert Calls(next)[1..] == Calls(rest);
    }
  }

  /** Installs the handlers and control objects in queue order and sorts the other entries by kind. */
  method InstallAndSort(native: Native, log0: seq<Call>, q: seq<Pending>)
    returns (log: seq<Call>, err: Option<StartError>, b: Buckets)
    ensures (log, err) == Run(native, log0, Calls(Pick(q, AsImmediate)))
    ensures err.None? ==> b == SortedOf(q)
  {
    log, err, b := log0, None, Buckets([], [], [], [], [], false);
    assert q[0..] == q;
    for i := 0 to |q|
      invariant b == SortedOf(q[..i])
      invariant InstallFrom(native, log0, q, 0) == InstallFrom(native, log, q, i)
    {
      assert q[..i + 1] == q[..i] + [q[i]];
      SortedSnoc(q[..i], q[i]);
      InstallOne(native, log, q, i);
      match q[i] {
        case Read(canonical, handler) =>
          if !Accepts(native, log, InstallRead(canonical, handler)) {
            return log, Some(Refused(InstallRead(canonical, handler))), b;
          }
          log := log + [InstallRead(canonical, handler)];
        case Write(canonical, handler) =>
          if !Accepts(native, log, InstallWrite(canonical, handler)) {
            return log, Some(Refused(InstallWrite(canonical, handler))), b;
          }
          log := log + [InstallWrite(canonical, handler)];
        case ControlObject(control) =>
          log := log + [RegisterControl(control)];
        case _ =>
          b := AddTo(b, q[i]);
      }
    }
    assert q[|q|..] == [] && q[..|q|] == q;
  }

  /** Registers every report together with its data set, and collects the names of the data sets used. */
  method RegisterReports(native: Native, log0: seq<Call>, reports: seq<Report>, datasets: seq<Dataset>, buffered: bool,
                         used0: set<string>)
    returns (log: seq<Call>, err: Option<StartError>, used: set<string>)
    ensures (log, err) == Run(native, log0, ReportSteps(reports, datasets, buffered))
    ensures err.None? ==> used == used0 + NamesUsed(reports)
  {
    log, err, used := log0, None, used0;
    assert reports[0..] == reports;
    for i := 0 to |reports|
      invariant used == used0 + NamesUsed(reports[..i])
      invariant Run(native, log0, ReportSteps(reports, datasets, buffered)) ==
                Run(native, log, ReportSteps(reports[i..], datasets, buffered))
    {
      assert reports[i..][1..] == reports[i + 1..];
      var report := reports[i];
      var found := FindDataset(datasets, report.datasetName);
      if found.None? {
        return log, Some(UnknownDataset(report.mmsPath, report.datasetName)), used;
      }
      var call := ReportCall(report, found.value, buffered);
      if !Accepts(native, log, call) {
        return log, Some(Refused(call)), used;
      }
      log := log + [call];
      used := used + {report.datasetName};
      assert reports[..i + 1] == reports[..i] + [report];
    }
    assert reports[..|reports|] == reports;
  }

  /** Registers on its own every data set no report has brought with it. */
  method RegisterStandalone(native: Native, log0: seq<Call>, datasets: seq<Dataset>, used: set<string>)
    returns (log: seq<Call>)
    ensures (log, None) == Run(native, log0, Calls(Standalone(datasets, used)))
  {
    log := log0;
    assert datasets[0..] == datasets;
    for i := 0 to |datasets|
      invariant Run(native, log0, Calls(Standalone(datasets, used))) ==
                Run(native, log, Calls(Standalone(datasets[i..], used)))
    {
      assert datasets[i..][1..] == datasets[i + 1..];
      if datasets[i].name !in used {
        assert Calls(Standalone(datasets[i..], used))[1..] == Calls(Standalone(datasets[i + 1..], used));
        log := log + [RegisterDataset(datasets[i])];
      } else {
        assert Standalone(datasets[i..], used) == Standalone(datasets[i + 1..], used);
      }
    }
  }

  // Authenticators play no part in the later passes.

  lemma {:induction false} PickWithoutAuthenticators<T>(q: seq<Pending>, f: Pending -> Option<T>)
    requires forall p: Pending :: p.Authenticator? ==> f(p).None?
    ensures Pick(WithoutAuthenticators(q), f) == Pick(q, f)
  {
    if q != [] {
      var init, last := q[..|q| - 1], q[|q| - 1];
      assert q == init + [last];
      PickWithoutAuthenticators(init, f);
      PickAppend(init, [last], f);
      PickAppend(WithoutAuthenticators(init), [last], f);
    }
  }

  lemma {:induction false} ModelSlotWithoutAuthenticators(q: seq<Pending>)
    ensures HasSlot(WithoutAuthenticators(q), WholeModel) <==> HasSlot(q, WholeModel)
  {
    if q != [] {
      var init, last := q[..|q| - 1], q[|q| - 1];
      assert q == init + [last];
      ModelSlotWithoutAuthenticators(init);
      HasSlotSnoc(init, last, WholeModel);
      HasSlotSnoc(WithoutAuthenticators(init), last, WholeModel);
    }
  }

  lemma SortedWithoutAuthenticators(q: seq<Pending>)
    ensures SortedOf(WithoutAuthenticators(q)) == SortedOf(q)
    ensures Pick(WithoutAuthenticators(q), AsImmediate) == Pick(q, AsImmediate)
  {
    PickWithoutAuthenticators(q, AsImmediate);
    PickWithoutAuthenticators(q, AsDataset);
    PickWithoutAuthenticators(q, AsUrcb);
    PickWithoutAuthenticators(q, AsBrcb);
    PickWithoutAuthenticators(q, AsLog);
    PickWithoutAuthenticators(q, AsGroup);
    ModelSlotWithoutAuthenticators(q);
  }

  method RunLastPasses(native: Native, log0: seq<Call>, b: Buckets, used: set<string>, ghost q: seq<Pending>)
    returns (log: seq<Call>, err: Option<StartError>)
    requires b == SortedOf(q) && used == NamesUsed(b.urcbs) + NamesUsed(b.brcbs)
    ensures (log, err) == Run(native, log0, LastPasses(q))
  {
    ghost var afterGroups := Calls(Finale(q));
    ghost var afterLogs := Calls(GroupCalls(b.groups)) + afterGroups;
    RunAppend(native, log0, Calls(Standalone(b.datasets, used)), Calls(LogCalls(b.logs)) + afterLogs);
    log := RegisterStandalone(native, log0, b.datasets, used);
    RunAppend(native, log, Calls(LogCalls(b.logs)), afterLogs);
    log, err := MakeCalls(native, log, LogCalls(b.logs));
    if err.Some? {
      return;
    }
    RunAppend(native, log, Calls(GroupCalls(b.groups)), afterGroups);
    log, err := MakeCalls(native, log, GroupCalls(b.groups));
    if err.Some? {
      return;
    }
    var last: seq<Call> := if b.fromModel then [RegisterFromModel] else [];
    log, err := MakeCalls(native, log, last + [Open]);
  }

  method RunBlockPasses(native: Native, log0: seq<Call>, b: Buckets, ghost q: seq<Pending>)
    returns (log: seq<Call>, err: Option<StartError>)
    requires b == SortedOf(q)
    ensures (log, err) == Run(native, log0, BlockPasses(q))
  {
    ghost var afterUrcbs := ReportSteps(b.brcbs, b.datasets, true) + LastPasses(q);
    RunAppend(native, log0, ReportSteps(b.urcbs, b.datasets, false), afterUrcbs);
    var used;
    log, err, used := RegisterReports(native, log0, b.urcbs, b.datasets, false, {});
    if err.Some? {
      return;
    }
    RunAppend(native, log, ReportSteps(b.brcbs, b.datasets, true), LastPasses(q));
    log, err, used := RegisterReports(native, log, b.brcbs, b.datasets, true, used);
    if err.Some? {
      return;
    }
    log, err := RunLastPasses(native, log, b, used, q);
  }

  /** What `server_do_start` does between its two locked sections. */
  method ReplayQueue(native: Native, t: Taken) returns (log: seq<Call>, err: Option<StartError>)
    ensures (log, err) == Run(native, [], Plan(t))
  {
    var authenticator, rest := ExtractAuthenticator(t.pending);
    var secure: seq<Call> := if t.tls.Some? then [LoadTls(t.tls.value)] else [];
    RunAppend(native, [], Calls(Prelude(t)), Calls(Pick(t.pending, AsImmediate)) + BlockPasses(t.pending));
    log, err := MakeCalls(native, [], secure + [Build(t.addr, t.tls.Some?, authenticator)]);
    if err.Some? {
      return;
    }
    SortedWithoutAuthenticators(t.pending);
    RunAppend(native, log, Calls(Pick(t.pending, AsImmediate)), BlockPasses(t.pending));
    var b;
    log, err, b := InstallAndSort(native, log, rest);
    if err.Some? {
      return;
    }
    log, err := RunBlockPasses(native, log, b, t.pending);
  }
}
