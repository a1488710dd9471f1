/** What a successful start has done, told from the queue, the address and the TLS configuration alone: every call the
    native server has had, how often, and in which order. */
module StartLog {
  import opened Common
  import opened ServerState
  import opened Replay
  import opened RegistrationLaws
  import opened ReplayRefinement

  // How often each call is made.

  /** Some queued report names the data set. */
  ghost predicate Named(q: seq<Pending>, name: string) {
    exists r: Report :: (Urcb(r) in q || Brcb(r) in q) && r.datasetName == name
  }

  /** The authenticator set last, or none. */
  ghost predicate SetLast(q: seq<Pending>, a: Option<Callback>) {
    || (a == None && forall p <- q :: !p.Authenticator?)
    || (exists i :: 0 <= i < |q| && q[i] == Authenticator(a) && forall j :: i < j < |q| ==> !q[j].Authenticator?)
  }

  ghost function Expected(c: Call, addr: Address, tls: Option<Tls>, q: seq<Pending>): nat {
    match c
    case LoadTls(x) => if tls == Some(x) then 1 else 0
    case Build(a, secured, x) => if a == addr && secured == tls.Some? && SetLast(q, x) then 1 else 0
    case InstallRead(k, h) => multiset(q)[Read(k, h)]
    case InstallWrite(k, h) => multiset(q)[Write(k, h)]
    case RegisterControl(x) => multiset(q)[ControlObject(x)]
    case RegisterUrcb(r, d) => if DataSet(d) in q && d.name == r.datasetName then multiset(q)[Urcb(r)] else 0
    case RegisterBrcb(r, d) => if DataSet(d) in q && d.name == r.datasetName then multiset(q)[Brcb(r)] else 0
    case RegisterDataset(d) => if DataSet(d) in q && !Named(q, d.name) then 1 else 0
    case RegisterLogControl(b) => multiset(q)[LogControl(b)]
    case RegisterSettingGroup(g) => multiset(q)[SettingGroup(g)]
    case RegisterFromModel => if FromModel in q then 1 else 0
    case SetAuthenticator(_) => 0
    case Open => 1
  }

  ghost predicate EachAsOften(log: seq<Call>, addr: Address, tls: Option<Tls>, q: seq<Pending>) {
    forall c: Call :: multiset(log)[c] == Expected(c, addr, tls, q)
  }

  // In which order.

  /** TLS, build, handlers and control objects, reports, data sets of their own, logs, setting groups, the model's
      blocks, the listener. */
  function Rank(c: Call): nat {
    match c
    case LoadTls(_) => 0
    case Build(_, _, _) => 1
    case InstallRead(_, _) => 2
    case InstallWrite(_, _) => 2
    case RegisterControl(_) => 2
    case SetAuthenticator(_) => 2
    case RegisterUrcb(_, _) => 3
    case RegisterBrcb(_, _) => 4
    case RegisterDataset(_) => 5
    case RegisterLogControl(_) => 6
    case RegisterSettingGroup(_) => 7
    case RegisterFromModel => 8
    case Open => 9
  }

  ghost predicate ByRank(log: seq<Call>) {
    forall i, j :: 0 <= i < j < |log| ==> Rank(log[i]) <= Rank(log[j])
  }

  function Project<T>(log: seq<Call>, f: Call -> Option<T>): seq<T> {
    if log == [] then []
    else (match f(log[0]) case Some(x) => [x] case None => []) + Project(log[1..], f)
  }

  function ImmediateOf(c: Call): Option<Call> {
    if c.InstallRead? || c.InstallWrite? || c.RegisterControl? then Some(c) else None
  }

  function UrcbOf(c: Call): Option<Report> { if c.RegisterUrcb? then Some(c.report) else None }

  function BrcbOf(c: Call): Option<Report> { if c.RegisterBrcb? then Some(c.report) else None }

  function DatasetOf(c: Call): Option<Dataset> { if c.RegisterDataset? then Some(c.dataset) else None }

  function LogOf(c: Call): Option<LogBlock> { if c.RegisterLogControl? then Some(c.block) else None }

  function GroupOf(c: Call): Option<Group> { if c.RegisterSettingGroup? then Some(c.group) else None }

  /** The data sets that no report names, in order. */
  ghost function Unnamed(datasets: seq<Dataset>, q: seq<Pending>): seq<Dataset> {
    if datasets == [] then []
    else (if Named(q, datasets[0].name) then [] else [datasets[0]]) + Unnamed(datasets[1..], q)
  }

  /** Within each kind the calls come in the order of the queue. */
  ghost predicate InQueueOrder(log: seq<Call>, q: seq<Pending>) {
    && Project(log, ImmediateOf) == Pick(q, AsImmediate)
    && Project(log, UrcbOf) == Pick(q, AsUrcb)
    && Project(log, BrcbOf) == Pick(q, AsBrcb)
    && Project(log, DatasetOf) == Unnamed(Pick(q, AsDataset), q)
    && Project(log, LogOf) == Pick(q, AsLog)
    && Project(log, GroupOf) == Pick(q, AsGroup)
  }

  /** Everything about the calls of a start. */
  ghost predicate Complete(log: seq<Call>, addr: Address, tls: Option<Tls>, q: seq<Pending>) {
    EachAsOften(log, addr, tls, q) && ByRank(log) && InQueueOrder(log, q)
  }

  /** Control objects, data sets and authenticators are never refused. */
  predicate MayRefuse(c: Call) {
    !c.RegisterControl? && !c.RegisterDataset? && !c.SetAuthenticator?
  }

  /** The native server took every call, given those before it. */
  ghost predicate TakenInTurn(native: Native, log: seq<Call>) {
    forall i :: 0 <= i < |log| && MayRefuse(log[i]) ==> native(log[..i], log[i])
  }

  // Counting.

  lemma {:induction false} PickCount(q: seq<Pending>, f: Pending -> Option<Call>, p: Pending, c: Call)
    requires f(p) == Some(c) && forall x: Pending :: f(x) == Some(c) ==> x == p
    ensures multiset(Pick(q, f))[c] == multiset(q)[p]
  {
    if q != [] {
      PickCount(q[1..], f, p, c);
      assert q == [q[0]] + q[1..];
    }
  }

  lemma NeverPicked(q: seq<Pending>, f: Pending -> Option<Call>, c: Call)
    requires forall p <- q :: f(p) != Some(c)
    ensures multiset(Pick(q, f))[c] == 0
  {
    PickMember(q, f, c);
  }

  ghost predicate OfEntries(c: Call) {
    || c.InstallRead? || c.InstallWrite? || c.RegisterControl? || c.RegisterUrcb? || c.RegisterBrcb?
    || c.RegisterLogControl? || c.RegisterSettingGroup?
  }

  ghost predicate OfFrame(c: Call) {
    c.LoadTls? || c.Build? || c.RegisterFromModel? || c.Open?
  }

  function CallOfEntry(datasets: seq<Dataset>): Pending -> Option<Call> {
    p => EntryCall(datasets, p)
  }

  lemma ReportCount(q: seq<Pending>, datasets: seq<Dataset>, p: Pending, c: Call)
    requires (c.RegisterUrcb? && p == Urcb(c.report)) || (c.RegisterBrcb? && p == Brcb(c.report))
    ensures multiset(Pick(q, CallOfEntry(datasets)))[c] ==
            if FindDataset(datasets, c.report.datasetName) == Some(c.dataset) then multiset(q)[p] else 0
  {
    if FindDataset(datasets, c.report.datasetName) == Some(c.dataset) {
      PickCount(q, CallOfEntry(datasets), p, c);
    } else {
      NeverPicked(q, CallOfEntry(datasets), c);
    }
  }

  lemma HandlerCounts(q: seq<Pending>, datasets: seq<Dataset>, c: Call)
    requires c.InstallRead? || c.InstallWrite? || c.RegisterControl? || c.RegisterLogControl? || c.RegisterSettingGroup?
    ensures multiset(Pick(q, CallOfEntry(datasets)))[c] == multiset(q)[HandlerEntry(c)]
  {
    PickCount(q, CallOfEntry(datasets), HandlerEntry(c), c);
  }

  function HandlerEntry(c: Call): Pending
    requires c.InstallRead? || c.InstallWrite? || c.RegisterControl? || c.RegisterLogControl? || c.RegisterSettingGroup?
  {
    match c
    case InstallRead(k, h) => Read(k, h)
    case InstallWrite(k, h) => Write(k, h)
    case RegisterControl(x) => ControlObject(x)
    case RegisterLogControl(b) => LogControl(b)
    case RegisterSettingGroup(g) => SettingGroup(g)
  }

  lemma ExpectedOfHandler(q: seq<Pending>, c: Call, addr: Address, tls: Option<Tls>)
    requires c.InstallRead? || c.InstallWrite? || c.RegisterControl? || c.RegisterLogControl? || c.RegisterSettingGroup?
    ensures Expected(c, addr, tls, q) == multiset(q)[HandlerEntry(c)]
  {
  }

  lemma NoEntryCalls(q: seq<Pending>, datasets: seq<Dataset>, c: Call)
    requires !OfEntries(c)
    ensures multiset(Pick(q, CallOfEntry(datasets)))[c] == 0
  {
    NeverPicked(q, CallOfEntry(datasets), c);
  }

  /** The calls of the entries, by kind of call. */
  lemma EntryCounts(q: seq<Pending>, datasets: seq<Dataset>, c: Call, addr: Address, tls: Option<Tls>)
    requires datasets == Pick(q, AsDataset) && QueueInv(q)
    ensures multiset(Pick(q, CallOfEntry(datasets)))[c] == if OfEntries(c) then Expected(c, addr, tls, q) else 0
  {
    if c.RegisterUrcb? {
      FoundIsQueued(q, datasets, c.report.datasetName, c.dataset);
      ReportCount(q, datasets, Urcb(c.report), c);
    } else if c.RegisterBrcb? {
      FoundIsQueued(q, datasets, c.report.datasetName, c.dataset);
      ReportCount(q, datasets, Brcb(c.report), c);
    } else if OfEntries(c) {
      HandlerCounts(q, datasets, c);
      ExpectedOfHandler(q, c, addr, tls);
    } else {
      NoEntryCalls(q, datasets, c);
    }
  }

  /** The data set found under a name is the queued one. */
  lemma FoundIsQueued(q: seq<Pending>, datasets: seq<Dataset>, name: string, d: Dataset)
    requires datasets == Pick(q, AsDataset) && QueueInv(q)
    ensures FindDataset(datasets, name) == Some(d) <==> DataSet(d) in q && d.name == name
  {
    PickMember(q, AsDataset, d);
    QueuedNamesDistinct(q);
  }

  lemma NamedIsUsed(q: seq<Pending>, name: string)
    ensures Named(q, name) <==> name in NamesUsed(Pick(q, AsUrcb)) + NamesUsed(Pick(q, AsBrcb))
  {
    if Named(q, name) {
      var r :| (Urcb(r) in q || Brcb(r) in q) && r.datasetName == name;
      PickMember(q, AsUrcb, r);
      PickMember(q, AsBrcb, r);
    }
    if name in NamesUsed(Pick(q, AsUrcb)) {
      var r :| r in Pick(q, AsUrcb) && r.datasetName == name;
      PickMember(q, AsUrcb, r);
    } else if name in NamesUsed(Pick(q, AsBrcb)) {
      var r :| r in Pick(q, AsBrcb) && r.datasetName == name;
      PickMember(q, AsBrcb, r);
    }
  }

  lemma {:induction false} OnlyDatasets(datasets: seq<Dataset>, used: set<string>)
    ensures forall c <- Standalone(datasets, used) :: c.RegisterDataset?
  {
    if datasets != [] {
      OnlyDatasets(datasets[1..], used);
    }
  }

  lemma AloneOnly(q: seq<Pending>, c: Call)
    requires !c.RegisterDataset?
    ensures multiset(Alone(q))[c] == 0
  {
    OnlyDatasets(Pick(q, AsDataset), NamesUsed(Pick(q, AsUrcb)) + NamesUsed(Pick(q, AsBrcb)));
  }

  lemma AloneCount(datasets: seq<Dataset>, used: set<string>, d: Dataset)
    requires NamesDistinct(datasets)
    ensures multiset(Standalone(datasets, used))[RegisterDataset(d)] ==
            if d in datasets && d.name !in used then 1 else 0
  {
    StandaloneOnce(datasets, used, d);
  }

  lemma StandaloneCounts(q: seq<Pending>, c: Call, addr: Address, tls: Option<Tls>)
    requires QueueInv(q)
    ensures multiset(Alone(q))[c] == if c.RegisterDataset? then Expected(c, addr, tls, q) else 0
  {
    if c.RegisterDataset? {
      QueuedNamesDistinct(q);
      AloneCount(Pick(q, AsDataset), NamesUsed(Pick(q, AsUrcb)) + NamesUsed(Pick(q, AsBrcb)), c.dataset);
      PickMember(q, AsDataset, c.dataset);
      NamedIsUsed(q, c.dataset.name);
    } else {
      AloneOnly(q, c);
    }
  }

  lemma {:induction false} LastIsSetLast(q: seq<Pending>, a: Option<Callback>)
    ensures SetLast(q, a) <==> a == LastAuthenticator(q)
  {
    if q != [] {
      var init, last := q[..|q| - 1], q[|q| - 1];
      assert q == init + [last];
      LastIsSetLast(init, a);
      if last.Authenticator? {
        assert SetLast(q, a) ==> a == last.callback;
        assert a == last.callback ==> q[|q| - 1] == Authenticator(a);
      } else {
        SetLastInit(init, last, a);
      }
    }
  }

  lemma SetLastInit(init: seq<Pending>, last: Pending, a: Option<Callback>)
    requires !last.Authenticator?
    ensures SetLast(init + [last], a) <==> SetLast(init, a)
  {
    var q := init + [last];
    if i :| 0 <= i < |init| && init[i] == Authenticator(a) && forall j :: i < j < |init| ==> !init[j].Authenticator? {
      assert q[i] == Authenticator(a) && forall j :: i < j < |q| ==> !q[j].Authenticator?;
    }
    if i :| 0 <= i < |q| && q[i] == Authenticator(a) && forall j :: i < j < |q| ==> !q[j].Authenticator? {
      assert i < |init| && init[i] == q[i] && forall j :: i < j < |init| ==> init[j] == q[j];
    }
    assert forall p <- init :: p in q;
    assert forall p <- q :: p in init || p == last;
  }

  lemma ModelQueued(q: seq<Pending>)
    ensures HasSlot(q, WholeModel) <==> FromModel in q
  {
    if FromModel in q {
      var i :| 0 <= i < |q| && q[i] == FromModel;
      assert SlotOf(q[i]) == Some(WholeModel);
    }
  }

  lemma FrameCounts(t: Taken, c: Call)
    ensures multiset(Prelude(t))[c] + multiset(Finale(t.pending))[c] ==
            if OfFrame(c) then Expected(c, t.addr, t.tls, t.pending) else 0
  {
    ModelQueued(t.pending);
    if c.Build? {
      LastIsSetLast(t.pending, c.authenticator);
    }
  }

  lemma TotalCount(all: multiset<Call>, first: multiset<Call>, entries: multiset<Call>, alone: multiset<Call>,
                   last: multiset<Call>, c: Call, expected: nat)
    requires all == first + entries + alone + last
    requires entries[c] == if OfEntries(c) then expected else 0
    requires alone[c] == if c.RegisterDataset? then expected else 0
    requires first[c] + last[c] == if OfFrame(c) then expected else 0
    requires c.SetAuthenticator? ==> expected == 0
    ensures all[c] == expected
  {
  }

  function Alone(q: seq<Pending>): seq<Call> {
    Standalone(Pick(q, AsDataset), NamesUsed(Pick(q, AsUrcb)) + NamesUsed(Pick(q, AsBrcb)))
  }

  lemma PlannedMultiset(t: Taken)
    requires QueueInv(t.pending)
    ensures Ready(t.pending)
    ensures multiset(PlannedCalls(t)) ==
            multiset(Prelude(t)) + multiset(Pick(t.pending, CallOfEntry(Pick(t.pending, AsDataset)))) +
            multiset(Alone(t.pending)) + multiset(Finale(t.pending))
  {
    InvMakesReady(t.pending);
    PassesAreEntries(Pick(t.pending, AsDataset), t.pending);
    PickSame(t.pending, p => EntryCall(Pick(t.pending, AsDataset), p), CallOfEntry(Pick(t.pending, AsDataset)));
  }

  lemma {:induction false} PickSame(q: seq<Pending>, f: Pending -> Option<Call>, g: Pending -> Option<Call>)
    requires forall p :: f(p) == g(p)
    ensures Pick(q, f) == Pick(q, g)
  {
    if q != [] {
      PickSame(q[1..], f, g);
    }
  }

  lemma PlannedCount(t: Taken, c: Call)
    requires QueueInv(t.pending) && Ready(t.pending)
    ensures multiset(PlannedCalls(t))[c] == Expected(c, t.addr, t.tls, t.pending)
  {
    var q, datasets := t.pending, Pick(t.pending, AsDataset);
    PlannedMultiset(t);
    EntryCounts(q, datasets, c, t.addr, t.tls);
    StandaloneCounts(q, c, t.addr, t.tls);
    FrameCounts(t, c);
    TotalCount(multiset(PlannedCalls(t)), multiset(Prelude(t)), multiset(Pick(q, CallOfEntry(datasets))),
               multiset(Alone(q)), multiset(Finale(q)), c, Expected(c, t.addr, t.tls, q));
  }

  lemma PlannedCounts(t: Taken)
    requires QueueInv(t.pending)
    ensures Ready(t.pending) && EachAsOften(PlannedCalls(t), t.addr, t.tls, t.pending)
  {
    InvMakesReady(t.pending);
    forall c: Call
      ensures multiset(PlannedCalls(t))[c] == Expected(c, t.addr, t.tls, t.pending)
    {
      PlannedCount(t, c);
    }
  }

  // Order.

  ghost predicate Ranked(calls: seq<Call>, low: nat, high: nat) {
    ByRank(calls) && forall c <- calls :: low <= Rank(c) <= high
  }

  lemma RankedAppend(a: seq<Call>, b: seq<Call>, low: nat, middle: nat, high: nat)
    requires Ranked(a, low, middle) && Ranked(b, middle, high) && low <= middle <= high
    ensures Ranked(a + b, low, high)
  {
  }

  lemma Widen(calls: seq<Call>, low: nat, high: nat, lower: nat, higher: nat)
    requires Ranked(calls, low, high) && lower <= low && high <= higher
    ensures Ranked(calls, lower, higher)
  {
  }

  lemma RankedCons(c: Call, rest: seq<Call>, k: nat)
    requires Rank(c) == k && Ranked(rest, k, k)
    ensures Ranked([c] + rest, k, k)
  {
  }

  lemma ProjectCons<T>(c: Call, rest: seq<Call>, f: Call -> Option<T>)
    ensures Project([c] + rest, f) == (match f(c) case Some(x) => [x] case None => []) + Project(rest, f)
  {
    assert ([c] + rest)[1..] == rest;
  }

  lemma {:induction false} UrcbsRanked(reports: seq<Report>, datasets: seq<Dataset>)
    requires AllFound(reports, datasets)
    ensures var calls := ReportCalls(reports, datasets, false);
            Ranked(calls, 3, 3) && Project(calls, UrcbOf) == reports
  {
    if reports != [] {
      var r, rest := reports[0], reports[1..];
      assert reports == [r] + rest;
      ReportCallsCons(r, rest, datasets, false);
      UrcbsRanked(rest, datasets);
      var c := ReportCall(r, FindDataset(datasets, r.datasetName).value, false);
      RankedCons(c, ReportCalls(rest, datasets, false), 3);
      ProjectCons(c, ReportCalls(rest, datasets, false), UrcbOf);
    }
  }

  lemma {:induction false} BrcbsRanked(reports: seq<Report>, datasets: seq<Dataset>)
    requires AllFound(reports, datasets)
    ensures var calls := ReportCalls(reports, datasets, true);
            Ranked(calls, 4, 4) && Project(calls, BrcbOf) == reports
  {
    if reports != [] {
      var r, rest := reports[0], reports[1..];
      assert reports == [r] + rest;
      ReportCallsCons(r, rest, datasets, true);
      BrcbsRanked(rest, datasets);
      var c := ReportCall(r, FindDataset(datasets, r.datasetName).value, true);
      RankedCons(c, ReportCalls(rest, datasets, true), 4);
      ProjectCons(c, ReportCalls(rest, datasets, true), BrcbOf);
    }
  }

  lemma {:induction false} LogsRanked(blocks: seq<LogBlock>)
    ensures Ranked(LogCalls(blocks), 6, 6) && Project(LogCalls(blocks), LogOf) == blocks
  {
    if blocks != [] {
      LogsRanked(blocks[1..]);
      RankedCons(RegisterLogControl(blocks[0]), LogCalls(blocks[1..]), 6);
      ProjectCons(RegisterLogControl(blocks[0]), LogCalls(blocks[1..]), LogOf);
    }
  }

  lemma {:induction false} GroupsRanked(groups: seq<Group>)
    ensures Ranked(GroupCalls(groups), 7, 7) && Project(GroupCalls(groups), GroupOf) == groups
  {
    if groups != [] {
      GroupsRanked(groups[1..]);
      RankedCons(RegisterSettingGroup(groups[0]), GroupCalls(groups[1..]), 7);
      ProjectCons(RegisterSettingGroup(groups[0]), GroupCalls(groups[1..]), GroupOf);
    }
  }

  lemma {:induction false} ImmediatesRanked(q: seq<Pending>)
    ensures Ranked(Pick(q, AsImmediate), 2, 2) && Project(Pick(q, AsImmediate), ImmediateOf) == Pick(q, AsImmediate)
  {
    if q != [] {
      var rest := Pick(q[1..], AsImmediate);
      ImmediatesRanked(q[1..]);
      match AsImmediate(q[0])
      case Some(c) =>
        RankedCons(c, rest, 2);
        ProjectCons(c, rest, ImmediateOf);
      case None =>
    }
  }

  lemma {:induction false} StandaloneRanked(datasets: seq<Dataset>, used: set<string>, q: seq<Pending>)
    requires forall name :: name in used <==> Named(q, name)
    ensures Ranked(Standalone(datasets, used), 5, 5)
    ensures Project(Standalone(datasets, used), DatasetOf) == Unnamed(datasets, q)
  {
    if datasets != [] {
      var d, rest := datasets[0], Standalone(datasets[1..], used);
      StandaloneRanked(datasets[1..], used, q);
      if d.name in used {
        assert [] + rest == rest;
        assert [] + Unnamed(datasets[1..], q) == Unnamed(datasets[1..], q);
      } else {
        RankedCons(RegisterDataset(d), rest, 5);
        ProjectCons(RegisterDataset(d), rest, DatasetOf);
      }
    }
  }

  lemma {:induction false} ProjectAppend<T>(a: seq<Call>, b: seq<Call>, f: Call -> Option<T>)
    ensures Project(a + b, f) == Project(a, f) + Project(b, f)
    decreases a
  {
    if a == [] {
      assert a + b == b;
    } else {
      assert (a + b)[1..] == a[1..] + b;
      ProjectAppend(a[1..], b, f);
    }
  }

  /** A projection of one rank finds nothing in calls of others. */
  lemma {:induction false} ProjectNothing<T>(calls: seq<Call>, f: Call -> Option<T>)
    requires forall c <- calls :: f(c).None?
    ensures Project(calls, f) == []
  {
    if calls != [] {
      ProjectNothing(calls[1..], f);
    }
  }

  /** The stretches of a plan. */
  ghost predicate Stretches(p: seq<Call>, i: seq<Call>, u: seq<Call>, b: seq<Call>, s: seq<Call>, l: seq<Call>,
                            g: seq<Call>, e: seq<Call>)
  {
    && Ranked(p, 0, 1) && Ranked(i, 2, 2) && Ranked(u, 3, 3) && Ranked(b, 4, 4)
    && Ranked(s, 5, 5) && Ranked(l, 6, 6) && Ranked(g, 7, 7) && Ranked(e, 8, 9)
  }

  lemma StretchesRanked(p: seq<Call>, i: seq<Call>, u: seq<Call>, b: seq<Call>, s: seq<Call>, l: seq<Call>,
                        g: seq<Call>, e: seq<Call>)
    requires Stretches(p, i, u, b, s, l, g, e)
    ensures ByRank(p + (i + (u + (b + (s + (l + g))))) + e)
  {
    Widen(l, 6, 6, 6, 7);
    RankedAppend(l, g, 6, 7, 7);
    Widen(s, 5, 5, 5, 6);
    RankedAppend(s, l + g, 5, 6, 7);
    Widen(b, 4, 4, 4, 5);
    RankedAppend(b, s + (l + g), 4, 5, 7);
    Widen(u, 3, 3, 3, 4);
    RankedAppend(u, b + (s + (l + g)), 3, 4, 7);
    Widen(i, 2, 2, 2, 3);
    RankedAppend(i, u + (b + (s + (l + g))), 2, 3, 7);
    Widen(p, 0, 1, 0, 2);
    RankedAppend(p, i + (u + (b + (s + (l + g)))), 0, 2, 7);
    Widen(p + (i + (u + (b + (s + (l + g))))), 0, 7, 0, 8);
    RankedAppend(p + (i + (u + (b + (s + (l + g))))), e, 0, 8, 9);
  }

  /** The only stretch that a projection of rank `k` sees. */
  lemma SeesOne<T>(before: seq<Call>, x: seq<Call>, after: seq<Call>, f: Call -> Option<T>, k: nat)
    requires forall c <- before :: Rank(c) < k
    requires forall c <- after :: Rank(c) > k
    requires forall c :: f(c).Some? ==> Rank(c) == k
    ensures Project(before + x + after, f) == Project(x, f)
  {
    ProjectAppend(before + x, after, f);
    ProjectAppend(before, x, f);
    ProjectNothing(before, f);
    ProjectNothing(after, f);
  }

  /** The calls of lower rank than `k`, those of rank `k` and those of higher rank. */
  ghost predicate Around(log: seq<Call>, x: seq<Call>, k: nat) {
    exists before: seq<Call>, after: seq<Call> ::
      log == before + x + after && (forall c <- before :: Rank(c) < k) && (forall c <- after :: Rank(c) > k)
  }

  ghost predicate OfRank<T(!new)>(f: Call -> Option<T>, k: nat) {
    forall c: Call :: f(c).Some? ==> Rank(c) == k
  }

  lemma Ranks()
    ensures OfRank(ImmediateOf, 2) && OfRank(UrcbOf, 3) && OfRank(BrcbOf, 4)
    ensures OfRank(DatasetOf, 5) && OfRank(LogOf, 6) && OfRank(GroupOf, 7)
  {
  }

  lemma ProjectAround<T(!new)>(log: seq<Call>, x: seq<Call>, f: Call -> Option<T>, k: nat)
    requires Around(log, x, k) && OfRank(f, k)
    ensures Project(log, f) == Project(x, f)
  {
    var before: seq<Call>, after: seq<Call> :|
      log == before + x + after && (forall c <- before :: Rank(c) < k) && (forall c <- after :: Rank(c) > k);
    SeesOne(before, x, after, f, k);
  }

  lemma AroundFirst(x: seq<Call>, after: seq<Call>, k: nat)
    requires forall c <- after :: Rank(c) > k
    ensures Around(x + after, x, k)
  {
    assert x + after == [] + x + after;
  }

  /** Putting calls of lower rank before and calls of higher rank after keeps a stretch where it is. */
  lemma AroundMore(left: seq<Call>, log: seq<Call>, right: seq<Call>, x: seq<Call>, k: nat)
    requires Around(log, x, k) && (forall c <- left :: Rank(c) < k) && (forall c <- right :: Rank(c) > k)
    ensures Around(left + log + right, x, k)
  {
    var before: seq<Call>, after: seq<Call> :|
      log == before + x + after && (forall c <- before :: Rank(c) < k) && (forall c <- after :: Rank(c) > k);
    assert left + log + right == (left + before) + x + (after + right);
    assert forall c <- left + before :: Rank(c) < k;
    assert forall c <- after + right :: Rank(c) > k;
  }

  lemma AroundLeft(left: seq<Call>, log: seq<Call>, x: seq<Call>, k: nat)
    requires Around(log, x, k) && (forall c <- left :: Rank(c) < k)
    ensures Around(left + log, x, k)
  {
    AroundMore(left, log, [], x, k);
    assert left + log + [] == left + log;
  }

  lemma StretchesAround(p: seq<Call>, i: seq<Call>, u: seq<Call>, b: seq<Call>, s: seq<Call>, l: seq<Call>,
                        g: seq<Call>, e: seq<Call>)
    requires Stretches(p, i, u, b, s, l, g, e)
    ensures var log := p + (i + (u + (b + (s + (l + g))))) + e;
            && Around(log, i, 2) && Around(log, u, 3) && Around(log, b, 4)
            && Around(log, s, 5) && Around(log, l, 6) && Around(log, g, 7)
  {
    AroundFirst(g, [], 7);
    assert g + [] == g;
    AroundLeft(l, g, g, 7);
    AroundFirst(l, g, 6);
    AroundTail(p, i, u, b, s, l + g, e, l, 6);
    AroundTail(p, i, u, b, s, l + g, e, g, 7);
    AroundFirst(s, l + g, 5);
    AroundAfter(p, i, u, b, s + (l + g), e, s, 5);
    AroundFirst(b, s + (l + g), 4);
    AroundLast(p, i, u, b + (s + (l + g)), e, b, 4);
    AroundFirst(u, b + (s + (l + g)), 3);
    AroundLeft(i, u + (b + (s + (l + g))), u, 3);
    AroundMore(p, i + (u + (b + (s + (l + g)))), e, u, 3);
    AroundFirst(i, u + (b + (s + (l + g))), 2);
    AroundMore(p, i + (u + (b + (s + (l + g)))), e, i, 2);
  }

  lemma AroundLast(p: seq<Call>, i: seq<Call>, u: seq<Call>, rest: seq<Call>, e: seq<Call>, x: seq<Call>, k: nat)
    requires Ranked(p, 0, 1) && Ranked(i, 2, 2) && Ranked(u, 3, 3) && Ranked(e, 8, 9)
    requires 4 <= k <= 7 && Around(rest, x, k)
    ensures Around(p + (i + (u + rest)) + e, x, k)
  {
    AroundLeft(u, rest, x, k);
    AroundLeft(i, u + rest, x, k);
    AroundMore(p, i + (u + rest), e, x, k);
  }

  lemma AroundAfter(p: seq<Call>, i: seq<Call>, u: seq<Call>, b: seq<Call>, rest: seq<Call>, e: seq<Call>, x: seq<Call>,
                    k: nat)
    requires Ranked(p, 0, 1) && Ranked(i, 2, 2) && Ranked(u, 3, 3) && Ranked(b, 4, 4) && Ranked(e, 8, 9)
    requires 5 <= k <= 7 && Around(rest, x, k)
    ensures Around(p + (i + (u + (b + rest))) + e, x, k)
  {
    AroundLeft(b, rest, x, k);
    AroundLast(p, i, u, b + rest, e, x, k);
  }

  lemma AroundTail(p: seq<Call>, i: seq<Call>, u: seq<Call>, b: seq<Call>, s: seq<Call>, rest: seq<Call>, e: seq<Call>,
                   x: seq<Call>, k: nat)
    requires Ranked(p, 0, 1) && Ranked(i, 2, 2) && Ranked(u, 3, 3) && Ranked(b, 4, 4) && Ranked(s, 5, 5)
    requires Ranked(e, 8, 9) && 6 <= k <= 7 && Around(rest, x, k)
    ensures Around(p + (i + (u + (b + (s + rest)))) + e, x, k)
  {
    AroundLeft(s, rest, x, k);
    AroundAfter(p, i, u, b, s + rest, e, x, k);
  }

  lemma StandaloneStretch(q: seq<Pending>)
    ensures Ranked(Alone(q), 5, 5) && Project(Alone(q), DatasetOf) == Unnamed(Pick(q, AsDataset), q)
  {
    forall name ensures name in NamesUsed(Pick(q, AsUrcb)) + NamesUsed(Pick(q, AsBrcb)) <==> Named(q, name) {
      NamedIsUsed(q, name);
    }
    StandaloneRanked(Pick(q, AsDataset), NamesUsed(Pick(q, AsUrcb)) + NamesUsed(Pick(q, AsBrcb)), q);
  }

  lemma FrameRanked(t: Taken)
    ensures Ranked(Prelude(t), 0, 1) && Ranked(Finale(t.pending), 8, 9)
  {
  }

  lemma PlannedOrder(t: Taken)
    requires QueueInv(t.pending)
    ensures Ready(t.pending) && ByRank(PlannedCalls(t)) && InQueueOrder(PlannedCalls(t), t.pending)
  {
    var q := t.pending;
    InvMakesReady(q);
    var u := ReportCalls(Pick(q, AsUrcb), Pick(q, AsDataset), false);
    var b := ReportCalls(Pick(q, AsBrcb), Pick(q, AsDataset), true);
    FrameRanked(t);
    ImmediatesRanked(q);
    UrcbsRanked(Pick(q, AsUrcb), Pick(q, AsDataset));
    BrcbsRanked(Pick(q, AsBrcb), Pick(q, AsDataset));
    StandaloneStretch(q);
    LogsRanked(Pick(q, AsLog));
    GroupsRanked(Pick(q, AsGroup));
    var p, i, e := Prelude(t), Pick(q, AsImmediate), Finale(q);
    var s, l, g := Alone(q), LogCalls(Pick(q, AsLog)), GroupCalls(Pick(q, AsGroup));
    StretchesRanked(p, i, u, b, s, l, g, e);
    StretchesAround(p, i, u, b, s, l, g, e);
    assert PlannedCalls(t) == p + (i + (u + (b + (s + (l + g))))) + e;
    AroundInOrder(PlannedCalls(t), i, u, b, s, l, g, q);
  }

  lemma AroundInOrder(log: seq<Call>, i: seq<Call>, u: seq<Call>, b: seq<Call>, s: seq<Call>, l: seq<Call>,
                      g: seq<Call>, q: seq<Pending>)
    requires Around(log, i, 2) && Around(log, u, 3) && Around(log, b, 4)
    requires Around(log, s, 5) && Around(log, l, 6) && Around(log, g, 7)
    requires Project(i, ImmediateOf) == Pick(q, AsImmediate)
    requires Project(u, UrcbOf) == Pick(q, AsUrcb) && Project(b, BrcbOf) == Pick(q, AsBrcb)
    requires Project(s, DatasetOf) == Unnamed(Pick(q, AsDataset), q)
    requires Project(l, LogOf) == Pick(q, AsLog) && Project(g, GroupOf) == Pick(q, AsGroup)
    ensures InQueueOrder(log, q)
  {
    Ranks();
    ProjectAround(log, i, ImmediateOf, 2);
    ProjectAround(log, u, UrcbOf, 3);
    ProjectAround(log, b, BrcbOf, 4);
    ProjectAround(log, s, DatasetOf, 5);
    ProjectAround(log, l, LogOf, 6);
    ProjectAround(log, g, GroupOf, 7);
  }

  // What was accepted.

  lemma {:induction false} AcceptedUpTo(native: Native, log: seq<Call>, calls: seq<Call>, i: nat)
    requires i <= AcceptedFirst(native, log, calls)
    ensures i < AcceptedFirst(native, log, calls) && MayRefuse(calls[i]) ==> native(log + calls[..i], calls[i])
    ensures i == AcceptedFirst(native, log, calls) < |calls| ==>
              MayRefuse(calls[i]) && !native(log + calls[..i], calls[i])
    decreases calls
  {
    if i == 0 {
      assert log + calls[..0] == log;
    } else {
      AcceptedUpTo(native, log + [calls[0]], calls[1..], i - 1);
      assert log + [calls[0]] + calls[1..][..i - 1] == log + calls[..i];
    }
  }

  lemma TakenUpTo(native: Native, calls: seq<Call>)
    ensures TakenInTurn(native, calls[..AcceptedFirst(native, [], calls)])
  {
    var k := AcceptedFirst(native, [], calls);
    forall i | 0 <= i < k && MayRefuse(calls[i])
      ensures native(calls[..k][..i], calls[..k][i])
    {
      AcceptedUpTo(native, [], calls, i);
      assert [] + calls[..i] == calls[..k][..i];
    }
  }

  /** A start that would have made all the calls of `whole`, a complete log, was stopped by the refusal of the `k`th. */
  ghost predicate StoppedBy(native: Native, whole: seq<Call>, k: nat, addr: Address, tls: Option<Tls>, q: seq<Pending>)
  {
    && Complete(whole, addr, tls, q) && k < |whole|
    && TakenInTurn(native, whole[..k]) && MayRefuse(whole[k]) && !native(whole[..k], whole[k])
  }

  function RefusedWith(c: Call): PyError {
    match c case RegisterSettingGroup(_) => KeyError case _ => ServerError
  }

  lemma RefusedAt(native: Native, planned: seq<Call>, k: nat)
    requires k == AcceptedFirst(native, [], planned) < |planned|
    ensures MayRefuse(planned[k]) && !native(planned[..k], planned[k])
  {
    AcceptedUpTo(native, [], planned, k);
    assert [] + planned[..k] == planned[..k];
  }

  /** The outcome of making calls in turn, told by what the native server takes. */
  lemma RunTaken(native: Native, planned: seq<Call>)
    ensures var (made, err) := Run(native, [], Calls(planned));
            var k := AcceptedFirst(native, [], planned);
            && made == planned[..k] && TakenInTurn(native, made)
            && err == (if k < |planned| then Some(Refused(planned[k])) else None)
            && (k < |planned| ==> MayRefuse(planned[k]) && !native(planned[..k], planned[k]))
  {
    var k := AcceptedFirst(native, [], planned);
    RunCalls(native, [], planned);
    TakenUpTo(native, planned);
    assert [] + planned[..k] == planned[..k];
    if k < |planned| {
      RefusedAt(native, planned, k);
    }
  }

  /** The start failed with the exception of the call that was refused. */
  ghost predicate FailedBy(native: Native, error: PyError, addr: Address, tls: Option<Tls>, q: seq<Pending>) {
    exists whole: seq<Call>, k: nat ::
      StoppedBy(native, whole, k, addr, tls, q) && error == RefusedWith(whole[k])
  }

  lemma PlannedComplete(t: Taken)
    requires QueueInv(t.pending)
    ensures Ready(t.pending) && Complete(PlannedCalls(t), t.addr, t.tls, t.pending)
    ensures Plan(t) == Calls(PlannedCalls(t))
  {
    PlannedCounts(t);
    PlannedOrder(t);
    PlanIsCalls(t);
  }

  lemma Judged(native: Native, planned: seq<Call>, addr: Address, tls: Option<Tls>, q: seq<Pending>)
    requires Complete(planned, addr, tls, q)
    ensures var (made, err) := Run(native, [], Calls(planned));
            match err
            case None => Complete(made, addr, tls, q) && TakenInTurn(native, made)
            case Some(e) => e.Refused? && FailedBy(native, RefusedWith(e.call), addr, tls, q)
  {
    RunTaken(native, planned);
    var k := AcceptedFirst(native, [], planned);
    if k < |planned| {
      assert StoppedBy(native, planned, k, addr, tls, q);
    } else {
      assert planned[..k] == planned;
    }
  }

  lemma StartOfRun(native: Native, state: ServerState, handle: Handle)
    requires state.NotStarted? && state.bindAddr.Some?
    ensures var (made, err) := Run(native, [], Plan(Taken(state.bindAddr.value, state.pending, state.tls)));
            match err
            case None => StartStep(native, state, handle) == (Running(made, Some(handle)), Ok(()))
            case Some(UnknownDataset(_, _)) => true
            case Some(Refused(c)) => StartStep(native, state, handle) == (Stopped, Raised(RefusedWith(c)))
  {
  }

  /** Of a start from a queue that keeps its invariant: when it succeeds, the log is complete and every call of it was
      taken; when it fails, it was at a call that the native server refused, with the exception of that call. */
  lemma StartLogged(native: Native, state: ServerState, handle: Handle)
    requires StateInv(state) && state.NotStarted? && state.bindAddr.Some?
    ensures var (after, r) := StartStep(native, state, handle);
            match r
            case Ok(_) =>
              && after.Running? && after.handle == Some(handle)
              && Complete(after.log, state.bindAddr.value, state.tls, state.pending) && TakenInTurn(native, after.log)
            case Raised(e) => after == Stopped && FailedBy(native, e, state.bindAddr.value, state.tls, state.pending)
  {
    var t := Taken(state.bindAddr.value, state.pending, state.tls);
    PlannedComplete(t);
    Judged(native, PlannedCalls(t), t.addr, t.tls, t.pending);
    StartOfRun(native, state, handle);
  }

  lemma OnceIn(s: seq<Call>, c: Call)
    requires multiset(s)[c] > 0
    ensures exists i :: 0 <= i < |s| && s[i] == c
  {
    assert c in s;
  }

  /** A complete log begins with the build on the address bound, secured exactly when TLS is configured, and with that
      configuration loaded right before it. */
  lemma BuildComesFirst(log: seq<Call>, addr: Address, tls: Option<Tls>, q: seq<Pending>)
    requires Complete(log, addr, tls, q)
    ensures var at := if tls.Some? then 1 else 0;
            && |log| > at && log[at].Build? && log[at].addr == addr && log[at].secured == tls.Some?
            && SetLast(q, log[at].authenticator)
            && (tls.Some? ==> log[0] == LoadTls(tls.value))
            && forall i :: 0 <= i < |log| && i != at ==> !log[i].Build? && (log[i].LoadTls? ==> i == 0 && tls.Some?)
    ensures log[|log| - 1] == Open && forall i :: 0 <= i < |log| - 1 ==> log[i] != Open
  {
    var build := Build(addr, tls.Some?, LastAuthenticator(q));
    LastIsSetLast(q, LastAuthenticator(q));
    assert multiset(log)[build] == 1 && multiset(log)[Open] == 1;
    forall c | c in log && (c.Build? || c.LoadTls?)
      ensures c == build || (tls.Some? && c == LoadTls(tls.value))
    {
      assert multiset(log)[c] > 0;
      if c.Build? {
        LastIsSetLast(q, c.authenticator);
      }
    }
    PositionsOf(log, build, tls);
    OpenAtEnd(log);
  }

  lemma {:induction false} CountTwice(s: seq<Call>, i: nat, j: nat)
    requires i < j < |s| && s[i] == s[j]
    ensures multiset(s)[s[i]] >= 2
  {
    assert s == s[..j] + s[j..];
    assert s[..j][i] in s[..j] && s[j..][0] in s[j..];
  }

  lemma OpenAtEnd(log: seq<Call>)
    requires ByRank(log) && multiset(log)[Open] == 1
    ensures log != [] && log[|log| - 1] == Open && forall i :: 0 <= i < |log| - 1 ==> log[i] != Open
  {
    assert Open in log;
    var i :| 0 <= i < |log| && log[i] == Open;
    assert Rank(log[|log| - 1]) == 9;
    forall j | 0 <= j < |log| - 1 ensures log[j] != Open {
      if log[j] == Open {
        CountTwice(log, j, |log| - 1);
      }
    }
  }

  lemma PositionsOf(log: seq<Call>, build: Call, tls: Option<Tls>)
    requires ByRank(log) && build.Build? && multiset(log)[build] == 1
    requires tls.Some? ==> multiset(log)[LoadTls(tls.value)] == 1
    requires forall c <- log :: c.Build? || c.LoadTls? ==> c == build || (tls.Some? && c == LoadTls(tls.value))
    ensures var at := if tls.Some? then 1 else 0;
            && |log| > at && log[at] == build
            && (tls.Some? ==> log[0] == LoadTls(tls.value))
            && forall i :: 0 <= i < |log| && i != at ==> !log[i].Build? && (log[i].LoadTls? ==> i == 0 && tls.Some?)
  {
    OnceIn(log, build);
    var b :| 0 <= b < |log| && log[b] == build;
    forall i | 0 <= i < |log| && i != b ensures log[i] != build {
      if log[i] == build {
        CountTwice(log, if i < b then i else b, if i < b then b else i);
      }
    }
    if tls.Some? {
      OnceIn(log, LoadTls(tls.value));
      var l :| 0 <= l < |log| && log[l] == LoadTls(tls.value);
      forall i | 0 <= i < |log| && i != l ensures log[i] != LoadTls(tls.value) {
        if log[i] == LoadTls(tls.value) {
          CountTwice(log, if i < l then i else l, if i < l then l else i);
        }
      }
      assert l < b;
      assert l == 0 by {
        assert Rank(log[0]) == 0;
      }
      assert b == 1 by {
        assert log[1] in log && Rank(log[1]) <= 1;
      }
    } else {
      assert b == 0 by {
        assert log[0] in log && Rank(log[0]) <= 1;
      }
    }
  }
}
