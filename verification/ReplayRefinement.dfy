/** Queuing registrations and starting installs what issuing them on the running server installs. */
module ReplayRefinement {
  import opened Common
  import opened ServerState
  import opened Replay
  import opened RegistrationLaws

  type Controls = map<ControlKey, Control>

  /** What the calls on the native server leave installed: per key the last entry wins, and the model's own control
      objects (`modelControls`) go in only where none is registered. */
  datatype Installed = Installed(
    readers: map<string, Handler>, writers: map<string, Handler>, controls: Controls,
    groups: map<string, Group>, authenticator: Option<Callback>)

  const NOTHING := Installed(map[], map[], map[], map[], None)

  function Apply(modelControls: Controls, h: Installed, c: Call): Installed {
    match c
    case Build(_, _, a) => h.(authenticator := a)
    case SetAuthenticator(a) => h.(authenticator := a)
    case InstallRead(k, x) => h.(readers := h.readers[k := x])
    case InstallWrite(k, x) => h.(writers := h.writers[k := x])
    case RegisterControl(x) => h.(controls := h.controls[x.key := x])
    case RegisterSettingGroup(g) => h.(groups := h.groups[g.domain := g])
    case RegisterFromModel => h.(controls := modelControls + h.controls)
    case _ => h
  }

  function ApplyAll(modelControls: Controls, h: Installed, calls: seq<Call>): Installed
    decreases calls
  {
    if calls == [] then h else ApplyAll(modelControls, Apply(modelControls, h, calls[0]), calls[1..])
  }

  function InstalledBy(modelControls: Controls, log: seq<Call>): Installed {
    ApplyAll(modelControls, NOTHING, log)
  }

  // What a sequence of registrations amounts to, kind by kind.

  /** Per key, what the last registration that `f` picks gives it. */
  function LastWins<V>(ops: seq<Pending>, f: Pending -> Option<(string, V)>): map<string, V> {
    if ops == [] then map[]
    else
      var before := LastWins(ops[..|ops| - 1], f);
      match f(ops[|ops| - 1])
      case Some((k, v)) => before[k := v]
      case None => before
  }

  function AsRead(p: Pending): Option<(string, Handler)> { if p.Read? then Some((p.canonical, p.handler)) else None }

  function AsWrite(p: Pending): Option<(string, Handler)> { if p.Write? then Some((p.canonical, p.handler)) else None }

  function AsGroupOf(p: Pending): Option<(string, Group)> {
    if p.SettingGroup? then Some((p.group.domain, p.group)) else None
  }

  function ControlObjects(ops: seq<Pending>): Controls {
    if ops == [] then map[]
    else
      var before, last := ControlObjects(ops[..|ops| - 1]), ops[|ops| - 1];
      if last.ControlObject? then before[last.control.key := last.control] else before
  }

  function Summary(modelControls: Controls, ops: seq<Pending>): Installed {
    Installed(LastWins(ops, AsRead), LastWins(ops, AsWrite),
              if HasSlot(ops, WholeModel) then modelControls + ControlObjects(ops) else ControlObjects(ops),
              LastWins(ops, AsGroupOf), LastAuthenticator(ops))
  }

  lemma LastWinsSnoc<V>(ops: seq<Pending>, p: Pending, f: Pending -> Option<(string, V)>)
    ensures LastWins(ops + [p], f) ==
            match f(p) case Some((k, v)) => LastWins(ops, f)[k := v] case None => LastWins(ops, f)
  {
    assert (ops + [p])[..|ops|] == ops;
  }

  lemma ControlsSnoc(ops: seq<Pending>, p: Pending)
    ensures ControlObjects(ops + [p]) ==
            if p.ControlObject? then ControlObjects(ops)[p.control.key := p.control] else ControlObjects(ops)
  {
    assert (ops + [p])[..|ops|] == ops;
  }

  lemma {:induction false} ApplyAppend(modelControls: Controls, h: Installed, a: seq<Call>, b: seq<Call>)
    ensures ApplyAll(modelControls, h, a + b) == ApplyAll(modelControls, ApplyAll(modelControls, h, a), b)
    decreases a
  {
    if a == [] {
      assert a + b == b;
    } else {
      assert (a + b)[1..] == a[1..] + b;
      ApplyAppend(modelControls, Apply(modelControls, h, a[0]), a[1..], b);
    }
  }

  // The direct side.

  /** Registrations that are possible before and after the start. */
  ghost predicate Late(ops: seq<Pending>) {
    forall p <- ops :: DirectCall(p).Some?
  }

  function DirectCalls(ops: seq<Pending>): seq<Call> {
    Pick(ops, DirectCall)
  }

  lemma UnderModel(m: Controls, c: Controls, k: ControlKey, x: Control)
    ensures m + (m + c) == m + c && (m + c)[k := x] == m + c[k := x]
  {
  }

  /** What one registration changes; those that are only possible before the start install none of this. */
  function Effect(modelControls: Controls, h: Installed, p: Pending): Installed {
    match DirectCall(p)
    case Some(c) => Apply(modelControls, h, c)
    case None => h
  }

  lemma SummarySnoc(modelControls: Controls, ops: seq<Pending>, p: Pending)
    ensures Summary(modelControls, ops + [p]) == Effect(modelControls, Summary(modelControls, ops), p)
  {
    LastWinsSnoc(ops, p, AsRead);
    LastWinsSnoc(ops, p, AsWrite);
    LastWinsSnoc(ops, p, AsGroupOf);
    ControlsSnoc(ops, p);
    HasSlotSnoc(ops, p, WholeModel);
    assert (ops + [p])[..|ops|] == ops;
    if p.ControlObject? {
      UnderModel(modelControls, ControlObjects(ops), p.control.key, p.control);
    } else if p.FromModel? {
      assert modelControls + (modelControls + ControlObjects(ops)) == modelControls + ControlObjects(ops);
    }
  }

  lemma DirectCallsSnoc(ops: seq<Pending>, p: Pending)
    ensures DirectCalls(ops + [p]) ==
            match DirectCall(p) case Some(c) => DirectCalls(ops) + [c] case None => DirectCalls(ops)
  {
    PickSnoc(ops, p, DirectCall);
  }

  /** Issued one after the other on a server that starts with nothing, registrations leave their summary. */
  lemma {:induction false} DirectIsSummary(modelControls: Controls, ops: seq<Pending>)
    ensures ApplyAll(modelControls, NOTHING, DirectCalls(ops)) == Summary(modelControls, ops)
  {
    if ops != [] {
      var init, last := ops[..|ops| - 1], ops[|ops| - 1];
      assert ops == init + [last];
      DirectIsSummary(modelControls, init);
      DirectCallsSnoc(init, last);
      if DirectCall(last).Some? {
        ApplyAppend(modelControls, NOTHING, DirectCalls(init), [DirectCall(last).value]);
      }
      SummarySnoc(modelControls, init, last);
    }
  }

  // The queued side.

  /** The queue after a sequence of registrations; a refused one leaves it as it was. */
  function QueueAll(ops: seq<Pending>): seq<Pending> {
    if ops == [] then []
    else
      var q := QueueAll(ops[..|ops| - 1]);
      match Enqueue(q, ops[|ops| - 1]) case Ok(q') => q' case Raised(_) => q
  }

  /** The queue invariant holds after every sequence of registration calls. */
  lemma {:induction false} QueueAllKeepsInv(ops: seq<Pending>)
    ensures QueueInv(QueueAll(ops))
  {
    if ops != [] {
      QueueAllKeepsInv(ops[..|ops| - 1]);
      var q := QueueAll(ops[..|ops| - 1]);
      if Enqueue(q, ops[|ops| - 1]).Ok? {
        EnqueueKeepsInv(q, ops[|ops| - 1]);
      }
    }
  }

  lemma {:induction false} RetainLastWins<V>(q: seq<Pending>, slot: Slot, f: Pending -> Option<(string, V)>)
    requires forall p :: SlotOf(p) == Some(slot) ==> f(p).None?
    ensures LastWins(Retain(q, slot), f) == LastWins(q, f)
  {
    if q != [] {
      var init, last := q[..|q| - 1], q[|q| - 1];
      RetainLastWins(init, slot, f);
      LastWinsSnoc(Retain(init, slot), last, f);
    }
  }

  lemma WithoutKey(groups: map<string, Group>, domain: string, k: string, g: Group)
    ensures groups[k := g] - {domain} == if k == domain then groups - {domain} else (groups - {domain})[k := g]
  {
  }

  lemma {:induction false} RetainGroups(q: seq<Pending>, domain: string)
    ensures LastWins(Retain(q, GroupDomain(domain)), AsGroupOf) == LastWins(q, AsGroupOf) - {domain}
  {
    if q != [] {
      var init, last := q[..|q| - 1], q[|q| - 1];
      RetainGroups(init, domain);
      LastWinsSnoc(Retain(init, GroupDomain(domain)), last, AsGroupOf);
      if last.SettingGroup? {
        WithoutKey(LastWins(init, AsGroupOf), domain, last.group.domain, last.group);
      }
    }
  }

  lemma {:induction false} RetainOthers(q: seq<Pending>, domain: string)
    ensures var kept := Retain(q, GroupDomain(domain));
            ControlObjects(kept) == ControlObjects(q) && LastAuthenticator(kept) == LastAuthenticator(q)
  {
    if q != [] {
      var init, last := q[..|q| - 1], q[|q| - 1];
      var kept := Retain(init, GroupDomain(domain));
      RetainOthers(init, domain);
      ControlsSnoc(kept, last);
      assert (kept + [last])[..|kept|] == kept;
    }
  }

  lemma RetainSummary(modelControls: Controls, q: seq<Pending>, domain: string)
    ensures Summary(modelControls, Retain(q, GroupDomain(domain))) ==
            Summary(modelControls, q).(groups := LastWins(q, AsGroupOf) - {domain})
  {
    var slot := GroupDomain(domain);
    RetainLastWins(q, slot, AsRead);
    RetainLastWins(q, slot, AsWrite);
    RetainGroups(q, domain);
    RetainOthers(q, domain);
    RetainSlots(q, slot, WholeModel);
  }

  lemma Overwritten(groups: map<string, Group>, domain: string, g: Group)
    ensures (groups - {domain})[domain := g] == groups[domain := g]
  {
  }

  /** Replacing an earlier setting group entry amounts to registering over it. */
  lemma ReplacedGroup(modelControls: Controls, q: seq<Pending>, p: Pending)
    requires p.SettingGroup?
    ensures Summary(modelControls, Retain(q, GroupDomain(p.group.domain)) + [p]) ==
            Apply(modelControls, Summary(modelControls, q), RegisterSettingGroup(p.group))
  {
    RetainSummary(modelControls, q, p.group.domain);
    SummarySnoc(modelControls, Retain(q, GroupDomain(p.group.domain)), p);
    Overwritten(LastWins(q, AsGroupOf), p.group.domain, p.group);
  }

  /** Queuing a registration has the effect of its call, also where the queue refuses or replaces. */
  lemma EnqueueIsApply(modelControls: Controls, q: seq<Pending>, p: Pending)
    ensures Summary(modelControls, match Enqueue(q, p) case Ok(q') => q' case Raised(_) => q) ==
            Effect(modelControls, Summary(modelControls, q), p)
  {
    if p.SettingGroup? {
      ReplacedGroup(modelControls, q, p);
    } else if Enqueue(q, p).Ok? {
      SummarySnoc(modelControls, q, p);
    } else if p.FromModel? {
      assert modelControls + (modelControls + ControlObjects(q)) == modelControls + ControlObjects(q);
    }
  }

  /** De-duplication by retain loses nothing: whatever is registered in whatever order, the queue has the summary of the
      calls that filled it. */
  lemma {:induction false} QueueSummary(modelControls: Controls, ops: seq<Pending>)
    ensures Summary(modelControls, QueueAll(ops)) == Summary(modelControls, ops)
  {
    if ops != [] {
      var init, last := ops[..|ops| - 1], ops[|ops| - 1];
      assert ops == init + [last];
      QueueSummary(modelControls, init);
      SummarySnoc(modelControls, init, last);
      EnqueueIsApply(modelControls, QueueAll(init), last);
    }
  }

  /** Calls that install none of what `Installed` records. */
  ghost predicate Unrecorded(calls: seq<Call>) {
    forall c <- calls ::
      c.RegisterUrcb? || c.RegisterBrcb? || c.RegisterDataset? || c.RegisterLogControl? || c.LoadTls? || c.Open?
  }

  lemma {:induction false} UnrecordedChangeNothing(modelControls: Controls, h: Installed, calls: seq<Call>)
    requires Unrecorded(calls)
    ensures ApplyAll(modelControls, h, calls) == h
  {
    if calls != [] {
      assert calls[0] in calls;
      UnrecordedChangeNothing(modelControls, h, calls[1..]);
    }
  }

  lemma {:induction false} ReportsUnrecorded(reports: seq<Report>, datasets: seq<Dataset>, buffered: bool)
    requires AllFound(reports, datasets)
    ensures Unrecorded(ReportCalls(reports, datasets, buffered))
  {
    if reports != [] {
      ReportsUnrecorded(reports[1..], datasets, buffered);
    }
  }

  lemma {:induction false} StandaloneUnrecorded(datasets: seq<Dataset>, used: set<string>)
    ensures Unrecorded(Standalone(datasets, used))
  {
    if datasets != [] {
      StandaloneUnrecorded(datasets[1..], used);
    }
  }

  lemma {:induction false} LogsUnrecorded(blocks: seq<LogBlock>)
    ensures Unrecorded(LogCalls(blocks))
  {
    if blocks != [] {
      LogsUnrecorded(blocks[1..]);
    }
  }

  /** The handlers and control objects of a queue, installed in queue order. */
  lemma {:induction false} ImmediateInstalls(modelControls: Controls, a: Option<Callback>, q: seq<Pending>)
    ensures ApplyAll(modelControls, NOTHING.(authenticator := a), Pick(q, AsImmediate)) ==
            Installed(LastWins(q, AsRead), LastWins(q, AsWrite), ControlObjects(q), map[], a)
  {
    if q != [] {
      var init, last := q[..|q| - 1], q[|q| - 1];
      assert q == init + [last];
      ImmediateInstalls(modelControls, a, init);
      PickAppend(init, [last], AsImmediate);
      var one := Pick([last], AsImmediate);
      ApplyAppend(modelControls, NOTHING.(authenticator := a), Pick(init, AsImmediate), one);
      assert one == match AsImmediate(last) case Some(c) => [c] case None => [];
    }
  }

  lemma {:induction false} GroupsInstall(modelControls: Controls, h: Installed, q: seq<Pending>)
    requires h.groups == map[]
    ensures ApplyAll(modelControls, h, GroupCalls(Pick(q, AsGroup))) == h.(groups := LastWins(q, AsGroupOf))
  {
    GroupCallsPicked(q);
    if q != [] {
      var init, last := q[..|q| - 1], q[|q| - 1];
      assert q == init + [last];
      GroupsInstall(modelControls, h, init);
      GroupCallsPicked(init);
      PickAppend(init, [last], GroupEntry);
      var one := Pick([last], GroupEntry);
      ApplyAppend(modelControls, h, Pick(init, GroupEntry), one);
      assert one == match GroupEntry(last) case Some(c) => [c] case None => [];
    }
  }

  lemma BlocksInstallGroups(modelControls: Controls, h: Installed, q: seq<Pending>)
    requires Ready(q) && h.groups == map[]
    ensures ApplyAll(modelControls, h, BlockCalls(q)) == h.(groups := LastWins(q, AsGroupOf))
  {
    var datasets, urcbs, brcbs := Pick(q, AsDataset), Pick(q, AsUrcb), Pick(q, AsBrcb);
    var u, b := ReportCalls(urcbs, datasets, false), ReportCalls(brcbs, datasets, true);
    var s := Standalone(datasets, NamesUsed(urcbs) + NamesUsed(brcbs));
    var l, g := LogCalls(Pick(q, AsLog)), GroupCalls(Pick(q, AsGroup));
    ReportsUnrecorded(urcbs, datasets, false);
    ReportsUnrecorded(brcbs, datasets, true);
    StandaloneUnrecorded(datasets, NamesUsed(urcbs) + NamesUsed(brcbs));
    LogsUnrecorded(Pick(q, AsLog));
    var before := u + b + s + l;
    assert u + (b + (s + (l + g))) == before + g;
    UnrecordedChangeNothing(modelControls, h, before);
    ApplyAppend(modelControls, h, before, g);
    GroupsInstall(modelControls, h, q);
  }

  /** A start that makes all its calls leaves the summary of its queue. */
  lemma PlanInstallsSummary(modelControls: Controls, t: Taken)
    requires Ready(t.pending)
    ensures InstalledBy(modelControls, PlannedCalls(t)) == Summary(modelControls, t.pending)
  {
    EarlyInstalls(modelControls, t);
    ApplyAppend(modelControls, NOTHING, EarlyCalls(t), Finale(t.pending));
    FinaleInstalls(modelControls, ApplyAll(modelControls, NOTHING, EarlyCalls(t)), t.pending);
  }

  lemma EarlyInstalls(modelControls: Controls, t: Taken)
    requires Ready(t.pending)
    ensures var q := t.pending;
            ApplyAll(modelControls, NOTHING, EarlyCalls(t)) ==
            Installed(LastWins(q, AsRead), LastWins(q, AsWrite), ControlObjects(q), LastWins(q, AsGroupOf),
                      LastAuthenticator(q))
  {
    var q, i, a := t.pending, Pick(t.pending, AsImmediate), LastAuthenticator(t.pending);
    PreludeInstalls(modelControls, t);
    ApplyAppend(modelControls, NOTHING, Prelude(t), i + BlockCalls(q));
    ApplyAppend(modelControls, NOTHING.(authenticator := a), i, BlockCalls(q));
    ImmediateInstalls(modelControls, a, q);
    BlocksInstallGroups(modelControls, ApplyAll(modelControls, NOTHING.(authenticator := a), i), q);
  }

  lemma ApplyOne(modelControls: Controls, h: Installed, c: Call)
    ensures ApplyAll(modelControls, h, [c]) == Apply(modelControls, h, c)
  {
  }

  lemma PreludeInstalls(modelControls: Controls, t: Taken)
    ensures ApplyAll(modelControls, NOTHING, Prelude(t)) == NOTHING.(authenticator := LastAuthenticator(t.pending))
  {
    var secure: seq<Call> := if t.tls.Some? then [LoadTls(t.tls.value)] else [];
    var build := Build(t.addr, t.tls.Some?, LastAuthenticator(t.pending));
    UnrecordedChangeNothing(modelControls, NOTHING, secure);
    ApplyAppend(modelControls, NOTHING, secure, [build]);
    ApplyOne(modelControls, NOTHING, build);
  }

  lemma FinaleInstalls(modelControls: Controls, h: Installed, q: seq<Pending>)
    ensures ApplyAll(modelControls, h, Finale(q)) ==
            if HasSlot(q, WholeModel) then h.(controls := modelControls + h.controls) else h
  {
    ApplyOne(modelControls, h, Open);
    if HasSlot(q, WholeModel) {
      ApplyAppend(modelControls, h, [RegisterFromModel], [Open]);
      ApplyOne(modelControls, h, RegisterFromModel);
      ApplyOne(modelControls, Apply(modelControls, h, RegisterFromModel), Open);
    }
  }

  // The two sides together.

  /** A start of a server in any state, with the listener's handle given. */
  function StartStep(native: Native, state: ServerState, handle: Handle): (ServerState, Result<()>) {
    match TakeForStart(state)
    case (placeholder, Raised(e)) => (placeholder, Raised(e))
    case (placeholder, Ok(t)) =>
      match Run(native, [], Plan(t))
      case (log, None) => (Running(log, Some(handle)), Ok(()))
      case (_, Some(UnknownDataset(_, _))) => (placeholder, Raised(KeyError))
      case (_, Some(Refused(c))) => (placeholder, Raised(RefusalOf(c)))
  }

  /** The state after a sequence of registrations, and whether every one was accepted that can also be made on a
      running server. */
  function SubmitAll(native: Native, state: ServerState, ops: seq<Pending>): (ServerState, bool)
    decreases ops
  {
    if ops == [] then (state, true)
    else
      var (before, ok) := SubmitAll(native, state, ops[..|ops| - 1]);
      var (after, r) := Submit(native, before, ops[|ops| - 1]);
      (after, ok && (DirectCall(ops[|ops| - 1]).Some? ==> r.Ok?))
  }

  lemma {:induction false} SubmittedToQueue(native: Native, addr: Option<Address>, tls: Option<Tls>, ops: seq<Pending>)
    ensures SubmitAll(native, NotStarted(addr, [], tls), ops).0 == NotStarted(addr, QueueAll(ops), tls)
  {
    if ops != [] {
      SubmittedToQueue(native, addr, tls, ops[..|ops| - 1]);
    }
  }

  lemma {:induction false} SubmittedToServer(native: Native, log: seq<Call>, handle: Option<Handle>, ops: seq<Pending>)
    requires SubmitAll(native, Running(log, handle), ops).1
    ensures SubmitAll(native, Running(log, handle), ops).0 == Running(log + DirectCalls(ops), handle)
  {
    if ops == [] {
      assert log + [] == log;
    } else {
      var init, last := ops[..|ops| - 1], ops[|ops| - 1];
      assert ops == init + [last];
      SubmittedToServer(native, log, handle, init);
      DirectCallsSnoc(init, last);
      if DirectCall(last).Some? {
        assert log + DirectCalls(init) + [DirectCall(last).value] == log + DirectCalls(ops);
      }
    }
  }

  /** For any sequence of registrations of every kind: queued and then started, or issued in the same order on a server
      started empty, where those that have to come before the start are refused, they leave the same handlers, control
      objects, setting group callbacks and authenticator, whenever the native server accepts both ways. */
  lemma QueuedIsDirect(native: Native, modelControls: Controls, addr: Address, tls: Option<Tls>, ops: seq<Pending>,
                       handle: Handle)
    requires var unstarted := NotStarted(Some(addr), [], tls);
             && StartStep(native, SubmitAll(native, unstarted, ops).0, handle).1.Ok?
             && StartStep(native, unstarted, handle).1.Ok?
             && SubmitAll(native, StartStep(native, unstarted, handle).0, ops).1
    ensures var unstarted := NotStarted(Some(addr), [], tls);
            var queued := StartStep(native, SubmitAll(native, unstarted, ops).0, handle).0;
            var direct := SubmitAll(native, StartStep(native, unstarted, handle).0, ops).0;
            && queued.Running? && direct.Running?
            && InstalledBy(modelControls, queued.log) == InstalledBy(modelControls, direct.log)
            && InstalledBy(modelControls, queued.log) == Summary(modelControls, ops)
  {
    var t, empty := Taken(addr, QueueAll(ops), tls), Taken(addr, [], tls);
    SubmittedToQueue(native, Some(addr), tls, ops);
    QueueAllKeepsInv(ops);
    StartOutcome(native, t);
    StartOutcome(native, empty);
    PlanInstallsSummary(modelControls, t);
    SubmittedToServer(native, PlannedCalls(empty), Some(handle), ops);
    QueueSummary(modelControls, ops);
    PlanInstallsSummary(modelControls, empty);
    assert Summary(modelControls, []) == NOTHING;
    ApplyAppend(modelControls, NOTHING, PlannedCalls(empty), DirectCalls(ops));
    DirectIsSummary(modelControls, ops);
  }

  // What is in effect, before and after the start.

  /** What is installed, or will be once the queue is started. */
  function InEffect(modelControls: Controls, state: ServerState): Installed {
    match state
    case NotStarted(_, q, _) => Summary(modelControls, q)
    case Running(log, _) => InstalledBy(modelControls, log)
    case Stopped => NOTHING
  }

  /** An accepted registration has the same effect whether it is queued or made at once. */
  lemma RegistrationTakesEffect(native: Native, modelControls: Controls, state: ServerState, p: Pending)
    requires Submit(native, state, p).1.Ok?
    ensures InEffect(modelControls, Submit(native, state, p).0) ==
            Effect(modelControls, InEffect(modelControls, state), p)
  {
    match state
    case NotStarted(_, q, _) => EnqueueIsApply(modelControls, q, p);
    case Running(log, _) => ApplyAppend(modelControls, NOTHING, log, [DirectCall(p).value]);
    case Stopped =>
  }

  /** A start that succeeds changes nothing of what is in effect. */
  lemma StartKeepsEffect(native: Native, modelControls: Controls, state: ServerState, handle: Handle)
    requires StateInv(state) && StartStep(native, state, handle).1.Ok?
    ensures InEffect(modelControls, StartStep(native, state, handle).0) == InEffect(modelControls, state)
  {
    var t := Taken(state.bindAddr.value, state.pending, state.tls);
    StartOutcome(native, t);
    PlanInstallsSummary(modelControls, t);
  }

  /** A start fails with a KeyError only because of a queued setting group handler that the native server refuses. */
  lemma KeyErrorMeansGroup(native: Native, state: ServerState, handle: Handle)
    requires StateInv(state) && StartStep(native, state, handle).1 == Raised(KeyError)
    ensures state.NotStarted?
    ensures exists g, log :: SettingGroup(g) in state.pending && !native(log, RegisterSettingGroup(g))
  {
    var t := Taken(state.bindAddr.value, state.pending, state.tls);
    StartOutcome(native, t);
    var (made, err) := Run(native, [], Plan(t));
    var planned := PlannedCalls(t);
    RunRefused(native, planned);
    PlanIsCalls(t);
    var i :| 0 <= i < |planned| && err == Some(Refused(planned[i])) && made == planned[..i];
    assert planned[i] in planned;
    GroupCallQueued(t, planned[i]);
  }

  lemma RunRefused(native: Native, calls: seq<Call>)
    ensures var (made, err) := Run(native, [], Calls(calls));
            err.Some? && err.value.Refused? ==> !native(made, err.value.call)
  {
    RefusedIn(native, [], calls);
  }

  lemma {:induction false} RefusedIn(native: Native, log: seq<Call>, calls: seq<Call>)
    ensures var (made, err) := Run(native, log, Calls(calls));
            err.Some? && err.value.Refused? ==> !native(made, err.value.call)
    decreases calls
  {
    if calls != [] && Accepts(native, log, calls[0]) {
      assert Calls(calls)[1..] == Calls(calls[1..]);
      RefusedIn(native, log + [calls[0]], calls[1..]);
    }
  }

  lemma GroupCallQueued(t: Taken, c: Call)
    requires Ready(t.pending) && c in PlannedCalls(t) && c.RegisterSettingGroup?
    ensures SettingGroup(c.group) in t.pending
  {
    var q := t.pending;
    var datasets, urcbs, brcbs := Pick(q, AsDataset), Pick(q, AsUrcb), Pick(q, AsBrcb);
    ReportsUnrecorded(urcbs, datasets, false);
    ReportsUnrecorded(brcbs, datasets, true);
    StandaloneUnrecorded(datasets, NamesUsed(urcbs) + NamesUsed(brcbs));
    LogsUnrecorded(Pick(q, AsLog));
    GroupCallsPicked(q);
    PickMember(q, AsImmediate, c);
    PickMember(q, GroupEntry, c);
  }

  lemma {:induction false} PickMember<T>(q: seq<Pending>, f: Pending -> Option<T>, c: T)
    ensures c in Pick(q, f) <==> exists p <- q :: f(p) == Some(c)
  {
    if q != [] {
      PickMember(q[1..], f, c);
      assert forall p <- q :: p == q[0] || p in q[1..];
    }
  }

  // What a queued report or log control block comes to.

  lemma DatasetQueued(q: seq<Pending>, name: string)
    requires FindDataset(Pick(q, AsDataset), name).Some?
    ensures DataSet(FindDataset(Pick(q, AsDataset), name).value) in q
  {
    PickMember(q, AsDataset, FindDataset(Pick(q, AsDataset), name).value);
  }

  lemma {:induction false} ReportCalled(reports: seq<Report>, datasets: seq<Dataset>, buffered: bool, r: Report)
    requires AllFound(reports, datasets) && r in reports
    ensures ReportCall(r, FindDataset(datasets, r.datasetName).value, buffered) in
            ReportCalls(reports, datasets, buffered)
  {
    if r != reports[0] {
      assert r in reports[1..];
      ReportCalled(reports[1..], datasets, buffered, r);
    }
  }

  lemma ReportPlanned(q: seq<Pending>, reports: seq<Report>, r: Report, buffered: bool)
    requires Ready(q) && AllFound(reports, Pick(q, AsDataset)) && r in reports
    requires forall c <- ReportCalls(reports, Pick(q, AsDataset), buffered) :: c in BlockCalls(q)
    ensures exists d: Dataset ::
              d.name == r.datasetName && DataSet(d) in q && ReportCall(r, d, buffered) in BlockCalls(q)
  {
    var d := FindDataset(Pick(q, AsDataset), r.datasetName).value;
    ReportCalled(reports, Pick(q, AsDataset), buffered, r);
    DatasetQueued(q, r.datasetName);
    assert d.name == r.datasetName && DataSet(d) in q && ReportCall(r, d, buffered) in BlockCalls(q);
  }

  lemma ReportsInBlockCalls(q: seq<Pending>)
    requires Ready(q)
    ensures forall c <- ReportCalls(Pick(q, AsUrcb), Pick(q, AsDataset), false) :: c in BlockCalls(q)
    ensures forall c <- ReportCalls(Pick(q, AsBrcb), Pick(q, AsDataset), true) :: c in BlockCalls(q)
  {
  }

  /** A start makes the call of every queued report, with a queued data set of the name it gives. */
  lemma QueuedReportPlanned(q: seq<Pending>, r: Report, buffered: bool)
    requires QueueInv(q) && (if buffered then Brcb(r) else Urcb(r)) in q
    ensures Ready(q)
    ensures exists d: Dataset ::
              d.name == r.datasetName && DataSet(d) in q && ReportCall(r, d, buffered) in BlockCalls(q)
  {
    InvMakesReady(q);
    ReportsInBlockCalls(q);
    if buffered {
      PickMember(q, AsBrcb, r);
      ReportPlanned(q, Pick(q, AsBrcb), r, true);
    } else {
      PickMember(q, AsUrcb, r);
      ReportPlanned(q, Pick(q, AsUrcb), r, false);
    }
  }

  lemma QueuedLogPlanned(q: seq<Pending>, b: LogBlock)
    requires QueueInv(q) && LogControl(b) in q
    ensures Ready(q) && RegisterLogControl(b) in BlockCalls(q)
  {
    InvMakesReady(q);
    LogCallsPicked(q);
    PickMember(q, LogEntry, RegisterLogControl(b));
  }

  // Where earlier calls matter only to blocks, the queued way succeeds whenever the direct way does.

  predicate RegistersBlocks(c: Call) {
    c.RegisterUrcb? || c.RegisterBrcb? || c.RegisterDataset? || c.RegisterLogControl? || c.RegisterFromModel?
  }

  function BlocksOf(log: seq<Call>): seq<Call> {
    if log == [] then []
    else (if RegistersBlocks(log[0]) then [log[0]] else []) + BlocksOf(log[1..])
  }

  /** A block may be refused because of the blocks registered before it; any other call is accepted or refused whatever
      came before, and the build whatever the authenticator. */
  ghost predicate ByBlocks(native: Native) {
    && (forall log: seq<Call>, c: Call :: native(log, c) == native(if RegistersBlocks(c) then BlocksOf(log) else [], c))
    && (forall addr, secured, a, b :: native([], Build(addr, secured, a)) == native([], Build(addr, secured, b)))
  }

  ghost predicate AllAccepted(native: Native, calls: seq<Call>) {
    forall c <- calls :: Accepts(native, [], c)
  }

  ghost predicate NoBlocks(calls: seq<Call>) {
    forall c <- calls :: !RegistersBlocks(c)
  }

  lemma {:induction false} NoBlocksOf(log: seq<Call>)
    requires NoBlocks(log)
    ensures BlocksOf(log) == []
  {
    if log != [] {
      NoBlocksOf(log[1..]);
    }
  }

  lemma {:induction false} RunPlain(native: Native, log: seq<Call>, calls: seq<Call>)
    requires ByBlocks(native) && NoBlocks(calls)
    ensures Run(native, log, Calls(calls)).1.None? <==> AllAccepted(native, calls)
    decreases calls
  {
    if calls != [] {
      assert Calls(calls)[1..] == Calls(calls[1..]);
      assert calls[0] in calls && forall c <- calls :: c == calls[0] || c in calls[1..];
      RunPlain(native, log + [calls[0]], calls[1..]);
    }
  }

  lemma RunOpen(native: Native, log: seq<Call>)
    requires ByBlocks(native) && Accepts(native, [], Open)
    ensures Run(native, log, Calls([Open])).1.None?
  {
    RunPlain(native, log, [Open]);
  }

  lemma RunFinale(native: Native, log: seq<Call>, q: seq<Pending>)
    requires ByBlocks(native) && BlocksOf(log) == [] && AllAccepted(native, Finale(q))
    ensures Run(native, log, Calls(Finale(q))).1.None?
  {
    assert Open in Finale(q);
    if HasSlot(q, WholeModel) {
      assert RegisterFromModel in Finale(q);
      assert native(log, RegisterFromModel) == native([], RegisterFromModel);
      assert Calls(Finale(q))[1..] == Calls([Open]);
      RunOpen(native, log + [RegisterFromModel]);
    } else {
      assert Finale(q) == [Open];
      RunOpen(native, log);
    }
  }

  lemma {:induction false} RetainFrom(q: seq<Pending>, slot: Slot)
    ensures forall p <- Retain(q, slot) :: p in q
  {
    if q != [] {
      RetainFrom(q[..|q| - 1], slot);
    }
  }

  lemma {:induction false} QueueFrom(ops: seq<Pending>)
    ensures forall p <- QueueAll(ops) :: p in ops
  {
    if ops != [] {
      var init, last := ops[..|ops| - 1], ops[|ops| - 1];
      QueueFrom(init);
      if last.SettingGroup? {
        RetainFrom(QueueAll(init), GroupDomain(last.group.domain));
      }
    }
  }

  /** Calls made directly register no blocks, but for the model's own. */
  lemma DirectBlocks(ops: seq<Pending>)
    requires RegisterFromModel !in DirectCalls(ops)
    ensures NoBlocks(DirectCalls(ops))
  {
    forall c | c in DirectCalls(ops) ensures !RegistersBlocks(c) {
      PickMember(ops, DirectCall, c);
    }
  }

  lemma {:induction false} DirectAccepted(native: Native, log: seq<Call>, handle: Option<Handle>, ops: seq<Pending>)
    requires ByBlocks(native) && NoBlocks(log) && SubmitAll(native, Running(log, handle), ops).1
    ensures AllAccepted(native, DirectCalls(ops))
  {
    if ops != [] {
      var init, last := ops[..|ops| - 1], ops[|ops| - 1];
      assert ops == init + [last];
      DirectAccepted(native, log, handle, init);
      SubmittedToServer(native, log, handle, init);
      DirectCallsSnoc(init, last);
      if RegisterFromModel !in DirectCalls(init) {
        DirectBlocks(init);
        NoBlocksOf(log + DirectCalls(init));
      }
      if DirectCall(last).Some? {
        AcceptedAppend(native, DirectCalls(init), [DirectCall(last).value]);
      }
    }
  }

  /** Calls that stand for entries which could have been issued directly. */
  lemma PickedAccepted(native: Native, q: seq<Pending>, ops: seq<Pending>, f: Pending -> Option<Call>)
    requires AllAccepted(native, DirectCalls(ops))
    requires forall p <- q :: p in ops
    requires forall p :: f(p).Some? ==> f(p) == DirectCall(p) && !RegistersBlocks(f(p).value)
    ensures AllAccepted(native, Pick(q, f)) && NoBlocks(Pick(q, f))
  {
    forall c | c in Pick(q, f) ensures Accepts(native, [], c) && !RegistersBlocks(c) {
      PickMember(q, f, c);
      PickMember(ops, DirectCall, c);
    }
  }

  lemma NothingPicked<T>(q: seq<Pending>, f: Pending -> Option<T>)
    requires forall p <- q :: f(p).None?
    ensures Pick(q, f) == []
  {
    if Pick(q, f) != [] {
      PickMember(q, f, Pick(q, f)[0]);
    }
  }

  lemma LateBlocks(q: seq<Pending>)
    requires Ready(q) && Late(q)
    ensures BlockCalls(q) == Pick(q, GroupEntry)
  {
    NothingPicked(q, AsDataset);
    NothingPicked(q, AsUrcb);
    NothingPicked(q, AsBrcb);
    NothingPicked(q, AsLog);
    GroupCallsPicked(q);
  }

  lemma FinaleAccepted(native: Native, q: seq<Pending>, ops: seq<Pending>)
    requires AllAccepted(native, DirectCalls(ops)) && Accepts(native, [], Open)
    requires forall p <- q :: p in ops
    ensures AllAccepted(native, Finale(q))
  {
    if HasSlot(q, WholeModel) {
      var i :| 0 <= i < |q| && SlotOf(q[i]) == Some(WholeModel);
      assert q[i] in ops && DirectCall(q[i]) == Some(RegisterFromModel);
      PickMember(ops, DirectCall, RegisterFromModel);
    }
  }

  lemma PreludeAccepted(native: Native, addr: Address, tls: Option<Tls>, q: seq<Pending>)
    requires ByBlocks(native) && AllAccepted(native, Prelude(Taken(addr, [], tls)))
    ensures AllAccepted(native, Prelude(Taken(addr, q, tls)))
  {
    var plain := Build(addr, tls.Some?, LastAuthenticator([]));
    var build := Build(addr, tls.Some?, LastAuthenticator(q));
    assert plain in Prelude(Taken(addr, [], tls));
    assert native([], build) == native([], plain);
    assert tls.Some? ==> LoadTls(tls.value) in Prelude(Taken(addr, [], tls));
  }

  lemma AcceptedAppend(native: Native, a: seq<Call>, b: seq<Call>)
    ensures AllAccepted(native, a + b) <==> AllAccepted(native, a) && AllAccepted(native, b)
    ensures NoBlocks(a + b) <==> NoBlocks(a) && NoBlocks(b)
  {
    assert forall c <- a :: c in a + b;
    assert forall c <- b :: c in a + b;
  }

  lemma ThreeAccepted(native: Native, a: seq<Call>, b: seq<Call>, c: seq<Call>)
    requires AllAccepted(native, a) && AllAccepted(native, b) && AllAccepted(native, c)
    requires NoBlocks(a) && NoBlocks(b) && NoBlocks(c)
    ensures AllAccepted(native, a + (b + c)) && NoBlocks(a + (b + c))
  {
    AcceptedAppend(native, b, c);
    AcceptedAppend(native, a, b + c);
  }

  lemma LateQueue(ops: seq<Pending>)
    requires Late(ops)
    ensures var q := QueueAll(ops);
            (forall p <- q :: p in ops) && Ready(q) && BlockCalls(q) == Pick(q, GroupEntry)
  {
    QueueFrom(ops);
    QueueAllKeepsInv(ops);
    InvMakesReady(QueueAll(ops));
    LateBlocks(QueueAll(ops));
  }

  lemma EntriesAccepted(native: Native, q: seq<Pending>, ops: seq<Pending>)
    requires AllAccepted(native, DirectCalls(ops)) && forall p <- q :: p in ops
    ensures AllAccepted(native, Pick(q, AsImmediate)) && NoBlocks(Pick(q, AsImmediate))
    ensures AllAccepted(native, Pick(q, GroupEntry)) && NoBlocks(Pick(q, GroupEntry))
  {
    PickedAccepted(native, q, ops, AsImmediate);
    PickedAccepted(native, q, ops, GroupEntry);
  }

  lemma EarlyAccepted(native: Native, t: Taken)
    requires Ready(t.pending) && BlockCalls(t.pending) == Pick(t.pending, GroupEntry)
    requires AllAccepted(native, Prelude(t))
    requires AllAccepted(native, Pick(t.pending, AsImmediate)) && NoBlocks(Pick(t.pending, AsImmediate))
    requires AllAccepted(native, Pick(t.pending, GroupEntry)) && NoBlocks(Pick(t.pending, GroupEntry))
    ensures AllAccepted(native, EarlyCalls(t)) && NoBlocks(EarlyCalls(t))
  {
    assert NoBlocks(Prelude(t));
    ThreeAccepted(native, Prelude(t), Pick(t.pending, AsImmediate), Pick(t.pending, GroupEntry));
  }

  lemma QueuedAccepted(native: Native, addr: Address, tls: Option<Tls>, ops: seq<Pending>)
    requires ByBlocks(native) && Late(ops) && AllAccepted(native, DirectCalls(ops))
    requires AllAccepted(native, Prelude(Taken(addr, [], tls))) && Accepts(native, [], Open)
    ensures var t := Taken(addr, QueueAll(ops), tls);
            && Ready(QueueAll(ops))
            && AllAccepted(native, EarlyCalls(t)) && NoBlocks(EarlyCalls(t)) && AllAccepted(native, Finale(t.pending))
  {
    var q := QueueAll(ops);
    LateQueue(ops);
    PreludeAccepted(native, addr, tls, q);
    EntriesAccepted(native, q, ops);
    EarlyAccepted(native, Taken(addr, q, tls));
    FinaleAccepted(native, q, ops);
  }

  lemma EmptyPlan(t: Taken)
    requires t.pending == []
    ensures Ready(t.pending) && PlannedCalls(t) == Prelude(t) + [Open] && NoBlocks(PlannedCalls(t))
  {
    assert BlockCalls([]) == [] && Finale([]) == [Open];
    assert Prelude(t) + ([] + []) == Prelude(t);
  }

  lemma EmptyStartAccepts(native: Native, addr: Address, tls: Option<Tls>, handle: Handle)
    requires ByBlocks(native) && StartStep(native, NotStarted(Some(addr), [], tls), handle).1.Ok?
    ensures AllAccepted(native, Prelude(Taken(addr, [], tls))) && Accepts(native, [], Open)
    ensures NoBlocks(StartStep(native, NotStarted(Some(addr), [], tls), handle).0.log)
  {
    var t := Taken(addr, [], tls);
    StartOutcome(native, t);
    PlanIsCalls(t);
    EmptyPlan(t);
    RunPlain(native, [], PlannedCalls(t));
    AcceptedAppend(native, Prelude(t), [Open]);
    assert Open in [Open];
  }

  /** A start whose early calls are accepted wherever they come, and whose finale finds no block registered. */
  lemma AcceptedStarts(native: Native, t: Taken)
    requires ByBlocks(native) && Ready(t.pending)
    requires AllAccepted(native, EarlyCalls(t)) && NoBlocks(EarlyCalls(t)) && AllAccepted(native, Finale(t.pending))
    ensures Run(native, [], Plan(t)).1.None?
  {
    var early, finale := EarlyCalls(t), Finale(t.pending);
    PlanIsCalls(t);
    CallsAppend(early, finale);
    RunAppend(native, [], Calls(early), Calls(finale));
    RunPlain(native, [], early);
    RunPlanned(native, early);
    NoBlocksOf(early);
    RunFinale(native, early, t.pending);
  }

  /** If the server starts with nothing queued and then takes every registration, it also starts with all of them
      queued, and the same is installed. */
  lemma DirectMeansQueued(native: Native, modelControls: Controls, addr: Address, tls: Option<Tls>, ops: seq<Pending>,
                          handle: Handle)
    requires ByBlocks(native) && Late(ops)
    requires var unstarted := NotStarted(Some(addr), [], tls);
             && StartStep(native, unstarted, handle).1.Ok?
             && SubmitAll(native, StartStep(native, unstarted, handle).0, ops).1
    ensures var unstarted := NotStarted(Some(addr), [], tls);
            var queued := StartStep(native, SubmitAll(native, unstarted, ops).0, handle);
            var direct := SubmitAll(native, StartStep(native, unstarted, handle).0, ops).0;
            && queued.1.Ok? && queued.0.Running? && direct.Running?
            && InstalledBy(modelControls, queued.0.log) == InstalledBy(modelControls, direct.log)
  {
    var started := StartStep(native, NotStarted(Some(addr), [], tls), handle).0;
    EmptyStartAccepts(native, addr, tls, handle);
    DirectAccepted(native, started.log, started.handle, ops);
    QueuedAccepted(native, addr, tls, ops);
    SubmittedToQueue(native, Some(addr), tls, ops);
    AcceptedStarts(native, Taken(addr, QueueAll(ops), tls));
    QueuedIsDirect(native, modelControls, addr, tls, ops, handle);
  }
}
