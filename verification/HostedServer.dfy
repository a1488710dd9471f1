/** The hosted server: user paths are resolved against the model, registrations go through the state lock, and a
    start replays what was queued. */
module HostedServer {
  import opened Common
  import opened Text
  import opened IedModel
  import opened PathIndex
  import opened PathTranslation
  import opened ServerState
  import opened Replay
  import opened RegistrationLaws
  import opened ReplayRefinement
  import opened StartLog

  // User requests as registrations.

  function PrepareRead(index: Index, h: Handler): Result<Pending> {
    var canonical :- CanonicalHandlerPath(index, h.userPath);
    Ok(Read(canonical, h))
  }

  function PrepareWrite(index: Index, h: Handler): Result<Pending> {
    var canonical :- CanonicalHandlerPath(index, h.userPath);
    Ok(Write(canonical, h))
  }

  /** `"<LD>/<LN>.<DO>"`: a data object, not an attribute. */
  function ResolveControlPath(model: Model, path: string): Result<ControlKey> {
    match SplitOnce(path, '/')
    case None => Raised(ValueError)
    case Some((inst, rest)) =>
      match SplitOnce(rest, '.')
      case None => Raised(ValueError)
      case Some((lnName, doName)) =>
        if '.' in doName then Raised(ValueError)
        else
          match DeviceNamed(model.lds, inst)
          case None => Raised(KeyError)
          case Some(ld) => Ok(ControlKey(ld.DomainName(model.iedName), lnName, doName))
  }

  /** The path is a device instance, a logical node and a data object, put together. */
  ghost predicate ControlShape(path: string, inst: string, lnName: string, doName: string) {
    '/' !in inst && '.' !in lnName && '.' !in doName && path == inst + "/" + (lnName + "." + doName)
  }

  /** Exactly when a control path resolves, to what, and with which exception it does not: it is put together from an
      instance, a node and an object name, and the instance is one of the model. */
  lemma ControlPathResolves(model: Model, path: string)
    ensures ResolveControlPath(model, path) == Raised(ValueError) <==>
            forall inst, lnName, doName :: !ControlShape(path, inst, lnName, doName)
    ensures forall inst, lnName, doName :: ControlShape(path, inst, lnName, doName) ==>
              ResolveControlPath(model, path) ==
              match DeviceNamed(model.lds, inst)
              case None => Raised(KeyError)
              case Some(ld) => Ok(ControlKey(ld.DomainName(model.iedName), lnName, doName))
  {
    forall inst, lnName, doName | ControlShape(path, inst, lnName, doName)
      ensures SplitOnce(path, '/') == Some((inst, lnName + "." + doName)) &&
              SplitOnce(lnName + "." + doName, '.') == Some((lnName, doName))
    {
      SplitOnceUnique(inst, '/', lnName + "." + doName);
      SplitOnceUnique(lnName, '.', doName);
    }
    if ResolveControlPath(model, path) != Raised(ValueError) {
      var (inst, rest) := SplitOnce(path, '/').value;
      var (lnName, doName) := SplitOnce(rest, '.').value;
      assert ControlShape(path, inst, lnName, doName);
    }
  }

  /** With distinct domains no two paths name the same control object. */
  lemma ControlKeysDistinct(model: Model, p: string, q: string)
    requires DomainsDistinct(model)
    requires ResolveControlPath(model, p).Ok? && ResolveControlPath(model, p) == ResolveControlPath(model, q)
    ensures p == q
  {
    SameDomainSameInst(model, DeviceOf(p), DeviceOf(q));
  }

  function PrepareControl(model: Model, path: string, settings: ControlSettings,
                          check: Option<Callback>, operate: Option<Callback>, wait: Option<Callback>): Result<Pending>
  {
    if check.None? && operate.None? && wait.None? then Raised(ValueError)
    else
      var key :- ResolveControlPath(model, path);
      Ok(ControlObject(Control(path, key, settings, check, operate, wait)))
  }

  /** The entry references of a data set, all of one domain; `domain` is that of the entries before. */
  function EntryRefs(model: Model, index: Index, paths: seq<string>, domain: Option<string>)
    : Result<(seq<string>, Option<string>)>
    decreases paths
  {
    if paths == [] then Ok(([], domain))
    else
      match DatasetEntryPath(model, index, paths[0])
      case Raised(e) => Raised(e)
      case Ok((entry, d)) =>
        if domain.Some? && domain.value != d then Raised(ValueError)
        else WithEntries([entry], EntryRefs(model, index, paths[1..], Some(d)))
  }

  function PrepareDataset(model: Model, index: Index, name: string, paths: seq<string>): Result<Pending> {
    if name == "" || paths == [] then Raised(ValueError)
    else
      match EntryRefs(model, index, paths, None)
      case Raised(e) => Raised(e)
      case Ok((entries, domain)) => Ok(DataSet(Dataset(name, if domain.Some? then domain.value else "", entries)))
  }

  function PrepareUrcb(model: Model, path: string, dataset: string, settings: ReportSettings): Result<Pending> {
    var block :- ResolveBlockPath(model, path, "RP");
    Ok(Urcb(Report(block.mmsPath, dataset, block.name, settings, None)))
  }

  function PrepareBrcb(model: Model, path: string, dataset: string, settings: ReportSettings, buffer: BufferSettings)
    : Result<Pending>
  {
    if buffer.capacity == 0 then Raised(ValueError)
    else
      var block :- ResolveBlockPath(model, path, "BR");
      Ok(Brcb(Report(block.mmsPath, dataset, block.name, settings, Some(buffer))))
  }

  function PrepareLog(model: Model, path: string, dataset: string, settings: LogSettings): Result<Pending> {
    var block :- ResolveBlockPath(model, path, "LG");
    if settings.capacity == Some(0) then Raised(ValueError)
    else Ok(LogControl(LogBlock(block.mmsPath, block.domain, ItemOf(block.mmsPath), block.name, dataset, settings)))
  }

  function PrepareGroup(model: Model, inst: string, onActSg: Option<Callback>, onEditSg: Option<Callback>,
                        onConfirm: Option<Callback>): Result<Pending>
  {
    match DeviceNamed(model.lds, inst)
    case None => Raised(KeyError)
    case Some(ld) => Ok(SettingGroup(Group(ld.DomainName(model.iedName), inst, onActSg, onEditSg, onConfirm)))
  }

  function Requested(native: Native, state: ServerState, prepared: Result<Pending>): (ServerState, Result<()>) {
    match prepared
    case Raised(e) => (state, Raised(e))
    case Ok(p) => Submit(native, state, p)
  }

  lemma RequestKeepsInv(native: Native, state: ServerState, prepared: Result<Pending>)
    requires StateInv(state)
    ensures StateInv(Requested(native, state, prepared).0)
  {
    if state.NotStarted? && prepared.Ok? && Enqueue(state.pending, prepared.value).Ok? {
      EnqueueKeepsInv(state.pending, prepared.value);
    }
  }

  /** A call that can be made at any time is queued before the start, and made when the native server takes it after. */
  predicate TakesNow(native: Native, state: ServerState, c: Call) {
    match state
    case NotStarted(_, _, _) => true
    case Running(log, _) => !MayRefuse(c) || native(log, c)
    case Stopped => false
  }

  /** What an accepted request changes of what is in effect, queued or made at once. */
  lemma RequestTakesEffect(native: Native, state: ServerState, prepared: Result<Pending>)
    ensures var (after, r) := Requested(native, state, prepared);
            && (r.Raised? ==> after == state)
            && (r.Ok? ==> prepared.Ok? && forall m: Controls ::
                  InEffect(m, after) == Effect(m, InEffect(m, state), prepared.value))
  {
    var (after, r) := Requested(native, state, prepared);
    if r.Ok? {
      forall m: Controls
        ensures InEffect(m, after) == Effect(m, InEffect(m, state), prepared.value)
      {
        RegistrationTakesEffect(native, m, state, prepared.value);
      }
    }
  }

  /** Nothing of what is in effect has changed but the reader under `key`. */
  ghost predicate ReaderInstalled(before: ServerState, after: ServerState, key: string, h: Handler) {
    forall m: Controls ::
      InEffect(m, after) == InEffect(m, before).(readers := InEffect(m, before).readers[key := h])
  }

  ghost predicate WriterInstalled(before: ServerState, after: ServerState, key: string, h: Handler) {
    forall m: Controls ::
      InEffect(m, after) == InEffect(m, before).(writers := InEffect(m, before).writers[key := h])
  }

  ghost predicate ControlInstalled(before: ServerState, after: ServerState, c: Control) {
    forall m: Controls ::
      InEffect(m, after) == InEffect(m, before).(controls := InEffect(m, before).controls[c.key := c])
  }

  ghost predicate GroupInstalled(before: ServerState, after: ServerState, g: Group) {
    forall m: Controls ::
      InEffect(m, after) == InEffect(m, before).(groups := InEffect(m, before).groups[g.domain := g])
  }

  ghost predicate SameEffect(before: ServerState, after: ServerState) {
    forall m: Controls :: InEffect(m, after) == InEffect(m, before)
  }

  /** A registration that can be made at any time. */
  lemma AnyTime(native: Native, state: ServerState, p: Pending, c: Call)
    requires DirectCall(p) == Some(c) && !p.FromModel?
    ensures var (after, r) := Submit(native, state, p);
            && (r.Ok? <==> TakesNow(native, state, c))
            && (r.Ok? ==> CallInstalled(state, after, c))
            && (r.Raised? ==> after == state)
  {
    RequestTakesEffect(native, state, Ok(p));
  }

  ghost predicate CallInstalled(before: ServerState, after: ServerState, c: Call) {
    forall m: Controls :: InEffect(m, after) == Apply(m, InEffect(m, before), c)
  }

  lemma InstalledReader(before: ServerState, after: ServerState, key: string, h: Handler)
    requires CallInstalled(before, after, InstallRead(key, h))
    ensures ReaderInstalled(before, after, key, h)
  {
  }

  lemma InstalledWriter(before: ServerState, after: ServerState, key: string, h: Handler)
    requires CallInstalled(before, after, InstallWrite(key, h))
    ensures WriterInstalled(before, after, key, h)
  {
  }

  lemma InstalledControl(before: ServerState, after: ServerState, c: Control)
    requires CallInstalled(before, after, RegisterControl(c))
    ensures ControlInstalled(before, after, c)
  {
  }

  lemma InstalledGroup(before: ServerState, after: ServerState, g: Group)
    requires CallInstalled(before, after, RegisterSettingGroup(g))
    ensures GroupInstalled(before, after, g)
  {
  }

  lemma ReadRequested(native: Native, state: ServerState, index: Index, h: Handler)
    ensures var (after, r) := Requested(native, state, PrepareRead(index, h));
            var key := CanonicalHandlerPath(index, h.userPath);
            && (r.Ok? <==> key.Ok? && TakesNow(native, state, InstallRead(key.value, h)))
            && (r.Ok? ==> ReaderInstalled(state, after, key.value, h))
            && (r.Raised? ==> after == state)
            && (key.Raised? ==> r == Raised(key.error))
  {
    var key := CanonicalHandlerPath(index, h.userPath);
    if key.Ok? {
      AnyTime(native, state, Read(key.value, h), InstallRead(key.value, h));
      var (after, r) := Requested(native, state, PrepareRead(index, h));
      if r.Ok? {
        InstalledReader(state, after, key.value, h);
      }
    }
  }

  lemma WriteRequested(native: Native, state: ServerState, index: Index, h: Handler)
    ensures var (after, r) := Requested(native, state, PrepareWrite(index, h));
            var key := CanonicalHandlerPath(index, h.userPath);
            && (r.Ok? <==> key.Ok? && TakesNow(native, state, InstallWrite(key.value, h)))
            && (r.Ok? ==> WriterInstalled(state, after, key.value, h))
            && (r.Raised? ==> after == state)
            && (key.Raised? ==> r == Raised(key.error))
  {
    var key := CanonicalHandlerPath(index, h.userPath);
    if key.Ok? {
      AnyTime(native, state, Write(key.value, h), InstallWrite(key.value, h));
      var (after, r) := Requested(native, state, PrepareWrite(index, h));
      if r.Ok? {
        InstalledWriter(state, after, key.value, h);
      }
    }
  }

  /** The handler key of `path`, if it names a data attribute: its segments are the logical node, the functional
      constraint of the attribute and the names below the node, and it leads back to the path. */
  ghost predicate KeyOfAttribute(model: Model, path: string, key: Result<string>) {
    match Lookup(model, path)
    case None => key == Raised(KeyError)
    case Some(da) =>
      && key.Ok? && '/' in path && |PathSegments(path)| > 1
      && Split(key.value, '$') == [PathSegments(path)[0], da.fc] + PathSegments(path)[1..]
      && UserPath(DeviceOf(path), key.value) == path
  }

  lemma HandlerKey(model: Model, path: string)
    requires WellNamed(model) && KeyNames(model)
    ensures KeyOfAttribute(model, path, CanonicalHandlerPath(ModelIndex(model.lds), path))
  {
    HandlerKeyLeadsBack(model, path);
    PathIndexIsLookup(model, path);
  }

  lemma ControlRequested(native: Native, state: ServerState, model: Model, path: string, settings: ControlSettings,
                         check: Option<Callback>, operate: Option<Callback>, wait: Option<Callback>)
    ensures var (after, r) := Requested(native, state, PrepareControl(model, path, settings, check, operate, wait));
            var key := ResolveControlPath(model, path);
            && (r.Ok? <==> (check.Some? || operate.Some? || wait.Some?) && key.Ok? && !state.Stopped?)
            && (r.Ok? ==> ControlInstalled(state, after, Control(path, key.value, settings, check, operate, wait)))
            && (r.Raised? ==> after == state)
  {
    var prepared := PrepareControl(model, path, settings, check, operate, wait);
    if prepared.Ok? {
      var control := prepared.value.control;
      AnyTime(native, state, prepared.value, RegisterControl(control));
      var (after, r) := Requested(native, state, prepared);
      if r.Ok? {
        InstalledControl(state, after, control);
      }
    }
  }

  lemma GroupRequested(native: Native, state: ServerState, group: Group)
    ensures var (after, r) := Requested(native, state, Ok(SettingGroup(group)));
            && (r.Ok? <==> TakesNow(native, state, RegisterSettingGroup(group)))
            && (r.Ok? ==> GroupInstalled(state, after, group))
            && (r.Raised? ==> after == state)
  {
    AnyTime(native, state, SettingGroup(group), RegisterSettingGroup(group));
    var (after, r) := Requested(native, state, Ok(SettingGroup(group)));
    if r.Ok? {
      InstalledGroup(state, after, group);
    }
  }

  /** A registration that has to come before the start. */
  lemma BeforeStart(native: Native, state: ServerState, p: Pending)
    requires StateInv(state) && DirectCall(p).None?
    ensures var (after, r) := Submit(native, state, p);
            && StateInv(after) && SameEffect(state, after)
            && (r.Ok? ==> state.NotStarted? && after.NotStarted? && p in after.pending)
            && (r.Raised? ==> after == state)
  {
    RequestTakesEffect(native, state, Ok(p));
    RequestKeepsInv(native, state, Ok(p));
  }

  lemma LogRequested(native: Native, state: ServerState, block: LogBlock)
    requires StateInv(state)
    ensures var (after, r) := Requested(native, state, Ok(LogControl(block)));
            && (r.Ok? <==> state.NotStarted? && !HasSlot(state.pending, LogPath(block.mmsPath)))
            && (r.Ok? ==> LogPlanned(after, block))
            && (r.Raised? ==> after == state) && SameEffect(state, after)
  {
    BeforeStart(native, state, LogControl(block));
    var (after, r) := Requested(native, state, Ok(LogControl(block)));
    if r.Ok? {
      QueuedLogPlanned(after.pending, block);
    }
  }

  lemma ReportRequested(native: Native, state: ServerState, report: Report, buffered: bool)
    requires StateInv(state)
    ensures var p := if buffered then Brcb(report) else Urcb(report);
            var slot := if buffered then BrcbPath(report.mmsPath) else UrcbPath(report.mmsPath);
            var (after, r) := Requested(native, state, Ok(p));
            && (r.Ok? <==> && state.NotStarted? && HasSlot(state.pending, DatasetName(report.datasetName))
                           && !HasSlot(state.pending, slot))
            && (r.Ok? ==> Planned(after, report, buffered))
            && (r.Raised? ==> after == state) && SameEffect(state, after)
  {
    var p := if buffered then Brcb(report) else Urcb(report);
    var (after, r) := Requested(native, state, Ok(p));
    BeforeStart(native, state, p);
    if r.Ok? {
      QueuedReportPlanned(after.pending, report, buffered);
    }
  }

  /** The report is queued last, and every start from here makes its call, with a queued data set of the name it
      gives. */
  ghost predicate Planned(state: ServerState, report: Report, buffered: bool) {
    && state.NotStarted? && state.pending != []
    && state.pending[|state.pending| - 1] == (if buffered then Brcb(report) else Urcb(report))
    && Ready(state.pending)
    && exists d: Dataset :: d.name == report.datasetName && DataSet(d) in state.pending &&
         (if buffered then RegisterBrcb(report, d) else RegisterUrcb(report, d)) in BlockCalls(state.pending)
  }

  /** Every start from here registers the log control block. */
  ghost predicate LogPlanned(state: ServerState, block: LogBlock) {
    state.NotStarted? && Ready(state.pending) && RegisterLogControl(block) in BlockCalls(state.pending)
  }

  class IedServer {
    const model: Model
    const index: Index
    const native: Native
    var state: ServerState

    ghost predicate Valid()
      reads this
    {
      index == ModelIndex(model.lds) && StateInv(state)
    }

    constructor (model: Model, native: Native)
      ensures Valid() && this.model == model && this.native == native && state == NotStarted(None, [], None)
    {
      var built := BuildPathIndex(model);
      this.model := model;
      this.native := native;
      this.index := built;
      this.state := NotStarted(None, [], None);
    }

    /** What every registration does with the state, as one step: for setting groups and the model's own blocks the
        source lets go of the lock before it calls the native server. */
    method Register(prepared: Result<Pending>) returns (r: Result<()>)
      requires Valid()
      modifies this`state
      ensures Valid() && (state, r) == Requested(native, old(state), prepared)
    {
      RequestKeepsInv(native, state, prepared);
      if prepared.Raised? {
        return Raised(prepared.error);
      }
      var p := prepared.value;
      match state {
        case NotStarted(addr, q, tls) =>
          var queued := Enqueue(q, p);
          if queued.Raised? {
            return Raised(queued.error);
          }
          state := NotStarted(addr, queued.value, tls);
        case Running(log, handle) =>
          var call := DirectCall(p);
          if call.None? {
            return Raised(RuntimeError);
          }
          if !Accepts(native, log, call.value) {
            return Raised(RefusalOf(call.value));
          }
          state := Running(log + [call.value], handle);
        case Stopped =>
          return Raised(RuntimeError);
      }
      r := Ok(());
    }

    /** A handler for reads: served exactly when the path names a data attribute and the state takes the call; after it
        the attribute has this handler, and nothing else has changed. */
    method OnRead(path: string, callback: Callback, withContext: bool) returns (r: Result<()>)
      requires Valid()
      modifies this`state
      ensures var h, key := Handler(path, callback, withContext), CanonicalHandlerPath(index, path);
              && Valid() && (state, r) == Requested(native, old(state), PrepareRead(index, h))
              && (WellNamed(model) && KeyNames(model) ==> KeyOfAttribute(model, path, key))
              && (key.Raised? ==> r == Raised(key.error))
              && (r.Ok? <==> key.Ok? && TakesNow(native, old(state), InstallRead(key.value, h)))
              && (r.Ok? ==> ReaderInstalled(old(state), state, key.value, h))
              && (r.Raised? ==> state == old(state))
    {
      ReadRequested(native, state, index, Handler(path, callback, withContext));
      r := Register(PrepareRead(index, Handler(path, callback, withContext)));
      if WellNamed(model) && KeyNames(model) {
        HandlerKey(model, path);
      }
    }

    /** Likewise for writes. */
    method OnWrite(path: string, callback: Callback, withContext: bool) returns (r: Result<()>)
      requires Valid()
      modifies this`state
      ensures var h, key := Handler(path, callback, withContext), CanonicalHandlerPath(index, path);
              && Valid() && (state, r) == Requested(native, old(state), PrepareWrite(index, h))
              && (WellNamed(model) && KeyNames(model) ==> KeyOfAttribute(model, path, key))
              && (key.Raised? ==> r == Raised(key.error))
              && (r.Ok? <==> key.Ok? && TakesNow(native, old(state), InstallWrite(key.value, h)))
              && (r.Ok? ==> WriterInstalled(old(state), state, key.value, h))
              && (r.Raised? ==> state == old(state))
    {
      WriteRequested(native, state, index, Handler(path, callback, withContext));
      r := Register(PrepareWrite(index, Handler(path, callback, withContext)));
      if WellNamed(model) && KeyNames(model) {
        HandlerKey(model, path);
      }
    }

    /** Callbacks for a control object: served exactly with a callback, a path that resolves and a server that is not
        stopped; after it the object has them, and nothing else has changed. */
    method OnControl(path: string, settings: ControlSettings, check: Option<Callback>, operate: Option<Callback>,
                     wait: Option<Callback>) returns (r: Result<()>)
      requires Valid()
      modifies this`state
      ensures var key := ResolveControlPath(model, path);
              && Valid()
              && (state, r) ==
                 Requested(native, old(state), PrepareControl(model, path, settings, check, operate, wait))
              && (check.None? && operate.None? && wait.None? ==> r == Raised(ValueError))
              && ((check.Some? || operate.Some? || wait.Some?) && key.Raised? ==> r == Raised(key.error))
              && (r.Ok? <==> (check.Some? || operate.Some? || wait.Some?) && key.Ok? && !old(state).Stopped?)
              && (r.Ok? ==>
                    ControlInstalled(old(state), state, Control(path, key.value, settings, check, operate, wait)))
              && (r.Raised? ==> state == old(state))
    {
      ControlRequested(native, state, model, path, settings, check, operate, wait);
      r := Register(PrepareControl(model, path, settings, check, operate, wait));
    }

    method AddDataset(name: string, paths: seq<string>) returns (r: Result<()>)
      requires Valid()
      modifies this`state
      ensures Valid() && (state, r) == Requested(native, old(state), PrepareDataset(model, index, name, paths))
    {
      if name == "" || paths == [] {
        return Raised(ValueError);
      }
      var entries: seq<string>, domain: Option<string> := [], None;
      assert paths[0..] == paths;
      AfterNone(EntryRefs(model, index, paths, None));
      for i := 0 to |paths|
        invariant EntryRefs(model, index, paths, None) ==
                  WithEntries(entries, EntryRefs(model, index, paths[i..], domain))
        invariant state == old(state)
      {
        assert paths[i..][1..] == paths[i + 1..];
        var entry := DatasetEntryPath(model, index, paths[i]);
        if entry.Raised? {
          return Raised(entry.error);
        }
        if domain.Some? && domain.value != entry.value.1 {
          return Raised(ValueError);
        }
        domain := Some(entry.value.1);
        AfterOne(entries, entry.value.0, EntryRefs(model, index, paths[i + 1..], domain));
        entries := entries + [entry.value.0];
      }
      assert entries + [] == entries;
      r := Register(Ok(DataSet(Dataset(name, if domain.Some? then domain.value else "", entries))));
    }

    /** A report is taken exactly before the start, with a data set that is queued and a block that is not; every start
        from there makes its call, with the data set of that name. */
    method RegisterUrcb(path: string, dataset: string, settings: ReportSettings) returns (r: Result<()>)
      requires Valid()
      modifies this`state
      ensures var prepared := PrepareUrcb(model, path, dataset, settings);
              var block := ResolveBlockPath(model, path, "RP");
              && Valid() && (state, r) == Requested(native, old(state), prepared)
              && (block.Raised? ==> r == Raised(block.error))
              && (r.Ok? <==> && block.Ok? && old(state).NotStarted?
                             && HasSlot(old(state).pending, DatasetName(dataset))
                             && !HasSlot(old(state).pending, UrcbPath(block.value.mmsPath)))
              && (r.Ok? ==>
                    Planned(state, Report(block.value.mmsPath, dataset, block.value.name, settings, None), false))
              && (r.Raised? ==> state == old(state)) && SameEffect(old(state), state)
    {
      var prepared := PrepareUrcb(model, path, dataset, settings);
      if prepared.Ok? {
        ReportRequested(native, state, prepared.value.report, false);
      }
      r := Register(prepared);
    }

    /** Likewise for a buffered report, whose buffer must have a capacity. */
    method RegisterBrcb(path: string, dataset: string, settings: ReportSettings, buffer: BufferSettings)
      returns (r: Result<()>)
      requires Valid()
      modifies this`state
      ensures var prepared := PrepareBrcb(model, path, dataset, settings, buffer);
              var block := ResolveBlockPath(model, path, "BR");
              && Valid() && (state, r) == Requested(native, old(state), prepared)
              && (buffer.capacity == 0 ==> r == Raised(ValueError))
              && (buffer.capacity != 0 && block.Raised? ==> r == Raised(block.error))
              && (r.Ok? <==> && buffer.capacity != 0 && block.Ok? && old(state).NotStarted?
                             && HasSlot(old(state).pending, DatasetName(dataset))
                             && !HasSlot(old(state).pending, BrcbPath(block.value.mmsPath)))
              && (r.Ok? ==>
                    Planned(state, Report(block.value.mmsPath, dataset, block.value.name, settings, Some(buffer)),
                            true))
              && (r.Raised? ==> state == old(state)) && SameEffect(old(state), state)
    {
      var prepared := PrepareBrcb(model, path, dataset, settings, buffer);
      if prepared.Ok? {
        ReportRequested(native, state, prepared.value.report, true);
      }
      r := Register(prepared);
    }

    /** A log control block is taken exactly before the start, on a block that is not queued yet, with a capacity that
        is not zero; every start from there registers it, under the key its path is stored by. */
    method RegisterLogControl(path: string, dataset: string, settings: LogSettings) returns (r: Result<()>)
      requires Valid()
      modifies this`state
      ensures var prepared, key := PrepareLog(model, path, dataset, settings), StoredLogKey(model, path);
              var block := ResolveBlockPath(model, path, "LG");
              && Valid() && (state, r) == Requested(native, old(state), prepared)
              && (block.Ok? <==> key.Ok?) && (block.Raised? ==> r == Raised(block.error))
              && (block.Ok? && settings.capacity == Some(0) ==> r == Raised(ValueError))
              && (r.Ok? <==> && settings.capacity != Some(0) && block.Ok? && old(state).NotStarted?
                             && !HasSlot(old(state).pending, LogPath(block.value.mmsPath)))
              && (r.Ok? ==>
                    LogPlanned(state, LogBlock(block.value.mmsPath, key.value.0, key.value.1, block.value.name, dataset,
                                               settings)))
              && (r.Raised? ==> state == old(state)) && SameEffect(old(state), state)
    {
      var prepared := PrepareLog(model, path, dataset, settings);
      if prepared.Ok? {
        LogRequested(native, state, prepared.value.block);
      }
      r := Register(prepared);
    }

    /** Callbacks for the setting groups of a logical device: whatever was there before, after it the domain has these,
        and nothing else changed. */
    method RegisterSettingGroupHandler(inst: string, onActSg: Option<Callback>, onEditSg: Option<Callback>,
                                       onConfirm: Option<Callback>) returns (r: Result<()>)
      requires Valid()
      modifies this`state
      ensures var prepared := PrepareGroup(model, inst, onActSg, onEditSg, onConfirm);
              && Valid() && (state, r) == Requested(native, old(state), prepared)
              && (DeviceNamed(model.lds, inst).None? ==> r == Raised(KeyError))
              && (DeviceNamed(model.lds, inst).Some? ==>
                    var domain := DeviceNamed(model.lds, inst).value.DomainName(model.iedName);
                    var group := Group(domain, inst, onActSg, onEditSg, onConfirm);
                    && (r.Ok? <==> TakesNow(native, old(state), RegisterSettingGroup(group)))
                    && (r.Ok? ==> GroupInstalled(old(state), state, group)))
              && (r.Raised? ==> state == old(state))
    {
      var prepared := PrepareGroup(model, inst, onActSg, onEditSg, onConfirm);
      if prepared.Ok? {
        GroupRequested(native, state, prepared.value.group);
      }
      r := Register(prepared);
    }

    /** The model's own blocks: before the start, once; after it the model's control objects are there where none was
        registered, and those that were are kept. */
    method RegisterModelBlocks() returns (r: Result<()>)
      requires Valid()
      modifies this`state
      ensures Valid() && (state, r) == Submit(native, old(state), FromModel)
      ensures r.Ok? <==> TakesNow(native, old(state), RegisterFromModel) &&
                         (old(state).NotStarted? ==> !HasSlot(old(state).pending, WholeModel))
      ensures r.Raised? ==> state == old(state)
      ensures r.Ok? ==> forall m: Controls ::
                InEffect(m, state) == InEffect(m, old(state)).(controls := m + InEffect(m, old(state)).controls)
    {
      RequestTakesEffect(native, state, Ok(FromModel));
      r := Register(Ok(FromModel));
    }

    /** The authenticator: refused only once stopped, and the last one counts. */
    method InstallAuthenticator(callback: Option<Callback>) returns (r: Result<()>)
      requires Valid()
      modifies this`state
      ensures Valid() && (state, r) == Submit(native, old(state), Authenticator(callback))
      ensures r.Ok? <==> !old(state).Stopped?
      ensures r.Ok? ==> forall m: Controls ::
                InEffect(m, state) == InEffect(m, old(state)).(authenticator := callback)
    {
      RequestTakesEffect(native, state, Ok(Authenticator(callback)));
      r := Register(Ok(Authenticator(callback)));
    }

    /** `addr` is the parsed address, if the text is one. */
    method Bind(addr: Option<Address>) returns (r: Result<()>)
      requires Valid()
      modifies this`state
      ensures Valid()
      ensures r == if addr.None? then Raised(ValueError)
                   else if old(state).NotStarted? then Ok(())
                   else Raised(RuntimeError)
      ensures state == if r.Ok? then old(state).(bindAddr := addr) else old(state)
    {
      if addr.None? {
        return Raised(ValueError);
      }
      if !state.NotStarted? {
        return Raised(RuntimeError);
      }
      state := state.(bindAddr := addr);
      r := Ok(());
    }

    /** `server_do_start`, alone: take under the lock, replay outside it, store under it again. `handle` is what the
        native server answers with when its listener opens. A start that succeeds has made all the calls of a complete
        log, every one taken in turn, and changes nothing of what is in effect; one that fails past the lock was stopped
        by a call that was refused, and a KeyError is only ever about a setting group, never about a data set; one that
        fails leaves the state as it was or the server stopped. */
    method Start(handle: Handle) returns (r: Result<()>)
      requires Valid()
      modifies this`state
      ensures Valid() && (state, r) == StartStep(native, old(state), handle)
      ensures r.Ok? ==>
                && old(state).NotStarted? && old(state).bindAddr.Some?
                && state.Running? && state.handle == Some(handle)
                && Complete(state.log, old(state).bindAddr.value, old(state).tls, old(state).pending)
                && TakenInTurn(native, state.log)
                && SameEffect(old(state), state)
      ensures r.Raised? && old(state).NotStarted? && old(state).bindAddr.Some? ==>
                FailedBy(native, r.error, old(state).bindAddr.value, old(state).tls, old(state).pending)
      ensures r == Raised(KeyError) ==>
                && old(state).NotStarted?
                && exists g, log :: SettingGroup(g) in old(state).pending && !native(log, RegisterSettingGroup(g))
      ensures r.Raised? ==> state == if old(state).NotStarted? && old(state).bindAddr.Some? then Stopped else old(state)
      ensures !old(state).NotStarted? || old(state).bindAddr.None? ==> r == Raised(RuntimeError)
    {
      StartFromQueue(native, state, handle);
      var (placeholder, taken) := TakeForStart(state);
      state := placeholder;
      if taken.Raised? {
        return Raised(taken.error);
      }
      var log, err := ReplayQueue(native, taken.value);
      match err {
        case Some(UnknownDataset(_, _)) => return Raised(KeyError);
        case Some(Refused(c)) => return Raised(RefusalOf(c));
        case None =>
      }
      state := Running(log, Some(handle));
      r := Ok(());
    }

    /** `server_do_stop` up to the point where the handle it took is stopped. */
    method Stop() returns (r: Result<Option<Handle>>)
      requires Valid()
      modifies this`state
      ensures Valid() && (state, r) == TakeForStop(old(state))
      ensures old(state).Running? ==> state == Stopped && r == Ok(old(state).handle) && r.value.Some?
      ensures !old(state).Running? ==> state == old(state) && r == Raised(RuntimeError)
    {
      match state {
        case Running(_, handle) =>
          state := Stopped;
          r := Ok(handle);
        case _ =>
          r := Raised(RuntimeError);
      }
    }
  }

  lemma StartFromQueue(native: Native, state: ServerState, handle: Handle)
    requires StateInv(state)
    ensures var (after, r) := StartStep(native, state, handle);
            && StateInv(after)
            && (r.Ok? ==>
                  && state.NotStarted? && state.bindAddr.Some? && after.Running? && after.handle == Some(handle)
                  && Complete(after.log, state.bindAddr.value, state.tls, state.pending)
                  && TakenInTurn(native, after.log) && SameEffect(state, after))
            && (r.Raised? && state.NotStarted? && state.bindAddr.Some? ==>
                  FailedBy(native, r.error, state.bindAddr.value, state.tls, state.pending))
            && (r == Raised(KeyError) ==>
                  && state.NotStarted?
                  && exists g, log :: SettingGroup(g) in state.pending && !native(log, RegisterSettingGroup(g)))
  {
    var (after, r) := StartStep(native, state, handle);
    if state.NotStarted? && state.bindAddr.Some? {
      StartLogged(native, state, handle);
    }
    if r.Ok? {
      forall m: Controls ensures InEffect(m, after) == InEffect(m, state) {
        StartKeepsEffect(native, m, state, handle);
      }
    } else if r == Raised(KeyError) {
      KeyErrorMeansGroup(native, state, handle);
    }
  }

  function WithEntries(done: seq<string>, rest: Result<(seq<string>, Option<string>)>)
    : Result<(seq<string>, Option<string>)>
  {
    match rest
    case Raised(e) => Raised(e)
    case Ok((entries, domain)) => Ok((done + entries, domain))
  }

  lemma AfterNone(rest: Result<(seq<string>, Option<string>)>)
    ensures WithEntries([], rest) == rest
  {
    if rest.Ok? {
      assert [] + rest.value.0 == rest.value.0;
    }
  }

  lemma AfterOne(done: seq<string>, entry: string, rest: Result<(seq<string>, Option<string>)>)
    ensures WithEntries(done, WithEntries([entry], rest)) == WithEntries(done + [entry], rest)
  {
    if rest.Ok? {
      assert done + ([entry] + rest.value.0) == done + [entry] + rest.value.0;
    }
  }

  /** The path names an attribute in the domain `d`. */
  ghost predicate InDomain(model: Model, index: Index, path: string, d: string) {
    DatasetEntryPath(model, index, path).Ok? && DatasetEntryPath(model, index, path).value.1 == d
  }

  ghost predicate AllInDomain(model: Model, index: Index, paths: seq<string>, d: string) {
    forall i :: 0 <= i < |paths| ==> InDomain(model, index, paths[i], d)
  }

  lemma AllInDomainCons(model: Model, index: Index, path: string, rest: seq<string>, d: string)
    ensures AllInDomain(model, index, [path] + rest, d) <==>
            InDomain(model, index, path, d) && AllInDomain(model, index, rest, d)
  {
    var paths := [path] + rest;
    assert forall i :: 0 <= i < |rest| ==> rest[i] == paths[i + 1];
    assert forall i :: 0 < i < |paths| ==> paths[i] == rest[i - 1];
    assert paths[0] == path;
  }

  lemma EntryRefsCons(model: Model, index: Index, path: string, rest: seq<string>, d: string)
    ensures EntryRefs(model, index, [path] + rest, Some(d)).Ok? <==>
            InDomain(model, index, path, d) && EntryRefs(model, index, rest, Some(d)).Ok?
  {
    assert ([path] + rest)[1..] == rest;
  }

  /** The entries of a data set resolve exactly when all its paths lie in one domain, that of the entries before. */
  lemma {:induction false} EntriesResolve(model: Model, index: Index, paths: seq<string>, d: string)
    ensures EntryRefs(model, index, paths, Some(d)).Ok? <==> AllInDomain(model, index, paths, d)
  {
    if paths != [] {
      var path, rest := paths[0], paths[1..];
      assert paths == [path] + rest;
      AllInDomainCons(model, index, path, rest, d);
      EntryRefsCons(model, index, path, rest, d);
      EntriesResolve(model, index, rest, d);
    }
  }

  lemma {:induction false} EntriesInOrder(model: Model, index: Index, paths: seq<string>, d: string)
    requires EntryRefs(model, index, paths, Some(d)).Ok?
    ensures var (entries, last) := EntryRefs(model, index, paths, Some(d)).value;
            && |entries| == |paths| && last == Some(d)
            && forall i :: 0 <= i < |paths| ==> DatasetEntryPath(model, index, paths[i]) == Ok((entries[i], d))
  {
    if paths != [] {
      EntriesInOrder(model, index, paths[1..], d);
      var (entries, last) := EntryRefs(model, index, paths, Some(d)).value;
      forall i | 0 <= i < |paths|
        ensures DatasetEntryPath(model, index, paths[i]) == Ok((entries[i], d))
      {
        assert i > 0 ==> paths[i] == paths[1..][i - 1];
      }
    }
  }

  /** The first path that does not resolve, or lies in another domain, is the one the data set is refused for. */
  lemma {:induction false} EntriesRefused(model: Model, index: Index, paths: seq<string>, d: string, k: nat)
    requires k < |paths| && !InDomain(model, index, paths[k], d)
    requires forall i :: 0 <= i < k ==> InDomain(model, index, paths[i], d)
    ensures EntryRefs(model, index, paths, Some(d)) == Raised(RefusedEntry(model, index, paths[k]))
    decreases k
  {
    if k > 0 {
      var rest := paths[1..];
      assert forall i :: 0 <= i < |rest| ==> rest[i] == paths[i + 1];
      EntriesRefused(model, index, rest, d, k - 1);
      assert InDomain(model, index, paths[0], d);
    }
  }

  /** A KeyError for a path that names no attribute, a ValueError for one in another domain. */
  function RefusedEntry(model: Model, index: Index, path: string): PyError {
    match DatasetEntryPath(model, index, path) case Raised(e) => e case Ok(_) => ValueError
  }

  /** Why a data set is refused: it has no name or no entry, its first path does not resolve, or another one does not or
      lies in another domain than the first. */
  lemma DatasetRefused(model: Model, index: Index, name: string, paths: seq<string>, k: nat)
    ensures name == "" || paths == [] ==> PrepareDataset(model, index, name, paths) == Raised(ValueError)
    ensures name != "" && paths != [] && DatasetEntryPath(model, index, paths[0]).Raised? ==>
              PrepareDataset(model, index, name, paths) == Raised(DatasetEntryPath(model, index, paths[0]).error)
    ensures name != "" && k < |paths| && DatasetEntryPath(model, index, paths[0]).Ok? ==>
              var d := DatasetEntryPath(model, index, paths[0]).value.1;
              (forall i :: 0 <= i < k ==> InDomain(model, index, paths[i], d)) &&
              !InDomain(model, index, paths[k], d) ==>
                PrepareDataset(model, index, name, paths) == Raised(RefusedEntry(model, index, paths[k]))
  {
    if name != "" && k < |paths| && DatasetEntryPath(model, index, paths[0]).Ok? {
      var d := DatasetEntryPath(model, index, paths[0]).value.1;
      assert EntryRefs(model, index, paths, None) == EntryRefs(model, index, paths, Some(d));
      if (forall i :: 0 <= i < k ==> InDomain(model, index, paths[i], d)) && !InDomain(model, index, paths[k], d) {
        EntriesRefused(model, index, paths, d, k);
      }
    }
  }

  /** A data set is queued exactly when it has a name and at least one entry, and all its entries lie in one domain;
      it then has one entry reference per path, in order. */
  lemma DatasetPrepared(model: Model, index: Index, name: string, paths: seq<string>)
    ensures PrepareDataset(model, index, name, paths).Ok? <==>
            name != "" && paths != [] && exists d :: AllInDomain(model, index, paths, d)
    ensures PrepareDataset(model, index, name, paths).Ok? ==>
            var p := PrepareDataset(model, index, name, paths).value;
            && p.DataSet? && p.dataset.name == name && |p.dataset.entries| == |paths|
            && forall i :: 0 <= i < |paths| ==>
                 DatasetEntryPath(model, index, paths[i]) == Ok((p.dataset.entries[i], p.dataset.domain))
  {
    if name != "" && paths != [] {
      if d :| AllInDomain(model, index, paths, d) {
        assert InDomain(model, index, paths[0], d);
      }
      if DatasetEntryPath(model, index, paths[0]).Ok? {
        var d := DatasetEntryPath(model, index, paths[0]).value.1;
        EntriesResolve(model, index, paths, d);
        if EntryRefs(model, index, paths, Some(d)).Ok? {
          EntriesInOrder(model, index, paths, d);
        }
        assert EntryRefs(model, index, paths, None) == EntryRefs(model, index, paths, Some(d));
      }
    }
  }
}
