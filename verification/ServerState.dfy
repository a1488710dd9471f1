/** The state of a hosted server: the registrations queued before it starts, the calls made on the native
    server once it runs, and the transitions made under the state lock. */
module ServerState {
  import opened Common

  type Callback = nat
  type Address = string
  type Tls = nat
  type Handle = nat

  datatype Handler = Handler(userPath: string, callback: Callback, withContext: bool)

  datatype ControlKey = ControlKey(domain: string, lnName: string, doName: string)

  datatype ControlSettings = ControlSettings(model: string, sboTimeoutMs: nat, sboClass: string, operTimeoutMs: nat)

  datatype Control = Control(
    userPath: string, key: ControlKey, settings: ControlSettings,
    check: Option<Callback>, operate: Option<Callback>, wait: Option<Callback>)

  datatype Dataset = Dataset(name: string, domain: string, entries: seq<string>)

  datatype ReportSettings = ReportSettings(
    rptId: string, confRev: nat, trgOps: set<string>, optFlds: set<string>, bufTmMs: nat, intgPdMs: nat)

  datatype BufferSettings = BufferSettings(capacity: nat, withResvTms: bool, withOwner: bool)

  datatype Report = Report(
    mmsPath: string, datasetName: string, rcbName: string, settings: ReportSettings, buffer: Option<BufferSettings>)

  datatype LogSettings = LogSettings(
    logRef: Option<string>, trgOps: set<string>, intgPdMs: nat, includeReasonCode: bool, enabled: bool,
    capacity: Option<nat>)

  datatype LogBlock = LogBlock(
    mmsPath: string, domain: string, item: string, name: string, datasetName: string, settings: LogSettings)

  datatype Group = Group(
    domain: string, userPath: string,
    onActSg: Option<Callback>, onEditSg: Option<Callback>, onConfirm: Option<Callback>)

  /** A registration queued before `start()`. */
  datatype Pending =
    | Read(canonical: string, handler: Handler)
    | Write(canonical: string, handler: Handler)
    | ControlObject(control: Control)
    | DataSet(dataset: Dataset)
    | Urcb(report: Report)
    | Brcb(report: Report)
    | LogControl(block: LogBlock)
    | SettingGroup(group: Group)
    | FromModel
    | Authenticator(callback: Option<Callback>)

  /** A call on the native server or its builder. */
  datatype Call =
    | LoadTls(tls: Tls)
    | Build(addr: Address, secured: bool, authenticator: Option<Callback>)
    | InstallRead(canonical: string, handler: Handler)
    | InstallWrite(canonical: string, handler: Handler)
    | RegisterControl(control: Control)
    | RegisterUrcb(report: Report, dataset: Dataset)
    | RegisterBrcb(report: Report, dataset: Dataset)
    | RegisterDataset(dataset: Dataset)
    | RegisterLogControl(block: LogBlock)
    | RegisterSettingGroup(group: Group)
    | RegisterFromModel
    | SetAuthenticator(callback: Option<Callback>)
    | Open

  /** Whether the native server accepts a call after the calls it has already had. It is not part of this
      model, so every answer of it is allowed for. */
  type Native = (seq<Call>, Call) -> bool

  /** Calls that return no error. */
  predicate Infallible(c: Call) {
    c.RegisterControl? || c.RegisterDataset? || c.SetAuthenticator?
  }

  predicate Accepts(native: Native, log: seq<Call>, c: Call) {
    Infallible(c) || native(log, c)
  }

  datatype ServerState =
    | NotStarted(bindAddr: Option<Address>, pending: seq<Pending>, tls: Option<Tls>)
    | Running(log: seq<Call>, handle: Option<Handle>)
    | Stopped

  // The queue.

  /** What at most one entry of the queue may claim. */
  datatype Slot =
    | DatasetName(name: string)
    | UrcbPath(path: string)
    | BrcbPath(path: string)
    | LogPath(path: string)
    | GroupDomain(domain: string)
    | WholeModel

  function SlotOf(p: Pending): Option<Slot> {
    match p
    case DataSet(d) => Some(DatasetName(d.name))
    case Urcb(r) => Some(UrcbPath(r.mmsPath))
    case Brcb(r) => Some(BrcbPath(r.mmsPath))
    case LogControl(b) => Some(LogPath(b.mmsPath))
    case SettingGroup(g) => Some(GroupDomain(g.domain))
    case FromModel => Some(WholeModel)
    case _ => None
  }

  predicate HasSlot(q: seq<Pending>, slot: Slot) {
    exists i :: 0 <= i < |q| && SlotOf(q[i]) == Some(slot)
  }

  /** `Vec::retain`: the entries that do not claim `slot`. */
  function Retain(q: seq<Pending>, slot: Slot): seq<Pending> {
    if q == [] then []
    else
      var rest := Retain(q[..|q| - 1], slot);
      if SlotOf(q[|q| - 1]) == Some(slot) then rest else rest + [q[|q| - 1]]
  }

  /** Queues one registration, or says why it is refused. */
  function Enqueue(q: seq<Pending>, p: Pending): Result<seq<Pending>> {
    match p
    case DataSet(d) => if HasSlot(q, DatasetName(d.name)) then Raised(ValueError) else Ok(q + [p])
    case Urcb(r) =>
      if !HasSlot(q, DatasetName(r.datasetName)) then Raised(KeyError)
      else if HasSlot(q, UrcbPath(r.mmsPath)) then Raised(ValueError)
      else Ok(q + [p])
    case Brcb(r) =>
      if !HasSlot(q, DatasetName(r.datasetName)) then Raised(KeyError)
      else if HasSlot(q, BrcbPath(r.mmsPath)) then Raised(ValueError)
      else Ok(q + [p])
    case LogControl(b) => if HasSlot(q, LogPath(b.mmsPath)) then Raised(ValueError) else Ok(q + [p])
    case SettingGroup(g) => Ok(Retain(q, GroupDomain(g.domain)) + [p])
    case FromModel => if HasSlot(q, WholeModel) then Raised(RuntimeError) else Ok(q + [p])
    case _ => Ok(q + [p])
  }

  /** The data set an entry relies on. */
  function Needs(p: Pending): Option<Slot> {
    match p
    case Urcb(r) => Some(DatasetName(r.datasetName))
    case Brcb(r) => Some(DatasetName(r.datasetName))
    case _ => None
  }

  /** No slot is claimed twice, and every report names a data set queued before it. */
  predicate QueueInv(q: seq<Pending>) {
    q != [] ==>
      var init, last := q[..|q| - 1], q[|q| - 1];
      && QueueInv(init)
      && (SlotOf(last).Some? ==> !HasSlot(init, SlotOf(last).value))
      && (Needs(last).Some? ==> HasSlot(init, Needs(last).value))
  }

  lemma HasSlotSnoc(q: seq<Pending>, p: Pending, slot: Slot)
    ensures HasSlot(q + [p], slot) <==> HasSlot(q, slot) || SlotOf(p) == Some(slot)
  {
    if HasSlot(q, slot) {
      var i :| 0 <= i < |q| && SlotOf(q[i]) == Some(slot);
      assert SlotOf((q + [p])[i]) == Some(slot);
    }
    if SlotOf(p) == Some(slot) {
      assert SlotOf((q + [p])[|q|]) == Some(slot);
    }
  }

  lemma {:induction false} RetainSlots(q: seq<Pending>, slot: Slot, other: Slot)
    ensures HasSlot(Retain(q, slot), other) <==> HasSlot(q, other) && other != slot
  {
    if q != [] {
      var init, last := q[..|q| - 1], q[|q| - 1];
      assert q == init + [last];
      RetainSlots(init, slot, other);
      HasSlotSnoc(init, last, other);
      HasSlotSnoc(Retain(init, slot), last, other);
    }
  }

  lemma {:induction false} RetainKeepsInv(q: seq<Pending>, domain: string)
    requires QueueInv(q)
    ensures QueueInv(Retain(q, GroupDomain(domain)))
  {
    if q != [] {
      var init, last := q[..|q| - 1], q[|q| - 1];
      var kept := Retain(init, GroupDomain(domain));
      RetainKeepsInv(init, domain);
      assert (kept + [last])[..|kept|] == kept;
      if SlotOf(last).Some? {
        RetainSlots(init, GroupDomain(domain), SlotOf(last).value);
      }
      if Needs(last).Some? {
        RetainSlots(init, GroupDomain(domain), Needs(last).value);
      }
    }
  }

  lemma InvSnoc(q: seq<Pending>, p: Pending)
    requires QueueInv(q)
    requires SlotOf(p).Some? ==> !HasSlot(q, SlotOf(p).value)
    requires Needs(p).Some? ==> HasSlot(q, Needs(p).value)
    ensures QueueInv(q + [p])
  {
    assert (q + [p])[..|q|] == q;
  }

  lemma EnqueueAppends(q: seq<Pending>, p: Pending)
    requires !p.SettingGroup?
    ensures Enqueue(q, p).Ok? <==>
            (SlotOf(p).Some? ==> !HasSlot(q, SlotOf(p).value)) && (Needs(p).Some? ==> HasSlot(q, Needs(p).value))
    ensures Enqueue(q, p).Ok? ==> Enqueue(q, p).value == q + [p]
  {
  }

  lemma InvSnocExactly(q: seq<Pending>, p: Pending)
    requires QueueInv(q)
    ensures QueueInv(q + [p]) <==>
            (SlotOf(p).Some? ==> !HasSlot(q, SlotOf(p).value)) && (Needs(p).Some? ==> HasSlot(q, Needs(p).value))
  {
    assert (q + [p])[..|q|] == q;
  }

  lemma ReplacementKeepsInv(q: seq<Pending>, p: Pending)
    requires QueueInv(q) && p.SettingGroup?
    ensures QueueInv(Retain(q, GroupDomain(p.group.domain)) + [p])
  {
    var slot := GroupDomain(p.group.domain);
    RetainKeepsInv(q, p.group.domain);
    RetainSlots(q, slot, slot);
    InvSnoc(Retain(q, slot), p);
  }

  /** Every accepted registration keeps the queue invariant, also the one that replaces an earlier entry. */
  lemma EnqueueKeepsInv(q: seq<Pending>, p: Pending)
    requires QueueInv(q) && Enqueue(q, p).Ok?
    ensures QueueInv(Enqueue(q, p).value)
  {
    if p.SettingGroup? {
      ReplacementKeepsInv(q, p);
    } else {
      EnqueueAppends(q, p);
      InvSnoc(q, p);
    }
  }

  /** Which entries claim what. */
  lemma ClaimsExactly(q: seq<Pending>, name: string)
    ensures HasSlot(q, DatasetName(name)) <==> exists d: Dataset :: DataSet(d) in q && d.name == name
    ensures HasSlot(q, UrcbPath(name)) <==> exists r: Report :: Urcb(r) in q && r.mmsPath == name
    ensures HasSlot(q, BrcbPath(name)) <==> exists r: Report :: Brcb(r) in q && r.mmsPath == name
    ensures HasSlot(q, LogPath(name)) <==> exists b: LogBlock :: LogControl(b) in q && b.mmsPath == name
    ensures HasSlot(q, GroupDomain(name)) <==> exists g: Group :: SettingGroup(g) in q && g.domain == name
    ensures HasSlot(q, WholeModel) <==> FromModel in q
  {
    ClaimFound(q, DatasetName(name));
    ClaimFound(q, UrcbPath(name));
    ClaimFound(q, BrcbPath(name));
    ClaimFound(q, LogPath(name));
    ClaimFound(q, GroupDomain(name));
    ClaimFound(q, WholeModel);
  }

  lemma ClaimFound(q: seq<Pending>, slot: Slot)
    ensures HasSlot(q, slot) <==> exists p <- q :: SlotOf(p) == Some(slot)
  {
    if p :| p in q && SlotOf(p) == Some(slot) {
      var i :| 0 <= i < |q| && q[i] == p;
    }
  }

  /** `retain` drops the entries that claim the slot and keeps every other as often as it is there. */
  lemma {:induction false} RetainExactly(q: seq<Pending>, slot: Slot, p: Pending)
    ensures multiset(Retain(q, slot))[p] == if SlotOf(p) == Some(slot) then 0 else multiset(q)[p]
  {
    if q != [] {
      RetainExactly(q[..|q| - 1], slot, p);
      assert q == q[..|q| - 1] + [q[|q| - 1]];
    }
  }

  /** A registration is refused exactly when appending it would break the queue invariant, with the exception of the
      condition it breaks: a KeyError for a report without its data set, else a ValueError for a data set, report or
      log whose name or path is taken, and a RuntimeError for the model's blocks a second time. A setting group
      handler never is refused, and takes the place of an earlier one. */
  lemma EnqueueAccepts(q: seq<Pending>, p: Pending)
    requires QueueInv(q)
    ensures Enqueue(q, p).Ok? <==> p.SettingGroup? || QueueInv(q + [p])
    ensures Enqueue(q, p).Ok? && !p.SettingGroup? ==> Enqueue(q, p).value == q + [p]
    ensures p.SettingGroup? ==> Enqueue(q, p) == Ok(Retain(q, GroupDomain(p.group.domain)) + [p])
    ensures var missing := Needs(p).Some? && !HasSlot(q, Needs(p).value);
            && (Enqueue(q, p) == Raised(KeyError) <==> missing)
            && (Enqueue(q, p) == Raised(ValueError) <==>
                !missing && (p.DataSet? || p.Urcb? || p.Brcb? || p.LogControl?) && HasSlot(q, SlotOf(p).value))
            && (Enqueue(q, p) == Raised(RuntimeError) <==> p.FromModel? && HasSlot(q, WholeModel))
  {
    InvSnocExactly(q, p);
    if !p.SettingGroup? {
      EnqueueAppends(q, p);
    }
  }

  // Registration under the state lock.

  /** The call a registration makes on a running server; the others are only possible before `start()`. */
  function DirectCall(p: Pending): Option<Call> {
    match p
    case Read(c, h) => Some(InstallRead(c, h))
    case Write(c, h) => Some(InstallWrite(c, h))
    case ControlObject(c) => Some(RegisterControl(c))
    case SettingGroup(g) => Some(RegisterSettingGroup(g))
    case FromModel => Some(RegisterFromModel)
    case Authenticator(a) => Some(SetAuthenticator(a))
    case _ => None
  }

  function RefusalOf(c: Call): PyError {
    if c.RegisterSettingGroup? then KeyError else ServerError
  }

  /** One registration in any state of the server. */
  function Submit(native: Native, state: ServerState, p: Pending): (ServerState, Result<()>) {
    match state
    case NotStarted(addr, q, tls) =>
      (match Enqueue(q, p)
       case Ok(q') => (NotStarted(addr, q', tls), Ok(()))
       case Raised(e) => (state, Raised(e)))
    case Running(log, handle) =>
      (match DirectCall(p)
       case None => (state, Raised(RuntimeError))
       case Some(c) =>
         if Accepts(native, log, c) then (Running(log + [c], handle), Ok(())) else (state, Raised(RefusalOf(c))))
    case Stopped => (state, Raised(RuntimeError))
  }

  ghost predicate StateInv(state: ServerState) {
    && (state.NotStarted? ==> QueueInv(state.pending))
    && (state.Running? ==> state.handle.Some?)
  }

  // The transitions of start, stop and drop under the state lock.

  /** What a start takes with it past the lock. */
  datatype Taken = Taken(addr: Address, pending: seq<Pending>, tls: Option<Tls>)

  /** The first locked section of `server_do_start`: a placeholder is left behind. */
  function TakeForStart(state: ServerState): (ServerState, Result<Taken>) {
    match state
    case NotStarted(Some(addr), q, tls) => (Stopped, Ok(Taken(addr, q, tls)))
    case _ => (state, Raised(RuntimeError))
  }

  /** The locked section of `server_do_stop`, and of the destructor, which ignores the error. */
  function TakeForStop(state: ServerState): (ServerState, Result<Option<Handle>>) {
    match state
    case Running(_, handle) => (Stopped, Ok(handle))
    case _ => (state, Raised(RuntimeError))
  }

  /** One registration on a server that has been started: after a stop all are refused; on a running server those that
      have to come before the start are, and of the others those the native server does not take, which is a KeyError
      for a setting group; one that is taken is one more call. */
  lemma StartedAnswers(native: Native, state: ServerState, p: Pending)
    requires !state.NotStarted?
    ensures var (after, r) := Submit(native, state, p);
            var early := p.DataSet? || p.Urcb? || p.Brcb? || p.LogControl?;
            var infallible := p.ControlObject? || p.Authenticator?;
            && (state.Stopped? || early ==> r == Raised(RuntimeError))
            && (r.Raised? ==> after == state)
            && (state.Running? && !early ==>
                  && DirectCall(p).Some?
                  && (r.Ok? <==> infallible || native(state.log, DirectCall(p).value))
                  && (r.Ok? ==> after == Running(state.log + [DirectCall(p).value], state.handle))
                  && (r.Raised? ==> r.error == if p.SettingGroup? then KeyError else ServerError))
  {
  }

  /** The call of a registration carries what was registered. */
  lemma CallsCarry(p: Pending)
    ensures DirectCall(p).None? <==> p.DataSet? || p.Urcb? || p.Brcb? || p.LogControl?
    ensures p.Read? ==> DirectCall(p) == Some(InstallRead(p.canonical, p.handler))
    ensures p.Write? ==> DirectCall(p) == Some(InstallWrite(p.canonical, p.handler))
    ensures p.ControlObject? ==> DirectCall(p) == Some(RegisterControl(p.control))
    ensures p.SettingGroup? ==> DirectCall(p) == Some(RegisterSettingGroup(p.group))
    ensures p.FromModel? ==> DirectCall(p) == Some(RegisterFromModel)
    ensures p.Authenticator? ==> DirectCall(p) == Some(SetAuthenticator(p.callback))
  {
  }
}
