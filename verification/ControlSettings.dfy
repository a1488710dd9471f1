/** The deferred settings of a control object handle. Setters record; a command takes what is recorded and applies it to
    the shared handle. */
module ControlSettings {
  import opened Common

  datatype Origin = Origin(orCat: int, orIdent: Octets)

  datatype SboClass = OperateOnce | OperateMany

  /** A recorded value. `call` numbers the setter calls of a run, so that two calls with the same value can be told
      apart; nothing depends on it but the bookkeeping. */
  datatype Recorded<T> = Recorded(value: T, call: nat)

  /** `PendingControlSettings`. */
  datatype Settings = Settings(
    origin: Option<Recorded<Origin>>,
    sboClass: Option<Recorded<SboClass>>,
    ctlNum: Option<Recorded<Octet>>,
    test: Option<Recorded<bool>>,
    synchroCheck: Option<Recorded<bool>>,
    interlockCheck: Option<Recorded<bool>>)
  {
    predicate NeedsExclusive() { origin.Some? || sboClass.Some? }
  }

  const NONE_RECORDED := Settings(None, None, None, None, None, None)

  /** The settings of the shared handle that commands are sent with. */
  datatype Handle = Handle(
    origin: Origin, sboClass: SboClass, ctlNum: Octet, test: bool, synchroCheck: bool, interlockCheck: bool)

  /** One setter call. */
  datatype Setter =
    | SetOrigin(origin: Origin)
    | SetSboClass(sboClass: SboClass)
    | SetCtlNum(ctlNum: Octet)
    | SetTest(on: bool)
    | SetSynchroCheck(on: bool)
    | SetInterlockCheck(on: bool)

  function Record(p: Settings, x: Setter, call: nat): Settings {
    match x
    case SetOrigin(v) => p.(origin := Some(Recorded(v, call)))
    case SetSboClass(v) => p.(sboClass := Some(Recorded(v, call)))
    case SetCtlNum(v) => p.(ctlNum := Some(Recorded(v, call)))
    case SetTest(v) => p.(test := Some(Recorded(v, call)))
    case SetSynchroCheck(v) => p.(synchroCheck := Some(Recorded(v, call)))
    case SetInterlockCheck(v) => p.(interlockCheck := Some(Recorded(v, call)))
  }

  /** The setter applied to the handle at once. */
  function SetNow(h: Handle, x: Setter): Handle {
    match x
    case SetOrigin(v) => h.(origin := v)
    case SetSboClass(v) => h.(sboClass := v)
    case SetCtlNum(v) => h.(ctlNum := v)
    case SetTest(v) => h.(test := v)
    case SetSynchroCheck(v) => h.(synchroCheck := v)
    case SetInterlockCheck(v) => h.(interlockCheck := v)
  }

  function Or<T>(o: Option<Recorded<T>>, v: T): T {
    match o case Some(r) => r.value case None => v
  }

  /** `apply_shared`: the settings that need no exclusive guard. */
  function ApplyShared(h: Handle, p: Settings): Handle {
    h.(ctlNum := Or(p.ctlNum, h.ctlNum), test := Or(p.test, h.test),
       synchroCheck := Or(p.synchroCheck, h.synchroCheck), interlockCheck := Or(p.interlockCheck, h.interlockCheck))
  }

  function ApplyExclusive(h: Handle, p: Settings): Handle {
    ApplyShared(h.(origin := Or(p.origin, h.origin), sboClass := Or(p.sboClass, h.sboClass)), p)
  }

  function CallOf<T>(o: Option<Recorded<T>>): set<nat> {
    match o case Some(r) => {r.call} case None => {}
  }

  /** The pending values that a call of `x` replaces: at most one. */
  function Replaced(p: Settings, x: Setter): set<nat> {
    match x
    case SetOrigin(_) => CallOf(p.origin)
    case SetSboClass(_) => CallOf(p.sboClass)
    case SetCtlNum(_) => CallOf(p.ctlNum)
    case SetTest(_) => CallOf(p.test)
    case SetSynchroCheck(_) => CallOf(p.synchroCheck)
    case SetInterlockCheck(_) => CallOf(p.interlockCheck)
  }

  /** The setter calls whose values are in `p`. */
  function CallsIn(p: Settings): set<nat> {
    CallOf(p.origin) + CallOf(p.sboClass) + CallOf(p.ctlNum) +
    CallOf(p.test) + CallOf(p.synchroCheck) + CallOf(p.interlockCheck)
  }

  // Deferred setters and immediate ones.

  /** The handle after applying every setter directly at its call. */
  function Immediate(h: Handle, calls: seq<Setter>): Handle {
    if calls == [] then h else SetNow(Immediate(h, calls[..|calls| - 1]), calls[|calls| - 1])
  }

  /** Recording and applying later is setting now on top of what was recorded before. */
  lemma RecordThenApply(h: Handle, p: Settings, x: Setter, call: nat)
    ensures ApplyExclusive(h, Record(p, x, call)) == SetNow(ApplyExclusive(h, p), x)
  {
  }

  /** The handle as a caller has it, when every command gets its guard at once. */
  class ControlObjectClient {
    var pending: Settings
    var handle: Handle
    var setterCalls: nat
    ghost var immediate: Handle   // every setter so far applied directly at its call

    ghost predicate Valid()
      reads this
    {
      ApplyExclusive(handle, pending) == immediate
    }

    constructor (h: Handle)
      ensures Valid() && handle == h && immediate == h
    {
      pending, handle, setterCalls, immediate := NONE_RECORDED, h, 0, h;
    }

    /** A setter leaves the handle alone. */
    method Apply(x: Setter)
      requires Valid()
      modifies this
      ensures Valid() && handle == old(handle) && immediate == SetNow(old(immediate), x)
    {
      RecordThenApply(handle, pending, x, setterCalls);
      pending := Record(pending, x, setterCalls);
      setterCalls := setterCalls + 1;
      immediate := SetNow(immediate, x);
    }

    /** `control_handle_for_command`: after it the handle has caught up. */
    method PrepareCommand()
      requires Valid()
      modifies this
      ensures Valid() && handle == immediate == old(immediate) && pending == NONE_RECORDED
    {
      var settings := pending;
      pending := NONE_RECORDED;
      if settings.NeedsExclusive() {
        if settings.origin.Some? {
          handle := handle.(origin := settings.origin.value.value);
        }
        if settings.sboClass.Some? {
          handle := handle.(sboClass := settings.sboClass.value.value);
        }
        handle := ApplyShared(handle, settings);
      } else {
        handle := ApplyShared(handle, settings);
      }
    }
  }

  /** The exclusive guard is asked for exactly when the settings could change the origin or the SBO class. */
  lemma ExclusiveWhenNeeded(p: Settings)
    ensures p.NeedsExclusive() <==>
            exists h: Handle :: ApplyExclusive(h, p).origin != h.origin || ApplyExclusive(h, p).sboClass != h.sboClass
  {
    var o := match p.origin case Some(r) => r.value case None => Origin(0, []);
    var other := Origin(o.orCat + 1, []);
    var c :=
      match p.sboClass
      case Some(r) => (if r.value.OperateOnce? then OperateMany else OperateOnce)
      case None => OperateOnce;
    var h := Handle(other, c, 0, false, false, false);
    assert p.origin.Some? ==> ApplyExclusive(h, p).origin != h.origin;
    assert p.sboClass.Some? ==> ApplyExclusive(h, p).sboClass != h.sboClass;
  }
}
