/** Commands and setters of one control object handle in every interleaving. The lock is fair: a command waits for its
    guard only when it cannot have it at once, and whoever waits is served in order. */
module ControlMachine {
  import opened Common
  import opened ControlSettings

  type CommandId = nat

  /** A command from its begin to its end. Only one that waits or is on its way is suspended. */
  datatype Command =
    | Taken(settings: Settings)      // settings taken, guard not asked for yet
    | Waiting(settings: Settings)    // suspended: the guard could not be had at once
    | Writing(settings: Settings)    // exclusive guard, nothing applied yet
    | Written                        // exclusive guard, applied, not downgraded yet
    | Reading(settings: Settings)    // shared guard, nothing applied yet
    | Sending                        // shared guard, applied: the command is on its way

  datatype Machine = Machine(
    pending: Settings,
    handle: Handle,
    writer: Option<CommandId>,
    readers: set<CommandId>,
    queue: seq<CommandId>,               // the commands that wait, in order
    commands: map<CommandId, Command>,
    begun: seq<CommandId>,               // every command so far, in the order they took their settings
    took: map<CommandId, Settings>,      // what each of them took
    applied: seq<CommandId>,             // the commands that applied their settings, in that order
    calls: seq<Setter>,                  // every setter call so far, in order
    overwritten: set<nat>)               // setter calls whose value was replaced before it was taken

  datatype Event =
    | Set(x: Setter)
    | Begin(c: CommandId)
    | Wait(c: CommandId)
    | LockWrite(c: CommandId)
    | ApplyWrite(c: CommandId)
    | Downgrade(c: CommandId)
    | LockRead(c: CommandId)
    | ApplyRead(c: CommandId)
    | Release(c: CommandId)
    | Abandon(c: CommandId)              // the future is dropped where it is suspended

  /** Settings taken and not applied yet. */
  predicate Unapplied(c: Command) {
    c.Taken? || c.Waiting? || c.Writing? || c.Reading?
  }

  predicate Asking(c: Command) {
    c.Taken? || c.Waiting?
  }

  /** Those that wait ahead of `c`; all of them when `c` does not wait. */
  function Ahead(queue: seq<CommandId>, c: CommandId): seq<CommandId> {
    if queue == [] || queue[0] == c then [] else [queue[0]] + Ahead(queue[1..], c)
  }

  function Without(queue: seq<CommandId>, c: CommandId): seq<CommandId> {
    if queue == [] then []
    else if queue[0] == c then Without(queue[1..], c)
    else [queue[0]] + Without(queue[1..], c)
  }

  /** A command in the queue that waits for the exclusive guard. */
  predicate WaitsToWrite(m: Machine, d: CommandId) {
    d in m.commands && m.commands[d].Waiting? && m.commands[d].settings.NeedsExclusive()
  }

  predicate MayRead(m: Machine, c: CommandId) {
    m.writer.None? && forall d <- Ahead(m.queue, c) :: !WaitsToWrite(m, d)
  }

  predicate MayWrite(m: Machine, c: CommandId) {
    m.writer.None? && m.readers == {} && Ahead(m.queue, c) == []
  }

  predicate Enabled(m: Machine, e: Event) {
    match e
    case Set(_) => true
    case Begin(c) => c !in m.begun
    case Wait(c) =>
      c in m.commands && m.commands[c].Taken? &&
      !(if m.commands[c].settings.NeedsExclusive() then MayWrite(m, c) else MayRead(m, c))
    case LockWrite(c) =>
      c in m.commands && Asking(m.commands[c]) && m.commands[c].settings.NeedsExclusive() && MayWrite(m, c)
    case ApplyWrite(c) => c in m.commands && m.commands[c].Writing?
    case Downgrade(c) => c in m.commands && m.commands[c].Written?
    case LockRead(c) =>
      c in m.commands && Asking(m.commands[c]) && !m.commands[c].settings.NeedsExclusive() && MayRead(m, c)
    case ApplyRead(c) => c in m.commands && m.commands[c].Reading?
    case Release(c) => c in m.commands && m.commands[c].Sending?
    case Abandon(c) => c in m.commands && (m.commands[c].Waiting? || m.commands[c].Sending?)
  }

  function Next(m: Machine, e: Event): Machine
    requires Enabled(m, e)
  {
    match e
    case Set(x) =>
      m.(pending := Record(m.pending, x, |m.calls|), calls := m.calls + [x],
         overwritten := m.overwritten + Replaced(m.pending, x))
    case Begin(c) =>
      m.(pending := NONE_RECORDED, commands := m.commands[c := Taken(m.pending)], begun := m.begun + [c],
         took := m.took[c := m.pending])
    case Wait(c) => m.(queue := m.queue + [c], commands := m.commands[c := Waiting(m.commands[c].settings)])
    case LockWrite(c) =>
      m.(writer := Some(c), queue := Without(m.queue, c), commands := m.commands[c := Writing(m.commands[c].settings)])
    case ApplyWrite(c) =>
      m.(handle := ApplyExclusive(m.handle, m.commands[c].settings), applied := m.applied + [c],
         commands := m.commands[c := Written])
    case Downgrade(c) => m.(writer := None, readers := m.readers + {c}, commands := m.commands[c := Sending])
    case LockRead(c) =>
      m.(readers := m.readers + {c}, queue := Without(m.queue, c),
         commands := m.commands[c := Reading(m.commands[c].settings)])
    case ApplyRead(c) =>
      m.(handle := ApplyShared(m.handle, m.commands[c].settings), applied := m.applied + [c],
         commands := m.commands[c := Sending])
    case Release(c) => m.(readers := m.readers - {c}, commands := m.commands - {c})
    case Abandon(c) => m.(readers := m.readers - {c}, queue := Without(m.queue, c), commands := m.commands - {c})
  }

  function Initial(h: Handle): Machine {
    Machine(NONE_RECORDED, h, None, {}, [], map[], [], map[], [], [], {})
  }

  ghost predicate IsRun(states: seq<Machine>, events: seq<Event>) {
    && |states| == |events| + 1
    && states[0] == Initial(states[0].handle)
    && forall i :: 0 <= i < |events| ==> Enabled(states[i], events[i]) && states[i + 1] == Next(states[i], events[i])
  }

  function Last(states: seq<Machine>): Machine
    requires states != []
  {
    states[|states| - 1]
  }

  /** A run goes on by any event that is enabled. */
  lemma Extend(states: seq<Machine>, events: seq<Event>, e: Event)
    returns (longer: seq<Machine>, more: seq<Event>)
    requires IsRun(states, events) && Enabled(Last(states), e)
    ensures IsRun(longer, more) && longer == states + [Next(Last(states), e)] && more == events + [e]
  {
    longer, more := states + [Next(Last(states), e)], events + [e];
    forall i | 0 <= i < |more|
      ensures Enabled(longer[i], more[i]) && longer[i + 1] == Next(longer[i], more[i])
    {
      assert longer[i] == states[i];
      if i < |events| {
        assert more[i] == events[i] && longer[i + 1] == states[i + 1];
      }
    }
  }

  // Guards.

  /** The command holds a shared guard on the handle. */
  predicate Holds(m: Machine, c: CommandId) {
    c in m.commands && (m.commands[c].Reading? || m.commands[c].Sending?)
  }

  predicate Excludes(m: Machine, c: CommandId) {
    c in m.commands && (m.commands[c].Writing? || m.commands[c].Written?)
  }

  predicate NoRepeats(s: seq<CommandId>) {
    forall i, j :: 0 <= i < j < |s| ==> s[i] != s[j]
  }

  ghost predicate GuardInv(m: Machine) {
    && (forall c: CommandId :: c in m.readers <==> Holds(m, c))
    && (forall c: CommandId :: Excludes(m, c) <==> m.writer == Some(c))
    && (m.writer.Some? ==> m.readers == {})
    && (forall c: CommandId :: c in m.commands && m.commands[c].Reading? ==> !m.commands[c].settings.NeedsExclusive())
  }

  ghost predicate QueueInv(m: Machine) {
    && NoRepeats(m.queue)
    && (forall c: CommandId :: c in m.queue <==> c in m.commands && m.commands[c].Waiting?)
    && m.commands.Keys <= m.took.Keys
    && NoRepeats(m.begun)
    && (forall c: CommandId :: c in m.begun <==> c in m.took)
  }

  lemma StepKeepsGuards(m: Machine, e: Event)
    requires GuardInv(m) && QueueInv(m) && Enabled(m, e)
    ensures GuardInv(Next(m, e))
  {
    var n := Next(m, e);
    forall c: CommandId
      ensures c in n.readers <==> Holds(n, c)
      ensures Excludes(n, c) <==> n.writer == Some(c)
    {
      assert (c in m.readers <==> Holds(m, c)) && (Excludes(m, c) <==> m.writer == Some(c));
      if e.Downgrade? {
        assert Excludes(m, e.c);
      }
    }
  }

  lemma {:induction false} WithoutOne(queue: seq<CommandId>, c: CommandId)
    ensures forall d: CommandId :: d in Without(queue, c) <==> d in queue && d != c
    ensures NoRepeats(queue) ==> NoRepeats(Without(queue, c))
    ensures |Without(queue, c)| <= |queue| && (c in queue ==> |Without(queue, c)| < |queue|)
  {
    if queue != [] {
      var rest := queue[1..];
      WithoutOne(rest, c);
      assert queue == [queue[0]] + rest;
      assert NoRepeats(queue) ==> NoRepeats(rest) && queue[0] !in rest;
    }
  }

  lemma AppendUnrepeated(s: seq<CommandId>, c: CommandId)
    requires NoRepeats(s) && c !in s
    ensures NoRepeats(s + [c])
  {
  }

  lemma StepKeepsQueue(m: Machine, e: Event)
    requires QueueInv(m) && Enabled(m, e)
    ensures QueueInv(Next(m, e))
  {
    match e
    case Begin(c) => AppendUnrepeated(m.begun, c);
    case Wait(c) => AppendUnrepeated(m.queue, c);
    case LockWrite(c) => WithoutOne(m.queue, c);
    case LockRead(c) => WithoutOne(m.queue, c);
    case Abandon(c) => WithoutOne(m.queue, c);
    case _ =>
  }

  lemma {:induction false} RunKeepsGuards(states: seq<Machine>, events: seq<Event>, i: nat)
    requires IsRun(states, events) && i < |states|
    ensures GuardInv(states[i]) && QueueInv(states[i])
  {
    if i > 0 {
      RunKeepsGuards(states, events, i - 1);
      StepKeepsGuards(states[i - 1], events[i - 1]);
      StepKeepsQueue(states[i - 1], events[i - 1]);
    }
  }

  lemma ApplyWriteExcludes(m: Machine, e: Event)
    requires Enabled(m, e)
    ensures e.ApplyWrite? ==> Excludes(m, e.c)
  {
  }

  lemma StepUnderGuard(m: Machine, e: Event, c: CommandId)
    requires GuardInv(m) && Enabled(m, e) && Holds(m, c)
    ensures Next(m, e).handle.origin == m.handle.origin && Next(m, e).handle.sboClass == m.handle.sboClass
  {
    ApplyWriteExcludes(m, e);
    assert c in m.readers && m.writer.None?;
  }

  /** In every interleaving, the origin and the SBO class stay as they are for as long as a command holds its guard. */
  lemma {:induction false} GuardedSettingsStable(states: seq<Machine>, events: seq<Event>, c: CommandId, i: nat, j: nat)
    requires IsRun(states, events) && i <= j < |states|
    requires forall k :: i <= k <= j ==> Holds(states[k], c)
    ensures states[j].handle.origin == states[i].handle.origin && states[j].handle.sboClass == states[i].handle.sboClass
  {
    if i < j {
      GuardedSettingsStable(states, events, c, i, j - 1);
      RunKeepsGuards(states, events, j - 1);
      StepUnderGuard(states[j - 1], events[j - 1], c);
    }
  }

  /** Whoever waits does so for another command, that holds a guard or waits as well. */
  lemma WaitsForAnother(m: Machine, c: CommandId)
    requires GuardInv(m) && QueueInv(m) && Enabled(m, Wait(c))
    ensures exists d: CommandId ::
              d in m.commands && d != c && (Holds(m, d) || Excludes(m, d) || m.commands[d].Waiting?)
  {
    if m.writer.Some? {
      assert Excludes(m, m.writer.value);
    } else if m.queue != [] {
      assert m.queue[0] in m.queue;
    } else {
      var d :| d in m.readers;
      assert Holds(m, d);
    }
  }

  lemma {:induction false} AheadIsAhead(queue: seq<CommandId>, c: CommandId, d: CommandId)
    requires d in queue && c != d
    ensures d in Ahead(queue, c) || c in Ahead(queue, d)
  {
    if queue[0] != c && queue[0] != d {
      AheadIsAhead(queue[1..], c, d);
    }
  }

  /** Nobody passes a command that waits for the exclusive guard: one that gets a guard was waiting ahead of it. */
  lemma WriterNotPassed(m: Machine, d: CommandId, c: CommandId)
    requires QueueInv(m) && WaitsToWrite(m, d) && c != d
    requires Enabled(m, LockRead(c)) || Enabled(m, LockWrite(c))
    ensures m.commands[c].Waiting? && c in Ahead(m.queue, d)
  {
    assert d in m.queue;
    AheadIsAhead(m.queue, c, d);
    AheadQueued(m.queue, d);
  }

  lemma {:induction false} AheadQueued(queue: seq<CommandId>, c: CommandId)
    ensures forall d <- Ahead(queue, c) :: d in queue
  {
    if queue != [] {
      AheadQueued(queue[1..], c);
    }
  }

  // Where a recorded value ends up.

  /** A recorded value is the one its setter call gave. */
  predicate Given(x: Setter, call: nat, calls: seq<Setter>) {
    call < |calls| && calls[call] == x
  }

  /** Every value in `p` is the one its setter call gave. */
  predicate Genuine(p: Settings, calls: seq<Setter>) {
    && (p.origin.Some? ==> Given(SetOrigin(p.origin.value.value), p.origin.value.call, calls))
    && (p.sboClass.Some? ==> Given(SetSboClass(p.sboClass.value.value), p.sboClass.value.call, calls))
    && (p.ctlNum.Some? ==> Given(SetCtlNum(p.ctlNum.value.value), p.ctlNum.value.call, calls))
    && (p.test.Some? ==> Given(SetTest(p.test.value.value), p.test.value.call, calls))
    && (p.synchroCheck.Some? ==> Given(SetSynchroCheck(p.synchroCheck.value.value), p.synchroCheck.value.call, calls))
    && (p.interlockCheck.Some? ==>
          Given(SetInterlockCheck(p.interlockCheck.value.value), p.interlockCheck.value.call, calls))
  }

  predicate SameKind(x: Setter, y: Setter) {
    || (x.SetOrigin? && y.SetOrigin?) || (x.SetSboClass? && y.SetSboClass?) || (x.SetCtlNum? && y.SetCtlNum?)
    || (x.SetTest? && y.SetTest?) || (x.SetSynchroCheck? && y.SetSynchroCheck?)
    || (x.SetInterlockCheck? && y.SetInterlockCheck?)
  }

  ghost predicate TakenBySome(m: Machine, k: nat) {
    exists c: CommandId :: c in m.took && k in CallsIn(m.took[c])
  }

  ghost predicate Superseded(calls: seq<Setter>, k: nat) {
    exists later: nat :: k < later < |calls| && SameKind(calls[k], calls[later])
  }

  /** Every setter call has a place: still pending, taken by a command, or overwritten by a later call of the same
      setter. */
  ghost predicate EveryCallPlaced(m: Machine) {
    && (forall k: nat :: k < |m.calls| ==> k in CallsIn(m.pending) || k in m.overwritten || TakenBySome(m, k))
    && (forall k: nat :: k in m.overwritten ==> Superseded(m.calls, k))
  }

  /** No setter call has two places. */
  ghost predicate OnePlaceEach(m: Machine) {
    && CallsIn(m.pending) !! m.overwritten
    && (forall c: CommandId :: c in m.took ==>
          CallsIn(m.took[c]) !! CallsIn(m.pending) && CallsIn(m.took[c]) !! m.overwritten)
    && (forall c: CommandId, d: CommandId :: c in m.took && d in m.took && c != d ==>
          CallsIn(m.took[c]) !! CallsIn(m.took[d]))
  }

  /** The values that are pending, and those a command took, are the ones their setter calls gave. */
  ghost predicate NothingInvented(m: Machine) {
    && Genuine(m.pending, m.calls)
    && (forall c: CommandId :: c in m.took ==> Genuine(m.took[c], m.calls))
  }

  ghost predicate CallInv(m: Machine) {
    EveryCallPlaced(m) && OnePlaceEach(m) && NothingInvented(m)
  }

  lemma GenuineBelow(p: Settings, calls: seq<Setter>)
    requires Genuine(p, calls)
    ensures forall k: nat :: k in CallsIn(p) ==> k < |calls|
  {
  }

  lemma GenuineStays(p: Settings, calls: seq<Setter>, x: Setter)
    requires Genuine(p, calls)
    ensures Genuine(p, calls + [x])
  {
  }

  lemma RecordIsGenuine(p: Settings, x: Setter, calls: seq<Setter>)
    requires Genuine(p, calls)
    ensures Genuine(Record(p, x, |calls|), calls + [x])
  {
    GenuineStays(p, calls, x);
    RecordOnGenuine(p, x, |calls|, calls + [x]);
  }

  lemma RecordOnGenuine(p: Settings, x: Setter, call: nat, calls: seq<Setter>)
    requires Genuine(p, calls) && Given(x, call, calls)
    ensures Genuine(Record(p, x, call), calls)
  {
    match x {
      case SetOrigin(_) =>
      case SetSboClass(_) =>
      case SetCtlNum(_) =>
      case SetTest(_) =>
      case SetSynchroCheck(_) =>
      case SetInterlockCheck(_) =>
    }
  }

  lemma ReplacedIsOlder(p: Settings, x: Setter, calls: seq<Setter>)
    requires Genuine(p, calls)
    ensures forall k: nat :: k in Replaced(p, x) ==> k < |calls| && SameKind(calls[k], x)
  {
  }

  /** Each field holds the calls of its own setter. */
  ghost predicate KindsApart(p: Settings, calls: seq<Setter>) {
    && (forall k :: k in CallOf(p.origin) ==> k < |calls| && calls[k].SetOrigin?)
    && (forall k :: k in CallOf(p.sboClass) ==> k < |calls| && calls[k].SetSboClass?)
    && (forall k :: k in CallOf(p.ctlNum) ==> k < |calls| && calls[k].SetCtlNum?)
    && (forall k :: k in CallOf(p.test) ==> k < |calls| && calls[k].SetTest?)
    && (forall k :: k in CallOf(p.synchroCheck) ==> k < |calls| && calls[k].SetSynchroCheck?)
    && (forall k :: k in CallOf(p.interlockCheck) ==> k < |calls| && calls[k].SetInterlockCheck?)
  }

  /** Recording a value puts its call in the place of the call it replaces. */
  lemma RecordReplaces(p: Settings, x: Setter, calls: seq<Setter>)
    requires KindsApart(p, calls)
    ensures CallsIn(Record(p, x, |calls|)) == CallsIn(p) - Replaced(p, x) + {|calls|}
  {
    var r := Record(p, x, |calls|);
    forall k: nat
      ensures k in CallsIn(r) <==> k in CallsIn(p) - Replaced(p, x) + {|calls|}
    {
    }
  }

  lemma SupersededStays(calls: seq<Setter>, x: Setter, k: nat)
    requires k < |calls| && (Superseded(calls, k) || SameKind(calls[k], x))
    ensures Superseded(calls + [x], k)
  {
    var all := calls + [x];
    if Superseded(calls, k) {
      var later: nat :| k < later < |calls| && SameKind(calls[k], calls[later]);
      assert k < later < |all| && SameKind(all[k], all[later]);
    } else {
      assert k < |calls| < |all| && SameKind(all[k], all[|calls|]);
    }
  }

  lemma SetPlacesAll(m: Machine, x: Setter, k: nat)
    requires CallInv(m) && k < |m.calls| + 1
    ensures var n := Next(m, Set(x)); k in CallsIn(n.pending) || k in n.overwritten || TakenBySome(n, k)
  {
    var n := Next(m, Set(x));
    RecordReplaces(m.pending, x, m.calls);
    if k < |m.calls| && TakenBySome(m, k) {
      var c: CommandId :| c in m.took && k in CallsIn(m.took[c]);
      assert c in n.took && k in CallsIn(n.took[c]);
    }
  }

  lemma SetKeepsPlaces(m: Machine, x: Setter)
    requires CallInv(m)
    ensures EveryCallPlaced(Next(m, Set(x)))
  {
    var n := Next(m, Set(x));
    ReplacedIsOlder(m.pending, x, m.calls);
    forall k: nat | k in n.overwritten
      ensures Superseded(n.calls, k)
    {
      SupersededStays(m.calls, x, k);
    }
    forall k: nat | k < |n.calls|
      ensures k in CallsIn(n.pending) || k in n.overwritten || TakenBySome(n, k)
    {
      SetPlacesAll(m, x, k);
    }
  }

  lemma SetKeepsApart(m: Machine, x: Setter)
    requires CallInv(m)
    ensures OnePlaceEach(Next(m, Set(x)))
  {
    RecordReplaces(m.pending, x, m.calls);
    assert Replaced(m.pending, x) <= CallsIn(m.pending);
    forall k: nat | k in m.overwritten
      ensures k < |m.calls|
    {
      assert Superseded(m.calls, k);
    }
    forall c: CommandId | c in m.took
      ensures |m.calls| !in CallsIn(m.took[c])
    {
      GenuineBelow(m.took[c], m.calls);
    }
  }

  lemma SetInventsNothing(m: Machine, x: Setter)
    requires CallInv(m)
    ensures NothingInvented(Next(m, Set(x)))
  {
    RecordIsGenuine(m.pending, x, m.calls);
    forall c: CommandId | c in m.took
      ensures Genuine(m.took[c], m.calls + [x])
    {
      GenuineStays(m.took[c], m.calls, x);
    }
  }

  lemma SetKeepsCalls(m: Machine, x: Setter)
    requires CallInv(m)
    ensures CallInv(Next(m, Set(x)))
  {
    SetKeepsPlaces(m, x);
    SetKeepsApart(m, x);
    SetInventsNothing(m, x);
  }

  lemma BeginKeepsPlaces(m: Machine, b: CommandId)
    requires EveryCallPlaced(m) && b !in m.took && Enabled(m, Begin(b))
    ensures EveryCallPlaced(Next(m, Begin(b)))
  {
    var n := Next(m, Begin(b));
    forall k: nat | k < |n.calls|
      ensures k in n.overwritten || TakenBySome(n, k)
    {
      if k in CallsIn(m.pending) {
        assert b in n.took && k in CallsIn(n.took[b]);
      } else if k !in m.overwritten {
        var c: CommandId :| c in m.took && k in CallsIn(m.took[c]);
        assert c in n.took && k in CallsIn(n.took[c]);
      }
    }
  }

  lemma BeginKeepsCalls(m: Machine, b: CommandId)
    requires CallInv(m) && b !in m.took && Enabled(m, Begin(b))
    ensures CallInv(Next(m, Begin(b)))
  {
    assert CallsIn(NONE_RECORDED) == {};
    BeginKeepsPlaces(m, b);
  }

  lemma CommandStep(m: Machine, e: Event)
    requires Enabled(m, e) && !e.Set? && !e.Begin?
    ensures var n := Next(m, e);
            && n.pending == m.pending && n.took == m.took && n.overwritten == m.overwritten && n.calls == m.calls
            && n.begun == m.begun
  {
  }

  lemma UntouchedKeepsCalls(m: Machine, n: Machine)
    requires CallInv(m)
    requires n.pending == m.pending && n.took == m.took && n.overwritten == m.overwritten && n.calls == m.calls
    ensures CallInv(n)
  {
    assert forall k: nat :: TakenBySome(m, k) ==> TakenBySome(n, k);
    assert EveryCallPlaced(n) && OnePlaceEach(n);
  }

  lemma StepKeepsCalls(m: Machine, e: Event)
    requires CallInv(m) && QueueInv(m) && Enabled(m, e)
    ensures CallInv(Next(m, e))
  {
    if e.Set? {
      SetKeepsCalls(m, e.x);
    } else if e.Begin? {
      BeginKeepsCalls(m, e.c);
    } else {
      CommandStep(m, e);
      UntouchedKeepsCalls(m, Next(m, e));
    }
  }

  /** In every interleaving, each recorded value is pending, overwritten, or taken by one command. */
  lemma {:induction false} RunKeepsCalls(states: seq<Machine>, events: seq<Event>, i: nat)
    requires IsRun(states, events) && i < |states|
    ensures CallInv(states[i])
  {
    if i == 0 {
      assert CallsIn(NONE_RECORDED) == {};
    } else {
      RunKeepsCalls(states, events, i - 1);
      RunKeepsGuards(states, events, i - 1);
      StepKeepsCalls(states[i - 1], events[i - 1]);
    }
  }

  lemma TookStays(m: Machine, e: Event, c: CommandId)
    requires QueueInv(m) && Enabled(m, e) && c in m.took
    ensures c in Next(m, e).took && Next(m, e).took[c] == m.took[c]
  {
  }

  lemma {:induction false} TookForGood(states: seq<Machine>, events: seq<Event>, c: CommandId, i: nat, j: nat)
    requires IsRun(states, events) && i <= j < |states| && c in states[i].took
    ensures c in states[j].took && states[j].took[c] == states[i].took[c]
  {
    if i < j {
      TookForGood(states, events, c, i, j - 1);
      RunKeepsGuards(states, events, j - 1);
      TookStays(states[j - 1], events[j - 1], c);
    }
  }
}
