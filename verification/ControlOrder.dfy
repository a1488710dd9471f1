/** Deferred setters against immediate ones: what a command is sent with, in every interleaving, and when that is what
    setting at once would have given. */
module ControlOrder {
  import opened Common
  import opened ControlSettings
  import opened ControlMachine

  // The handle is the taken settings in the order of application; the immediate handle, in the order of begin.

  /** The settings that the commands of `order` took, applied to `h` one after the other. */
  function Applying(h: Handle, order: seq<CommandId>, took: map<CommandId, Settings>): Handle {
    if order == [] then h
    else
      var before, last := Applying(h, order[..|order| - 1], took), order[|order| - 1];
      if last in took then ApplyExclusive(before, took[last]) else before
  }

  lemma ApplyingSnoc(h: Handle, order: seq<CommandId>, took: map<CommandId, Settings>, c: CommandId)
    requires c in took
    ensures Applying(h, order + [c], took) == ApplyExclusive(Applying(h, order, took), took[c])
  {
    assert (order + [c])[..|order|] == order;
  }

  lemma {:induction false} ApplyingUntouched(h: Handle, order: seq<CommandId>, took: map<CommandId, Settings>,
                                             c: CommandId, p: Settings)
    requires c !in order
    ensures Applying(h, order, took[c := p]) == Applying(h, order, took)
  {
    if order != [] {
      ApplyingUntouched(h, order[..|order| - 1], took, c, p);
    }
  }

  /** Without an origin or SBO class the shared application is all there is. */
  lemma SharedIsAll(h: Handle, p: Settings)
    requires !p.NeedsExclusive()
    ensures ApplyShared(h, p) == ApplyExclusive(h, p)
  {
  }

  lemma NothingToApply(h: Handle)
    ensures ApplyExclusive(h, NONE_RECORDED) == h
  {
  }

  ghost predicate OrderInv(m: Machine, h0: Handle) {
    && m.handle == Applying(h0, m.applied, m.took)
    && ApplyExclusive(Applying(h0, m.begun, m.took), m.pending) == Immediate(h0, m.calls)
    && (forall c <- m.applied :: c in m.took)
    && (forall c: CommandId :: c in m.commands && Unapplied(m.commands[c]) ==>
          c in m.took && m.commands[c].settings == m.took[c] && c !in m.applied)
  }

  lemma SetKeepsOrder(m: Machine, x: Setter, h0: Handle)
    requires OrderInv(m, h0)
    ensures OrderInv(Next(m, Set(x)), h0)
  {
    assert (m.calls + [x])[..|m.calls|] == m.calls;
    RecordThenApply(Applying(h0, m.begun, m.took), m.pending, x, |m.calls|);
  }

  lemma BeginKeepsOrder(m: Machine, c: CommandId, h0: Handle)
    requires OrderInv(m, h0) && QueueInv(m) && c !in m.begun
    ensures OrderInv(Next(m, Begin(c)), h0)
  {
    var took := m.took[c := m.pending];
    ApplyingUntouched(h0, m.applied, m.took, c, m.pending);
    ApplyingUntouched(h0, m.begun, m.took, c, m.pending);
    ApplyingSnoc(h0, m.begun, took, c);
    NothingToApply(Applying(h0, m.begun + [c], took));
  }

  lemma ApplyKeepsOrder(m: Machine, e: Event, h0: Handle)
    requires OrderInv(m, h0) && GuardInv(m) && (e.ApplyRead? || e.ApplyWrite?) && Enabled(m, e)
    ensures OrderInv(Next(m, e), h0)
  {
    ApplyingSnoc(h0, m.applied, m.took, e.c);
    if e.ApplyRead? {
      SharedIsAll(m.handle, m.commands[e.c].settings);
    }
  }

  /** Waiting, taking and giving back the guard. */
  lemma LockKeepsOrder(m: Machine, e: Event, h0: Handle)
    requires OrderInv(m, h0) && Enabled(m, e)
    requires !e.Set? && !e.Begin? && !e.ApplyRead? && !e.ApplyWrite?
    ensures OrderInv(Next(m, e), h0)
  {
    CommandStep(m, e);
    assert Next(m, e).handle == m.handle && Next(m, e).applied == m.applied;
  }

  lemma StepKeepsOrder(m: Machine, e: Event, h0: Handle)
    requires OrderInv(m, h0) && GuardInv(m) && QueueInv(m) && Enabled(m, e)
    ensures OrderInv(Next(m, e), h0)
  {
    match e
    case Set(x) => SetKeepsOrder(m, x, h0);
    case Begin(c) => BeginKeepsOrder(m, c, h0);
    case ApplyRead(_) => ApplyKeepsOrder(m, e, h0);
    case ApplyWrite(_) => ApplyKeepsOrder(m, e, h0);
    case _ => LockKeepsOrder(m, e, h0);
  }

  /** In every interleaving: the handle is what the commands took, in the order they applied it, and setting at once
      gives what they took in the order they began, with what is pending on top. */
  lemma {:induction false} RunKeepsOrder(states: seq<Machine>, events: seq<Event>, i: nat)
    requires IsRun(states, events) && i < |states|
    ensures OrderInv(states[i], states[0].handle)
  {
    if i == 0 {
      NothingToApply(states[0].handle);
    } else {
      RunKeepsOrder(states, events, i - 1);
      RunKeepsGuards(states, events, i - 1);
      StepKeepsOrder(states[i - 1], events[i - 1], states[0].handle);
    }
  }

  // Setter by setter.

  datatype Kind = OriginKind | SboClassKind | CtlNumKind | TestKind | SynchroCheckKind | InterlockCheckKind

  /** The setting of a kind, as the setter that gives it. */
  function ValueOf(h: Handle, k: Kind): Setter {
    match k
    case OriginKind => SetOrigin(h.origin)
    case SboClassKind => SetSboClass(h.sboClass)
    case CtlNumKind => SetCtlNum(h.ctlNum)
    case TestKind => SetTest(h.test)
    case SynchroCheckKind => SetSynchroCheck(h.synchroCheck)
    case InterlockCheckKind => SetInterlockCheck(h.interlockCheck)
  }

  function RecordedOf(p: Settings, k: Kind): Option<Setter> {
    match k
    case OriginKind => (match p.origin case Some(r) => Some(SetOrigin(r.value)) case None => None)
    case SboClassKind => (match p.sboClass case Some(r) => Some(SetSboClass(r.value)) case None => None)
    case CtlNumKind => (match p.ctlNum case Some(r) => Some(SetCtlNum(r.value)) case None => None)
    case TestKind => (match p.test case Some(r) => Some(SetTest(r.value)) case None => None)
    case SynchroCheckKind => (match p.synchroCheck case Some(r) => Some(SetSynchroCheck(r.value)) case None => None)
    case InterlockCheckKind =>
      (match p.interlockCheck case Some(r) => Some(SetInterlockCheck(r.value)) case None => None)
  }

  /** The last command of `order` that took a setting of the kind. */
  function LastTaker(order: seq<CommandId>, took: map<CommandId, Settings>, k: Kind): (c: Option<CommandId>)
    ensures c.Some? ==> c.value in took && RecordedOf(took[c.value], k).Some?
  {
    if order == [] then None
    else
      var last := order[|order| - 1];
      if last in took && RecordedOf(took[last], k).Some? then Some(last)
      else LastTaker(order[..|order| - 1], took, k)
  }

  /** What that command took, or the setting of `h` when none did. */
  function TakenLast(h: Handle, order: seq<CommandId>, took: map<CommandId, Settings>, k: Kind): Setter {
    match LastTaker(order, took, k)
    case Some(c) => RecordedOf(took[c], k).value
    case None => ValueOf(h, k)
  }

  lemma ValueApplied(h: Handle, p: Settings, k: Kind)
    ensures ValueOf(ApplyExclusive(h, p), k) == match RecordedOf(p, k) case Some(x) => x case None => ValueOf(h, k)
  {
  }

  lemma {:induction false} ApplyingValue(h: Handle, order: seq<CommandId>, took: map<CommandId, Settings>, k: Kind)
    ensures ValueOf(Applying(h, order, took), k) == TakenLast(h, order, took, k)
  {
    if order != [] {
      var init, last := order[..|order| - 1], order[|order| - 1];
      ApplyingValue(h, init, took, k);
      if last in took {
        ValueApplied(Applying(h, init, took), took[last], k);
      }
    }
  }

  lemma {:induction false} BegunGrows(states: seq<Machine>, events: seq<Event>, i: nat, j: nat)
    requires IsRun(states, events) && i <= j < |states|
    ensures states[i].begun <= states[j].begun
  {
    if i < j {
      BegunGrows(states, events, i, j - 1);
      if !events[j - 1].Begin? && !events[j - 1].Set? {
        CommandStep(states[j - 1], events[j - 1]);
      }
    }
  }

  /** The command begins at step `i` and its settings are applied at step `j`. */
  ghost predicate AppliedAt(states: seq<Machine>, events: seq<Event>, c: CommandId, i: nat, j: nat) {
    && IsRun(states, events) && i < j < |events|
    && events[i] == Begin(c) && (events[j] == ApplyRead(c) || events[j] == ApplyWrite(c))
  }

  lemma {:induction false} BegunTook(states: seq<Machine>, events: seq<Event>, i: nat, j: nat, order: seq<CommandId>)
    requires IsRun(states, events) && i <= j < |states|
    requires forall c <- order :: c in states[i].took
    ensures Applying(states[0].handle, order, states[j].took) == Applying(states[0].handle, order, states[i].took)
  {
    if i < j {
      BegunTook(states, events, i, j - 1, order);
      RunKeepsGuards(states, events, j - 1);
      var m, e := states[j - 1], events[j - 1];
      forall c | c in order ensures c in m.took {
        TookForGood(states, events, c, i, j - 1);
      }
      if e.Begin? {
        ApplyingUntouched(states[0].handle, order, m.took, e.c, m.pending);
      } else if !e.Set? {
        CommandStep(m, e);
      }
    }
  }

  /** What setting at once gives at a command's begin: what was taken so far, the command's own included, in the order
      of begin. */
  lemma ImmediateAtBegin(states: seq<Machine>, events: seq<Event>, c: CommandId, i: nat, j: nat)
    requires AppliedAt(states, events, c, i, j)
    ensures states[i + 1].begun == states[i].begun + [c]
    ensures Immediate(states[0].handle, states[i].calls) ==
            Applying(states[0].handle, states[i + 1].begun, states[j + 1].took)
  {
    RunKeepsOrder(states, events, i + 1);
    RunKeepsGuards(states, events, i + 1);
    NothingToApply(Applying(states[0].handle, states[i + 1].begun, states[i + 1].took));
    BegunTook(states, events, i + 1, j + 1, states[i + 1].begun);
  }

  /** In every interleaving, and for each setting: a command is sent with what setting at once up to its begin would
      have given exactly when the last command to apply such a setting gives what the last one to begin with such a
      setting took. */
  lemma SentExactly(states: seq<Machine>, events: seq<Event>, c: CommandId, i: nat, j: nat, k: Kind)
    requires AppliedAt(states, events, c, i, j)
    ensures ValueOf(states[j + 1].handle, k) == ValueOf(Immediate(states[0].handle, states[i].calls), k) <==>
            TakenLast(states[0].handle, states[j + 1].applied, states[j + 1].took, k) ==
            TakenLast(states[0].handle, states[i + 1].begun, states[j + 1].took, k)
  {
    ImmediateAtBegin(states, events, c, i, j);
    RunKeepsOrder(states, events, j + 1);
    ApplyingValue(states[0].handle, states[j + 1].applied, states[j + 1].took, k);
    ApplyingValue(states[0].handle, states[i + 1].begun, states[j + 1].took, k);
  }

  /** In every interleaving a command is sent with every setting that was pending when it began. */
  lemma OwnSettingsSent(states: seq<Machine>, events: seq<Event>, c: CommandId, i: nat, j: nat, k: Kind)
    requires AppliedAt(states, events, c, i, j) && RecordedOf(states[i].pending, k).Some?
    ensures ValueOf(states[j + 1].handle, k) == RecordedOf(states[i].pending, k).value
    ensures ValueOf(states[j + 1].handle, k) == ValueOf(Immediate(states[0].handle, states[i].calls), k)
  {
    TookForGood(states, events, c, i + 1, j + 1);
    RunKeepsOrder(states, events, i);
    RunKeepsOrder(states, events, j);
    ValueApplied(states[j].handle, states[i].pending, k);
    ValueApplied(Applying(states[0].handle, states[i].begun, states[i].took), states[i].pending, k);
    RunKeepsGuards(states, events, j);
    var m := states[j];
    if events[j].ApplyRead? {
      SharedIsAll(m.handle, m.commands[c].settings);
    }
  }

  /** Commands may overlap as they like: one that is applied when all before it were, in the order of their begins, and
      nothing after it was, is sent with the immediate settings. */
  lemma InOrderSeesImmediate(states: seq<Machine>, events: seq<Event>, c: CommandId, i: nat, j: nat)
    requires AppliedAt(states, events, c, i, j) && states[j + 1].applied == states[i + 1].begun
    ensures states[j + 1].handle == Immediate(states[0].handle, states[i].calls)
  {
    ImmediateAtBegin(states, events, c, i, j);
    RunKeepsOrder(states, events, j + 1);
  }

  // When that is so.

  /** Up to step `n`, no command begins while another is between its take and its application, and none is dropped while
      it waits. Any number may be on their way. */
  ghost predicate Serial(states: seq<Machine>, events: seq<Event>, n: nat)
    requires n <= |events| < |states|
  {
    forall k :: 0 <= k < n ==>
      && (events[k].Begin? ==> forall c <- states[k].commands :: !Unapplied(states[k].commands[c]))
      && (events[k].Abandon? ==>
            events[k].c in states[k].commands && states[k].commands[events[k].c].Sending?)
  }

  /** All that began was applied in that order, but for at most the last, which is the only one not applied yet. */
  ghost predicate InTurn(m: Machine) {
    && (forall c: CommandId :: c in m.commands && Unapplied(m.commands[c]) ==> m.begun == m.applied + [c])
    && ((forall c: CommandId :: c in m.commands ==> !Unapplied(m.commands[c])) ==> m.begun == m.applied)
  }

  lemma SameLast(s: seq<CommandId>, c: CommandId, d: CommandId)
    requires s + [c] == s + [d]
    ensures c == d
  {
    assert (s + [c])[|s|] == c && (s + [d])[|s|] == d;
  }

  lemma ApplyKeepsTurn(m: Machine, e: Event)
    requires InTurn(m) && (e.ApplyRead? || e.ApplyWrite?) && Enabled(m, e)
    ensures InTurn(Next(m, e))
  {
    var n := Next(m, e);
    forall c: CommandId | c in n.commands ensures !Unapplied(n.commands[c]) {
      if c != e.c && Unapplied(m.commands[c]) {
        SameLast(m.applied, c, e.c);
      }
    }
  }

  lemma StepKeepsTurn(m: Machine, e: Event)
    requires InTurn(m) && Enabled(m, e)
    requires e.Begin? ==> forall c <- m.commands :: !Unapplied(m.commands[c])
    requires e.Abandon? ==> m.commands[e.c].Sending?
    ensures InTurn(Next(m, e))
  {
    var n := Next(m, e);
    if e.Begin? {
      assert e.c in n.commands && Unapplied(n.commands[e.c]);
    } else if e.ApplyRead? || e.ApplyWrite? {
      ApplyKeepsTurn(m, e);
    } else {
      assert n.begun == m.begun && n.applied == m.applied;
      assert forall c: CommandId :: c in n.commands && Unapplied(n.commands[c]) ==>
               c in m.commands && Unapplied(m.commands[c]);
      assert forall c: CommandId :: c in m.commands && Unapplied(m.commands[c]) ==>
               c in n.commands && Unapplied(n.commands[c]);
    }
  }

  lemma {:induction false} SerialKeepsTurn(states: seq<Machine>, events: seq<Event>, n: nat)
    requires IsRun(states, events) && n <= |events| && Serial(states, events, n)
    ensures InTurn(states[n])
  {
    if n > 0 {
      SerialKeepsTurn(states, events, n - 1);
      StepKeepsTurn(states[n - 1], events[n - 1]);
    }
  }

  lemma LastIsLast(all: seq<CommandId>, short: seq<CommandId>, c: CommandId)
    requires NoRepeats(all) && short <= all && short != [] && all != []
    requires short[|short| - 1] == c && all[|all| - 1] == c
    ensures short == all
  {
    assert all[|short| - 1] == c;
  }

  /** Where no command begins while another is between its take and its application, and none is dropped while it waits,
      a command is sent with the settings obtained by applying every setter directly at its call, up to the command's
      begin; setters called after that come after it. Commands that are on their way are no obstacle. */
  lemma CommandSeesImmediate(states: seq<Machine>, events: seq<Event>, c: CommandId, i: nat, j: nat)
    requires AppliedAt(states, events, c, i, j) && Serial(states, events, j)
    ensures states[j + 1].handle == Immediate(states[0].handle, states[i].calls)
  {
    SerialKeepsTurn(states, events, j);
    RunKeepsGuards(states, events, j);
    BegunGrows(states, events, i + 1, j);
    LastIsLast(states[j].begun, states[i + 1].begun, c);
    InOrderSeesImmediate(states, events, c, i, j);
  }

  /** No other command applies its settings from step `i` to step `j`. */
  ghost predicate NoneApplies(events: seq<Event>, i: nat, j: nat)
    requires j <= |events|
  {
    forall k :: i <= k < j ==> !events[k].ApplyRead? && !events[k].ApplyWrite?
  }

  lemma {:induction false} AppliedUnchanged(states: seq<Machine>, events: seq<Event>, i: nat, j: nat)
    requires IsRun(states, events) && i <= j <= |events| && NoneApplies(events, i, j)
    ensures states[j].applied == states[i].applied
  {
    if i < j {
      AppliedUnchanged(states, events, i, j - 1);
    }
  }

  /** Seen from its begin alone: a command that finds everything taken so far applied, in the order of the begins, and
      is not overtaken by the application of a later one, is sent with the immediate settings. Others may begin. */
  lemma FromBeginSeesImmediate(states: seq<Machine>, events: seq<Event>, c: CommandId, i: nat, j: nat)
    requires AppliedAt(states, events, c, i, j)
    requires states[i].applied == states[i].begun && NoneApplies(events, i, j)
    ensures states[j + 1].handle == Immediate(states[0].handle, states[i].calls)
  {
    AppliedUnchanged(states, events, i, j);
    InOrderSeesImmediate(states, events, c, i, j);
  }

  lemma {:induction false} HandleUnchanged(states: seq<Machine>, events: seq<Event>, i: nat, j: nat)
    requires IsRun(states, events) && i <= j <= |events| && NoneApplies(events, i, j)
    ensures states[j].handle == states[i].handle
  {
    if i < j {
      HandleUnchanged(states, events, i, j - 1);
    }
  }

  /** The settings of the command are applied, and it holds the guard it applied them under. */
  predicate InForce(m: Machine, c: CommandId) {
    c in m.commands && (m.commands[c].Written? || m.commands[c].Sending?)
  }

  lemma StepInForce(m: Machine, e: Event, c: CommandId)
    requires GuardInv(m) && Enabled(m, e) && InForce(m, c)
    ensures Next(m, e).handle.origin == m.handle.origin && Next(m, e).handle.sboClass == m.handle.sboClass
  {
    ApplyWriteExcludes(m, e);
    assert Holds(m, c) ==> c in m.readers && m.writer.None?;
    assert Excludes(m, c) ==> m.writer == Some(c);
  }

  lemma {:induction false} StaysInForce(states: seq<Machine>, events: seq<Event>, c: CommandId, i: nat, j: nat)
    requires IsRun(states, events) && i <= j <= |events|
    requires forall n :: i <= n <= j ==> InForce(states[n], c)
    ensures states[j].handle.origin == states[i].handle.origin && states[j].handle.sboClass == states[i].handle.sboClass
  {
    if i < j {
      StaysInForce(states, events, c, i, j - 1);
      RunKeepsGuards(states, events, j - 1);
      StepInForce(states[j - 1], events[j - 1], c);
    }
  }

  /** It stays so for as long as the command is on its way: for the origin and the SBO class whatever other commands do,
      for the other settings until another command applies its own. */
  lemma SentThroughout(states: seq<Machine>, events: seq<Event>, c: CommandId, i: nat, j: nat, l: nat)
    requires AppliedAt(states, events, c, i, j) && Serial(states, events, j) && j < l <= |events|
    requires forall n :: j < n <= l ==> InForce(states[n], c)
    ensures var immediate := Immediate(states[0].handle, states[i].calls);
            && states[l].handle.origin == immediate.origin && states[l].handle.sboClass == immediate.sboClass
            && (NoneApplies(events, j + 1, l) ==> states[l].handle == immediate)
  {
    CommandSeesImmediate(states, events, c, i, j);
    StaysInForce(states, events, c, j + 1, l);
    if NoneApplies(events, j + 1, l) {
      HandleUnchanged(states, events, j + 1, l);
    }
  }

  /** One command at a time: none begins while another is there. */
  ghost predicate OneAtATime(states: seq<Machine>, events: seq<Event>, n: nat)
    requires n <= |events| < |states|
  {
    forall k :: 0 <= k < n && events[k].Begin? ==> states[k].commands == map[]
  }

  ghost predicate AtMostOne(m: Machine) {
    forall c: CommandId, d: CommandId :: c in m.commands && d in m.commands ==> c == d && !m.commands[c].Waiting?
  }

  lemma StepKeepsOne(m: Machine, e: Event)
    requires AtMostOne(m) && GuardInv(m) && QueueInv(m) && Enabled(m, e)
    requires e.Begin? ==> m.commands == map[]
    ensures AtMostOne(Next(m, e))
  {
    if e.Wait? {
      WaitsForAnother(m, e.c);
    }
  }

  lemma {:induction false} OneKept(states: seq<Machine>, events: seq<Event>, n: nat)
    requires IsRun(states, events) && n <= |events| && OneAtATime(states, events, n)
    ensures AtMostOne(states[n])
  {
    if n > 0 {
      OneKept(states, events, n - 1);
      RunKeepsGuards(states, events, n - 1);
      StepKeepsOne(states[n - 1], events[n - 1]);
    }
  }

  /** Commands that come one at a time never wait, so nothing more is asked of them: not even a dropped one loses
      settings. */
  lemma OneAtATimeIsSerial(states: seq<Machine>, events: seq<Event>, n: nat)
    requires IsRun(states, events) && n <= |events| && OneAtATime(states, events, n)
    ensures Serial(states, events, n)
  {
    forall k | 0 <= k < n && events[k].Abandon?
      ensures events[k].c in states[k].commands && states[k].commands[events[k].c].Sending?
    {
      OneKept(states, events, k);
    }
  }

  // When it is not.

  /** A command that begins now and holds no origin or SBO class would have its guard at once. */
  predicate SharedFree(m: Machine) {
    m.writer.None? && forall d <- m.queue :: !WaitsToWrite(m, d)
  }

  function Unused(ids: seq<CommandId>): (c: CommandId)
    ensures forall d <- ids :: d < c
  {
    if ids == [] then 0
    else
      var rest := Unused(ids[1..]);
      assert forall d <- ids :: d == ids[0] || d in ids[1..];
      if ids[0] < rest then rest else ids[0] + 1
  }

  lemma {:induction false} AheadIsQueued(queue: seq<CommandId>, c: CommandId)
    ensures forall d <- Ahead(queue, c) :: d in queue
  {
    if queue != [] {
      AheadIsQueued(queue[1..], c);
    }
  }

  /** A command that begins with nothing but shared settings pending, and goes straight through. */
  lemma SendNext(states: seq<Machine>, events: seq<Event>)
    returns (longer: seq<Machine>, more: seq<Event>, c: CommandId)
    requires IsRun(states, events) && SharedFree(Last(states)) && !Last(states).pending.NeedsExclusive()
    ensures IsRun(longer, more) && states <= longer && |more| == |events| + 3
    ensures AppliedAt(longer, more, c, |events|, |events| + 2) && Last(longer) == longer[|events| + 3]
    ensures Last(longer).handle.origin == Last(states).handle.origin && Last(longer).calls == Last(states).calls
    ensures SharedFree(Last(longer)) && Holds(Last(longer), c)
    ensures Last(longer).pending == NONE_RECORDED
  {
    var m := Last(states);
    c := Unused(m.begun);
    RunKeepsGuards(states, events, |events|);
    longer, more := Extend(states, events, Begin(c));
    AheadIsQueued(m.queue, c);
    longer, more := Extend(longer, more, LockRead(c));
    WithoutOne(m.queue, c);
    longer, more := Extend(longer, more, ApplyRead(c));
  }

  /** What the way to another state leaves alone. */
  ghost predicate Kept(m: Machine, n: Machine, d: CommandId) {
    && n.calls == m.calls && n.pending == m.pending && n.begun == m.begun
    && n.writer.None? && n.handle.origin == m.handle.origin
    && d in m.commands && d in n.commands && n.commands[d] == m.commands[d]
  }

  /** Those that wait for a shared guard, with no writer among them, get it. */
  lemma {:induction false} DrainQueue(states: seq<Machine>, events: seq<Event>, d: CommandId)
    returns (longer: seq<Machine>, more: seq<Event>)
    requires IsRun(states, events) && SharedFree(Last(states))
    requires d in Last(states).commands && Last(states).commands[d].Taken?
    ensures IsRun(longer, more) && states <= longer && events <= more
    ensures Kept(Last(states), Last(longer), d) && Last(longer).queue == []
    decreases |Last(states).queue|
  {
    var m := Last(states);
    longer, more := states, events;
    if m.queue != [] {
      var r := m.queue[0];
      RunKeepsGuards(states, events, |events|);
      assert r in m.queue;
      WithoutOne(m.queue, r);
      longer, more := Extend(states, events, LockRead(r));
      longer, more := DrainQueue(longer, more, d);
    }
  }

  /** One that holds a shared guard finishes. */
  lemma FinishReader(states: seq<Machine>, events: seq<Event>, r: CommandId)
    returns (longer: seq<Machine>, more: seq<Event>)
    requires IsRun(states, events) && r in Last(states).readers
    ensures IsRun(longer, more) && states <= longer && events <= more
    ensures var m, n := Last(states), Last(longer);
            && n.readers == m.readers - {r} && n.commands == m.commands - {r} && n.queue == m.queue
            && n.writer == m.writer && n.calls == m.calls && n.pending == m.pending && n.begun == m.begun
            && n.handle.origin == m.handle.origin
  {
    longer, more := states, events;
    RunKeepsGuards(states, events, |events|);
    assert Holds(Last(states), r);
    if Last(states).commands[r].Reading? {
      longer, more := Extend(longer, more, ApplyRead(r));
    }
    longer, more := Extend(longer, more, Release(r));
  }

  /** Those that hold a shared guard finish. */
  lemma {:induction false} DrainReaders(states: seq<Machine>, events: seq<Event>, d: CommandId)
    returns (longer: seq<Machine>, more: seq<Event>)
    requires IsRun(states, events) && Last(states).queue == [] && Last(states).writer.None?
    requires d in Last(states).commands && Last(states).commands[d].Taken?
    ensures IsRun(longer, more) && states <= longer && events <= more
    ensures Kept(Last(states), Last(longer), d) && Last(longer).queue == [] && Last(longer).readers == {}
    decreases |Last(states).readers|
  {
    longer, more := states, events;
    if Last(states).readers != {} {
      var r :| r in Last(states).readers;
      RunKeepsGuards(states, events, |events|);
      assert Holds(Last(states), r);
      longer, more := FinishReader(states, events, r);
      longer, more := DrainReaders(longer, more, d);
    }
  }

  /** The command gets the exclusive guard and applies its origin. */
  lemma ApplyOrigin(states: seq<Machine>, events: seq<Event>, d: CommandId)
    returns (longer: seq<Machine>, more: seq<Event>)
    requires IsRun(states, events)
    requires Last(states).queue == [] && Last(states).writer.None? && Last(states).readers == {}
    requires d in Last(states).commands && Last(states).commands[d].Taken?
    requires Last(states).commands[d].settings.origin.Some?
    ensures IsRun(longer, more) && states <= longer && events <= more
    ensures Last(longer).handle.origin == Last(states).commands[d].settings.origin.value.value
    ensures Last(longer).calls == Last(states).calls && Last(longer).pending == Last(states).pending
    ensures SharedFree(Last(longer))
  {
    longer, more := Extend(states, events, LockWrite(d));
    longer, more := Extend(longer, more, ApplyWrite(d));
    longer, more := Extend(longer, more, Downgrade(d));
  }

  lemma OwnerIsTaken(m: Machine, d: CommandId)
    requires GuardInv(m) && QueueInv(m) && SharedFree(m)
    requires d in m.commands && Unapplied(m.commands[d]) && m.commands[d].settings.origin.Some?
    ensures m.commands[d].Taken?
  {
    assert m.commands[d].Waiting? ==> WaitsToWrite(m, d) && d in m.queue;
    assert m.commands[d].Writing? ==> Excludes(m, d);
  }

  /** From every reachable state in which a command has yet to apply an origin other than the handle's, no origin or SBO
      class is pending and a shared guard can be had, some continuation sends the command that begins next with an
      origin other than the immediate one. */
  lemma OvertakenSeesOldOrigin(states: seq<Machine>, events: seq<Event>, d: CommandId)
    returns (longer: seq<Machine>, more: seq<Event>, c: CommandId, i: nat)
    requires IsRun(states, events)
    requires var m := Last(states);
             && SharedFree(m) && !m.pending.NeedsExclusive()
             && d in m.commands && Unapplied(m.commands[d]) && m.commands[d].settings.origin.Some?
             && m.commands[d].settings.origin.value.value != m.handle.origin
    ensures states <= longer && |states| - 1 <= i && AppliedAt(longer, more, c, i, i + 2)
    ensures longer[i].calls == Last(states).calls
    ensures longer[i + 3].handle.origin != Immediate(longer[0].handle, longer[i].calls).origin
  {
    var m := Last(states);
    RunKeepsGuards(states, events, |events|);
    OwnerIsTaken(m, d);
    longer, more := states, events;
    if m.handle.origin == Immediate(states[0].handle, m.calls).origin {
      longer, more := DrainQueue(longer, more, d);
      longer, more := DrainReaders(longer, more, d);
      longer, more := ApplyOrigin(longer, more, d);
    }
    i := |more|;
    longer, more, c := SendNext(longer, more);
  }

  /** The other way is open: a state like that is reached by a setter and the begin of one command. */
  lemma OverlapSeesOldOrigin(h: Handle, o: Origin)
    returns (states: seq<Machine>, events: seq<Event>, c: CommandId, i: nat)
    requires h.origin != o
    ensures states != [] && states[0].handle == h && AppliedAt(states, events, c, i, i + 2)
    ensures states[i].calls == [SetOrigin(o)] && states[i + 3].handle.origin != o
  {
    states, events := [Initial(h)], [];
    states, events := Extend(states, events, Set(SetOrigin(o)));
    states, events := Extend(states, events, Begin(1));
    assert Immediate(h, [SetOrigin(o)]) == SetNow(Immediate(h, []), SetOrigin(o));
    states, events, c, i := OvertakenSeesOldOrigin(states, events, 1);
  }

  /** A command with an origin has the handle for itself, and is done. */
  lemma PassAlone(states: seq<Machine>, events: seq<Event>, d: CommandId)
    returns (longer: seq<Machine>, more: seq<Event>)
    requires IsRun(states, events)
    requires Last(states).queue == [] && Last(states).writer.None? && Last(states).readers == {}
    requires d in Last(states).commands && Last(states).commands[d].Taken?
    requires Last(states).commands[d].settings.origin.Some?
    ensures IsRun(longer, more) && states <= longer
    ensures var m, n := Last(states), Last(longer);
            && n == m.(handle := n.handle, commands := m.commands - {d}, applied := m.applied + [d])
            && n.handle.origin == m.commands[d].settings.origin.value.value
  {
    longer, more := Extend(states, events, LockWrite(d));
    longer, more := Extend(longer, more, ApplyWrite(d));
    longer, more := Extend(longer, more, Downgrade(d));
    longer, more := Extend(longer, more, Release(d));
  }

  lemma TwoTaken(h: Handle, a: Origin, b: Origin) returns (states: seq<Machine>, events: seq<Event>)
    ensures IsRun(states, events) && states[0].handle == h
    ensures var m := Last(states);
            && m.calls == [SetOrigin(a), SetOrigin(b)] && m.pending == NONE_RECORDED
            && m.queue == [] && m.writer.None? && m.readers == {} && m.commands.Keys == {1, 2}
            && m.commands[1].Taken? && m.commands[2].Taken?
            && m.commands[1].settings.origin.Some? && m.commands[1].settings.origin.value.value == a
            && m.commands[2].settings.origin.Some? && m.commands[2].settings.origin.value.value == b
  {
    states, events := [Initial(h)], [];
    states, events := Extend(states, events, Set(SetOrigin(a)));
    states, events := Extend(states, events, Begin(1));
    states, events := Extend(states, events, Set(SetOrigin(b)));
    states, events := Extend(states, events, Begin(2));
  }

  /** What came before a command's begin matters: after an overlap that applied two origins in the wrong order, a
      command that has the handle to itself is sent with the older one. */
  lemma EarlierOverlapStays(h: Handle, a: Origin, b: Origin)
    returns (states: seq<Machine>, events: seq<Event>, c: CommandId, i: nat)
    requires a != b
    ensures states != [] && states[0].handle == h && AppliedAt(states, events, c, i, i + 2)
    ensures states[i].commands == map[] && states[i].calls == [SetOrigin(a), SetOrigin(b)]
    ensures states[i + 3].handle.origin == a
  {
    states, events := TwoTaken(h, a, b);
    states, events := PassAlone(states, events, 2);
    states, events := PassAlone(states, events, 1);
    assert Last(states).commands == map[];
    i := |events|;
    states, events, c := SendNext(states, events);
  }

  // Dropped commands.

  lemma GoneStep(m: Machine, e: Event, c: CommandId)
    requires QueueInv(m) && Enabled(m, e) && c in m.took && c !in m.commands && c !in m.applied
    ensures c in Next(m, e).took && c !in Next(m, e).commands && c !in Next(m, e).applied
  {
  }

  lemma {:induction false} GoneForGood(states: seq<Machine>, events: seq<Event>, c: CommandId, i: nat, j: nat)
    requires IsRun(states, events) && i <= j < |states|
    requires c in states[i].took && c !in states[i].commands && c !in states[i].applied
    ensures c in states[j].took && c !in states[j].commands && c !in states[j].applied
  {
    if i < j {
      GoneForGood(states, events, c, i, j - 1);
      RunKeepsGuards(states, events, j - 1);
      GoneStep(states[j - 1], events[j - 1], c);
    }
  }

  /** In every interleaving, what a command took is never applied by any command nor pending again once the command is
      dropped while it waits. */
  lemma DroppedNeverApplied(states: seq<Machine>, events: seq<Event>, c: CommandId, i: nat, j: nat)
    requires IsRun(states, events) && i < j < |states| && events[i] == Abandon(c) && states[i].commands[c].Waiting?
    ensures c in states[j].took && c !in states[j].applied
    ensures forall k <- CallsIn(states[j].took[c]) :: k !in CallsIn(states[j].pending) &&
              forall d <- states[j].applied :: d in states[j].took && k !in CallsIn(states[j].took[d])
  {
    RunKeepsOrder(states, events, i);
    RunKeepsGuards(states, events, i);
    GoneForGood(states, events, c, i + 1, j);
    RunKeepsCalls(states, events, j);
    RunKeepsOrder(states, events, j);
  }

  lemma WaitAndDrop(states: seq<Machine>, events: seq<Event>, d: CommandId)
    returns (longer: seq<Machine>, more: seq<Event>)
    requires IsRun(states, events) && Last(states).readers != {} && d !in Last(states).begun
    requires Last(states).pending.NeedsExclusive()
    ensures IsRun(longer, more) && states <= longer
    ensures var m, n := Last(states), Last(longer);
            n == m.(pending := NONE_RECORDED, begun := m.begun + [d], took := m.took[d := m.pending])
  {
    var m := Last(states);
    RunKeepsGuards(states, events, |events|);
    longer, more := Extend(states, events, Begin(d));
    longer, more := Extend(longer, more, Wait(d));
    WithoutLast(m.queue, d);
    longer, more := Extend(longer, more, Abandon(d));
    assert m.readers - {d} == m.readers by {
      assert !Holds(m, d);
    }
    assert Last(longer).commands == m.commands;
  }

  lemma {:induction false} WithoutLast(queue: seq<CommandId>, d: CommandId)
    requires d !in queue
    ensures Without(queue + [d], d) == queue
  {
    if queue == [] {
      assert [] + [d] == [d];
    } else {
      assert (queue + [d])[1..] == queue[1..] + [d];
      WithoutLast(queue[1..], d);
    }
  }

  /** From every reachable state with a command on its way and no writer waiting: a setter, a command that waits for its
      guard and is dropped, and the next command is sent without the new origin. */
  lemma AbandonedSettingsLost(states: seq<Machine>, events: seq<Event>, o: Origin)
    returns (longer: seq<Machine>, more: seq<Event>, c: CommandId, i: nat)
    requires IsRun(states, events)
    requires Last(states).readers != {} && SharedFree(Last(states)) && o != Last(states).handle.origin
    ensures states <= longer && AppliedAt(longer, more, c, i, i + 2)
    ensures longer[i].commands == Last(states).commands && longer[i].calls == Last(states).calls + [SetOrigin(o)]
    ensures Immediate(longer[0].handle, longer[i].calls).origin == o
    ensures longer[i + 3].handle.origin == Last(states).handle.origin != o
  {
    var m := Last(states);
    longer, more := Extend(states, events, Set(SetOrigin(o)));
    assert (m.calls + [SetOrigin(o)])[..|m.calls|] == m.calls;
    assert Unused(m.begun) !in m.begun;
    longer, more := WaitAndDrop(longer, more, Unused(m.begun));
    i := |more|;
    longer, more, c := SendNext(longer, more);
  }

  /** In every interleaving the command that took a value is the only one ever to have it: no other command applies it,
      and it is never pending again. */
  lemma ConsumedOnce(states: seq<Machine>, events: seq<Event>, c: CommandId, k: nat, i: nat, j: nat)
    requires IsRun(states, events) && i <= j < |states|
    requires c in states[i].took && k in CallsIn(states[i].took[c])
    ensures k !in CallsIn(states[j].pending) && k !in states[j].overwritten
    ensures forall d: CommandId :: d in states[j].commands && Unapplied(states[j].commands[d]) ==>
              k in CallsIn(states[j].commands[d].settings) ==> d == c
  {
    TookForGood(states, events, c, i, j);
    RunKeepsCalls(states, events, j);
    RunKeepsOrder(states, events, j);
  }
}
