/** The async agent manager: every interleaving of its critical sections. Statuses are guarded by one
    lock per agent, the registry by another, so a scan of the registry sees the statuses at different
    moments. */
module AsyncAgents {
  import opened Collections

  datatype Status = Pending | Running | Completed | Failed | Cancelled

  /** Where an agent's goroutine is: before it sets Running; working; after its final status; after a
      recovered panic; after it closed the done channel. */
  datatype Phase = Spawned | Working | Settled | Recovered | Exited

  datatype Agent = Agent(status: Status, phase: Phase)

  predicate IsActive(a: Agent) {
    a.status == Pending || a.status == Running
  }

  predicate IsOver(a: Agent) {
    a.status == Completed || a.status == Failed || a.status == Cancelled
  }

  // What the critical sections do to one agent.

  const NewAgent := Agent(Pending, Spawned)

  function Begun(a: Agent): Agent {
    Agent(Running, Working)
  }

  function Finished(a: Agent, ok: bool): Agent {
    Agent(if ok then Completed else Failed, Settled)
  }

  function Panicked(a: Agent): Agent {
    Agent(Failed, Recovered)
  }

  function Closed(a: Agent): Agent {
    a.(phase := Exited)
  }

  function CancelledIfRunning(a: Agent): Agent {
    if a.status == Running then a.(status := Cancelled) else a
  }

  function CancelledIfActive(a: Agent): Agent {
    if IsActive(a) then a.(status := Cancelled) else a
  }

  /** The fields of one agent that its state lock guards, and its critical sections. */
  class AsyncAgent {
    var status: Status
    ghost var phase: Phase

    ghost function Fields(): Agent
      reads this
    {
      Agent(status, phase)
    }

    constructor ()
      ensures Fields() == NewAgent
    {
      status, phase := Pending, Spawned;
    }

    method Begin()
      modifies this
      ensures Fields() == Begun(old(Fields()))
    {
      status, phase := Running, Working;
    }

    /** runAgent after RunAgent returned: an error or an unsuccessful result is a failure. */
    method Finish(err: bool, success: bool)
      modifies this
      ensures Fields() == Finished(old(Fields()), !err && success)
    {
      phase := Settled;
      if err {
        status := Failed;
      } else if success {
        status := Completed;
      } else {
        status := Failed;
      }
    }

    method RecoverPanic()
      modifies this
      ensures Fields() == Panicked(old(Fields()))
    {
      status, phase := Failed, Recovered;
    }

    method CancelRunning() returns (ok: bool)
      modifies this
      ensures ok == (old(status) == Running) && Fields() == CancelledIfRunning(old(Fields()))
    {
      if status != Running {
        return false;
      }
      status := Cancelled;
      ok := true;
    }

    method Close()
      modifies this
      ensures Fields() == CancelledIfActive(old(Fields()))
    {
      if status == Running || status == Pending {
        status := Cancelled;
      }
    }
  }

  // ---------------------------------------------------------------------------------------------
  // The system

  /** Who holds the registry lock: a StartAgent that counts, a Cleanup that has read one agent as
      over, or a Shutdown that cancels. */
  datatype Lock =
    | Free
    | Counting(id: nat, todo: set<nat>, count: nat)
    | Cleaning(todo: set<nat>, doomed: Option<nat>)
    | Sweeping(todo: set<nat>)

  /** A CloseAgent call that found its agent; marked: it has written the status, but not yet removed
      the agent. */
  datatype Closer = Closer(id: nat, marked: bool)

  datatype Sys = Sys(
    agents: map<nat, Agent>, registered: set<nat>, lock: Lock, cancels: seq<nat>, closers: seq<Closer>)

  datatype Action =
    | StartLock(id: nat) | CountOne(id: nat) | StartDecide
    | RunBegin(id: nat) | RunFinish(id: nat, ok: bool) | RunPanic(id: nat) | RunExit(id: nat)
    | CancelLook(id: nat) | CancelMark(k: nat)
    | CloseLook(id: nat) | CloseMark(k: nat) | CloseRemove(k: nat)
    | CleanLock | CleanRead(id: nat) | CleanRemove | CleanUnlock
    | SweepLock | SweepOne(id: nat) | SweepUnlock

  function Initial(): Sys {
    Sys(map[], {}, Free, [], [])
  }

  predicate AtPhase(s: Sys, id: nat, phases: set<Phase>) {
    id in s.agents && s.agents[id].phase in phases
  }

  predicate Enabled(s: Sys, a: Action) {
    match a
    case StartLock(id) => s.lock.Free? && id !in s.agents
    case CountOne(id) => s.lock.Counting? && id in s.lock.todo && id in s.agents
    case StartDecide => s.lock.Counting? && s.lock.todo == {} && s.lock.id !in s.agents
    case RunBegin(id) => AtPhase(s, id, {Spawned})
    case RunFinish(id, _) => AtPhase(s, id, {Working})
    case RunPanic(id) => AtPhase(s, id, {Working, Settled})
    case RunExit(id) => AtPhase(s, id, {Settled, Recovered})
    case CancelLook(id) => s.lock.Free? && id in s.registered
    case CancelMark(k) => k < |s.cancels| && s.cancels[k] in s.agents
    case CloseLook(id) => s.lock.Free? && id in s.registered
    case CloseMark(k) => k < |s.closers| && !s.closers[k].marked && s.closers[k].id in s.agents
    case CloseRemove(k) => s.lock.Free? && k < |s.closers| && s.closers[k].marked
    case CleanLock => s.lock.Free?
    case CleanRead(id) => s.lock.Cleaning? && s.lock.doomed == None && id in s.lock.todo && id in s.agents
    case CleanRemove => s.lock.Cleaning? && s.lock.doomed.Some?
    case CleanUnlock => s.lock.Cleaning? && s.lock.todo == {} && s.lock.doomed == None
    case SweepLock => s.lock.Free?
    case SweepOne(id) => s.lock.Sweeping? && id in s.lock.todo && id in s.agents
    case SweepUnlock => s.lock.Sweeping? && s.lock.todo == {}
  }

  function Without<T>(s: seq<T>, k: nat): seq<T>
    requires k < |s|
  {
    s[..k] + s[k + 1..]
  }

  function WithAgent(s: Sys, id: nat, a: Agent): Sys {
    s.(agents := s.agents[id := a])
  }

  function Apply(s: Sys, maxActive: int, a: Action): Sys
    requires Enabled(s, a)
  {
    match a
    case StartLock(id) => s.(lock := Counting(id, if maxActive > 0 then s.registered else {}, 0))
    case CountOne(id) =>
      s.(lock := Counting(s.lock.id, s.lock.todo - {id}, s.lock.count + if IsActive(s.agents[id]) then 1 else 0))
    case StartDecide =>
      if maxActive > 0 && s.lock.count >= maxActive then s.(lock := Free)
      else WithAgent(s, s.lock.id, NewAgent).(registered := s.registered + {s.lock.id}, lock := Free)
    case RunBegin(id) => WithAgent(s, id, Begun(s.agents[id]))
    case RunFinish(id, ok) => WithAgent(s, id, Finished(s.agents[id], ok))
    case RunPanic(id) => WithAgent(s, id, Panicked(s.agents[id]))
    case RunExit(id) => WithAgent(s, id, Closed(s.agents[id]))
    case CancelLook(id) => s.(cancels := s.cancels + [id])
    case CancelMark(k) =>
      WithAgent(s, s.cancels[k], CancelledIfRunning(s.agents[s.cancels[k]])).(cancels := Without(s.cancels, k))
    case CloseLook(id) => s.(closers := s.closers + [Closer(id, false)])
    case CloseMark(k) =>
      WithAgent(s, s.closers[k].id, CancelledIfActive(s.agents[s.closers[k].id]))
        .(closers := s.closers[k := Closer(s.closers[k].id, true)])
    case CloseRemove(k) => s.(registered := s.registered - {s.closers[k].id}, closers := Without(s.closers, k))
    case CleanLock => s.(lock := Cleaning(s.registered, None))
    case CleanRead(id) =>
      s.(lock := Cleaning(s.lock.todo - {id}, if IsOver(s.agents[id]) then Some(id) else None))
    case CleanRemove => s.(registered := s.registered - {s.lock.doomed.value}, lock := Cleaning(s.lock.todo, None))
    case CleanUnlock => s.(lock := Free)
    case SweepLock => s.(lock := Sweeping(s.registered))
    case SweepOne(id) => WithAgent(s, id, CancelledIfRunning(s.agents[id])).(lock := Sweeping(s.lock.todo - {id}))
    case SweepUnlock => s.(lock := Free)
  }

  ghost predicate Run(s: Sys, maxActive: int, run: seq<Action>, t: Sys)
    decreases |run|
  {
    if run == [] then s == t
    else Enabled(s, run[0]) && Run(Apply(s, maxActive, run[0]), maxActive, run[1..], t)
  }

  // ---------------------------------------------------------------------------------------------
  // Invariants

  /** Between its status write and the removal, a CloseAgent call has its agent marked. */
  ghost predicate Marked(s: Sys, id: nat) {
    exists k :: 0 <= k < |s.closers| && s.closers[k] == Closer(id, true)
  }

  /** The registered active agents that no CloseAgent call has marked. */
  ghost function Counted(s: Sys): set<nat> {
    set id | id in s.registered && id in s.agents && IsActive(s.agents[id]) && !Marked(s, id)
  }

  /** What the status can be at each point of the goroutine. */
  predicate Consistent(a: Agent) {
    match a.phase
    case Spawned => a.status in {Pending, Cancelled}
    case Working => a.status in {Running, Cancelled}
    case _ => a.status in {Completed, Failed}
  }

  /** A registered agent that was cancelled before its goroutine set Running is marked. */
  ghost predicate EarlyCancelMarked(s: Sys) {
    forall id :: id in s.registered && id in s.agents && s.agents[id] == Agent(Cancelled, Spawned) ==> Marked(s, id)
  }

  ghost predicate Statuses(s: Sys) {
    && s.registered <= s.agents.Keys
    && (forall id :: id in s.agents ==> Consistent(s.agents[id]))
    && EarlyCancelMarked(s)
  }

  /** A counting StartAgent has seen at least the active agents outside `todo`. */
  ghost predicate Breadth(s: Sys, maxActive: int) {
    && |Counted(s)| <= maxActive
    && (s.lock.Counting? ==> (
      s.lock.todo <= s.registered && s.lock.id !in s.agents && |Counted(s) - s.lock.todo| <= s.lock.count))
  }

  ghost predicate Inv(s: Sys, maxActive: int) {
    Statuses(s) && (maxActive > 0 ==> Breadth(s, maxActive))
  }

  lemma MarkedAfterRemoval(closers: seq<Closer>, k: nat, c: Closer)
    requires k < |closers| && c in closers && c.id != closers[k].id
    ensures c in Without(closers, k)
  {
    var i :| 0 <= i < |closers| && closers[i] == c;
    assert Without(closers, k)[if i < k then i else i - 1] == c;
  }

  /** Which agents are marked after an action. */
  lemma MarksKept(s: Sys, maxActive: int, a: Action, id: nat)
    requires Enabled(s, a) && Marked(s, id) && (a.CloseRemove? ==> s.closers[a.k].id != id)
    ensures Marked(Apply(s, maxActive, a), id)
  {
    var t := Apply(s, maxActive, a);
    var i :| 0 <= i < |s.closers| && s.closers[i] == Closer(id, true);
    if a.CloseRemove? {
      MarkedAfterRemoval(s.closers, a.k, Closer(id, true));
    } else {
      assert t.closers[i] == Closer(id, true);
    }
  }

  lemma StepKeepsStatuses(s: Sys, maxActive: int, a: Action)
    requires Statuses(s) && Enabled(s, a)
    ensures Statuses(Apply(s, maxActive, a))
  {
    var t := Apply(s, maxActive, a);
    forall id | id in t.registered && id in t.agents && t.agents[id] == Agent(Cancelled, Spawned)
      ensures Marked(t, id)
    {
      if a.CloseMark? && s.closers[a.k].id == id {
        assert t.closers[a.k] == Closer(id, true);
      } else {
        assert id in s.registered && s.agents[id] == Agent(Cancelled, Spawned);
        MarksKept(s, maxActive, a, id);
      }
    }
  }

  /** No action but a successful start makes an agent count that did not count before. */
  lemma OnlyStartsCount(s: Sys, maxActive: int, a: Action)
    requires Statuses(s) && Enabled(s, a)
    ensures var t := Apply(s, maxActive, a);
      Counted(t) <= if a.StartDecide? then Counted(s) + {s.lock.id} else Counted(s)
  {
    hide Statuses, Consistent, IsOver;
    var t := Apply(s, maxActive, a);
    forall id | id in Counted(t) && !(a.StartDecide? && id == s.lock.id) ensures id in Counted(s) {
      ActiveBefore(s, maxActive, a, id);
      if Marked(s, id) {
        MarksKept(s, maxActive, a, id);
      }
    }
  }

  lemma ActiveBefore(s: Sys, maxActive: int, a: Action, id: nat)
    requires Statuses(s) && Enabled(s, a) && !(a.StartDecide? && id == s.lock.id)
    requires var t := Apply(s, maxActive, a);
      id in t.registered && id in t.agents && IsActive(t.agents[id]) && !Marked(t, id)
    ensures id in s.registered && id in s.agents && IsActive(s.agents[id])
    ensures a.CloseRemove? ==> s.closers[a.k].id != id
  {
    assert Consistent(s.agents[id]);
    if a == RunBegin(id) && s.agents[id] == Agent(Cancelled, Spawned) {
      MarksKept(s, maxActive, a, id);
    }
  }

  lemma FewerCounted(s: Sys, t: Sys, maxActive: int)
    requires Breadth(s, maxActive) && Counted(t) <= Counted(s)
    requires t.lock.Counting? ==> t.lock == s.lock && t.registered == s.registered && t.agents.Keys == s.agents.Keys
    ensures Breadth(t, maxActive)
  {
    hide Counted;
    SubsetSize(Counted(t), Counted(s));
    if t.lock.Counting? {
      SubsetSize(Counted(t) - t.lock.todo, Counted(s) - s.lock.todo);
    }
  }

  lemma CountingBegins(s: Sys, maxActive: int, id: nat)
    requires maxActive > 0 && Breadth(s, maxActive) && Enabled(s, StartLock(id))
    ensures Breadth(Apply(s, maxActive, StartLock(id)), maxActive)
  {
    var t := Apply(s, maxActive, StartLock(id));
    SameAgentsCount(s, t);
    assert Counted(t) - t.registered == {};
  }

  lemma SameAgentsCount(s: Sys, t: Sys)
    requires t.agents == s.agents && t.registered == s.registered && t.closers == s.closers
    ensures Counted(t) == Counted(s)
  {
    assert forall id :: Marked(t, id) <==> Marked(s, id);
  }

  lemma OneCounted(s: Sys, maxActive: int, id: nat)
    requires Breadth(s, maxActive) && Enabled(s, CountOne(id))
    ensures Breadth(Apply(s, maxActive, CountOne(id)), maxActive)
  {
    var t := Apply(s, maxActive, CountOne(id));
    SameAgentsCount(s, t);
    var before, after := Counted(s) - s.lock.todo, Counted(s) - t.lock.todo;
    if IsActive(s.agents[id]) {
      SubsetSize(after, before + {id});
    } else {
      SubsetSize(after, before);
    }
  }

  /** The count is at least the number of counting agents when it is compared with the limit. */
  lemma CountingEnds(s: Sys, maxActive: int)
    requires maxActive > 0 && Statuses(s) && Breadth(s, maxActive) && Enabled(s, StartDecide)
    ensures Breadth(Apply(s, maxActive, StartDecide), maxActive)
  {
    hide Statuses;
    var t := Apply(s, maxActive, StartDecide);
    assert Counted(s) - {} == Counted(s);
    if s.lock.count >= maxActive {
      SameAgentsCount(s, t);
    } else {
      OnlyStartsCount(s, maxActive, StartDecide);
      SubsetSize(Counted(t), Counted(s) + {s.lock.id});
    }
  }

  lemma StepKeepsBreadth(s: Sys, maxActive: int, a: Action)
    requires maxActive > 0 && Statuses(s) && Breadth(s, maxActive) && Enabled(s, a)
    ensures Breadth(Apply(s, maxActive, a), maxActive)
  {
    hide Statuses, Breadth, Counted;
    if a.StartLock? {
      CountingBegins(s, maxActive, a.id);
    } else if a.CountOne? {
      OneCounted(s, maxActive, a.id);
    } else if a.StartDecide? {
      CountingEnds(s, maxActive);
    } else {
      OnlyStartsCount(s, maxActive, a);
      if Apply(s, maxActive, a).lock.Counting? {
        LockedStepKeepsRegistry(s, maxActive, a);
      }
      FewerCounted(s, Apply(s, maxActive, a), maxActive);
    }
  }

  /** While a start counts, nothing else changes the registry or the lock. */
  lemma LockedStepKeepsRegistry(s: Sys, maxActive: int, a: Action)
    requires Enabled(s, a) && !a.StartLock? && !a.CountOne? && !a.StartDecide?
    requires Apply(s, maxActive, a).lock.Counting?
    ensures var t := Apply(s, maxActive, a);
      t.lock == s.lock && t.registered == s.registered && t.agents.Keys == s.agents.Keys
  {
  }

  lemma {:induction false} RunKeepsInv(s: Sys, maxActive: int, run: seq<Action>, t: Sys)
    requires Inv(s, maxActive) && Run(s, maxActive, run, t)
    ensures Inv(t, maxActive)
    decreases |run|
  {
    if run != [] {
      hide Apply, Statuses, Breadth;
      StepKeepsStatuses(s, maxActive, run[0]);
      if maxActive > 0 {
        StepKeepsBreadth(s, maxActive, run[0]);
      }
      RunKeepsInv(Apply(s, maxActive, run[0]), maxActive, run[1..], t);
    }
  }

  // ---------------------------------------------------------------------------------------------
  // The theorems

  /** In every interleaving, the registered Pending or Running agents that no CloseAgent call has
      already marked never exceed the breadth limit, although a start counts them one by one. */
  lemma BreadthLimitHolds(maxActive: int, run: seq<Action>, t: Sys)
    requires maxActive > 0 && Run(Initial(), maxActive, run, t)
    ensures |Counted(t)| <= maxActive
    ensures forall id :: id in t.registered && id in t.agents && IsActive(t.agents[id]) && id !in Counted(t) ==>
        Marked(t, id)
  {
    assert Counted(Initial()) == {};
    RunKeepsInv(Initial(), maxActive, run, t);
  }

  /** A closed done channel means Completed or Failed. */
  lemma DoneIsFinal(maxActive: int, run: seq<Action>, t: Sys, id: nat)
    requires Run(Initial(), maxActive, run, t) && AtPhase(t, id, {Exited})
    ensures t.agents[id].status in {Completed, Failed}
  {
    assert Counted(Initial()) == {};
    RunKeepsInv(Initial(), maxActive, run, t);
    assert Consistent(t.agents[id]);
  }

  /** And from then on, whatever the threads do, neither the status nor the channel changes again. */
  lemma DoneStays(maxActive: int, run: seq<Action>, s: Sys, more: seq<Action>, t: Sys, id: nat)
    requires Run(Initial(), maxActive, run, s) && AtPhase(s, id, {Exited}) && Run(s, maxActive, more, t)
    ensures AtPhase(t, id, {Exited}) && t.agents[id] == s.agents[id]
    ensures t.agents[id].status in {Completed, Failed}
  {
    assert Counted(Initial()) == {};
    RunKeepsInv(Initial(), maxActive, run, s);
    ExitedStaysAlong(maxActive, s, more, t, id);
    DoneIsFinal(maxActive, run, s, id);
  }

  lemma {:induction false} ExitedStaysAlong(maxActive: int, s: Sys, more: seq<Action>, t: Sys, id: nat)
    requires Inv(s, maxActive) && AtPhase(s, id, {Exited}) && Run(s, maxActive, more, t)
    ensures AtPhase(t, id, {Exited}) && t.agents[id] == s.agents[id]
    decreases |more|
  {
    if more != [] {
      RunKeepsInv(s, maxActive, [more[0]], Apply(s, maxActive, more[0]));
      ExitedStays(maxActive, s, more[0], id);
      ExitedStaysAlong(maxActive, Apply(s, maxActive, more[0]), more[1..], t, id);
    }
  }

  lemma ExitedStays(maxActive: int, s: Sys, a: Action, id: nat)
    requires Statuses(s) && AtPhase(s, id, {Exited}) && Enabled(s, a)
    ensures AtPhase(Apply(s, maxActive, a), id, {Exited}) && Apply(s, maxActive, a).agents[id] == s.agents[id]
  {
    assert Consistent(s.agents[id]);
  }
}
