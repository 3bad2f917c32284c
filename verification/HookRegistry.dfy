/** The lifecycle hook registry and its executor. Every event's list is the stable sort, by descending
    priority, of the event's surviving registrations in the order they were added. */
module HookRegistry {
  import opened Collections
  import opened StableSort

  datatype HookState = Unset | Active | Paused | Inactive | Dead

  /** A registration. `serial` is its identity: the number of registrations before it. */
  datatype Hook = Hook(
    serial: nat, id: string, event: string, priority: int, state: HookState, createdAt: int,
    execCount: nat, errorCount: nat, permanent: bool, maxLifetime: int)

  /** Higher priorities first. */
  function Rank(h: Hook): int {
    -h.priority
  }

  /** What a filtering operation keeps. */
  datatype Keep =
    | OnlyEvent(event: string) | NotEvent(event: string) | NotID(id: string)
    | NotExpired(now: int) | NotDead | OnlyActive

  predicate Keeps(k: Keep, h: Hook) {
    match k
    case OnlyEvent(event) => h.event == event
    case NotEvent(event) => h.event != event
    case NotID(id) => h.id != id
    case NotExpired(now) => h.permanent || !(h.maxLifetime > 0 && now - h.createdAt > h.maxLifetime)
    case NotDead => !(h.state.Dead? && !h.permanent)
    case OnlyActive => h.state.Active?
  }

  function Kept(s: seq<Hook>, k: Keep): seq<Hook> {
    if s == [] then []
    else
      var n := |s| - 1;
      if Keeps(k, s[n]) then Kept(s[..n], k) + [s[n]] else Kept(s[..n], k)
  }

  /** What an update by ID changes. */
  datatype Change = ToState(state: HookState) | RecordRun(failed: bool)

  function Changed(h: Hook, c: Change): Hook {
    match c
    case ToState(state) => h.(state := state)
    case RecordRun(failed) => h.(execCount := h.execCount + 1, errorCount := if failed then h.errorCount + 1 else 0)
  }

  function ChangedIf(h: Hook, serial: nat, c: Change): Hook {
    if h.serial == serial then Changed(h, c) else h
  }

  /** The registration with that serial number is changed, the others are not. */
  function Updated(s: seq<Hook>, serial: nat, c: Change): (r: seq<Hook>)
    ensures |r| == |s| && forall i :: 0 <= i < |s| ==> r[i] == ChangedIf(s[i], serial, c)
  {
    seq(|s|, i requires 0 <= i < |s| => ChangedIf(s[i], serial, c))
  }

  /** The list that the registry should hold for an event. */
  function ListFor(log: seq<Hook>, event: string): seq<Hook> {
    SortBy(Kept(log, OnlyEvent(event)), Rank)
  }

  /** Add's defaults. */
  function Registered(h: Hook, serial: nat, now: int): Hook {
    h.(serial := serial,
       state := if h.state.Unset? then Active else h.state,
       createdAt := if h.createdAt == 0 then now else h.createdAt)
  }

  // ---------------------------------------------------------------------------------------------
  // Sorting commutes with adding, filtering and updating

  lemma KeptSnoc(s: seq<Hook>, k: Keep, h: Hook)
    ensures Kept(s + [h], k) == if Keeps(k, h) then Kept(s, k) + [h] else Kept(s, k)
  {
    assert (s + [h])[..|s|] == s;
  }

  lemma {:induction false} KeptMembers(s: seq<Hook>, k: Keep, h: Hook)
    ensures h in Kept(s, k) <==> h in s && Keeps(k, h)
  {
    if s != [] {
      KeptMembers(s[..|s| - 1], k, h);
    }
  }

  lemma {:induction false} KeptCommutes(s: seq<Hook>, k: Keep, l: Keep)
    ensures Kept(Kept(s, k), l) == Kept(Kept(s, l), k)
  {
    if s != [] {
      var rest, h := s[..|s| - 1], s[|s| - 1];
      KeptCommutes(rest, k, l);
      KeptSnoc(Kept(rest, k), l, h);
      KeptSnoc(Kept(rest, l), k, h);
    }
  }

  lemma {:induction false} KeptAll(s: seq<Hook>, k: Keep)
    requires forall i :: 0 <= i < |s| ==> Keeps(k, s[i])
    ensures Kept(s, k) == s
  {
    if s != [] {
      KeptAll(s[..|s| - 1], k);
      assert s == s[..|s| - 1] + [s[|s| - 1]];
    }
  }

  lemma {:induction false} KeptNone(s: seq<Hook>, k: Keep)
    requires forall i :: 0 <= i < |s| ==> !Keeps(k, s[i])
    ensures Kept(s, k) == []
  {
    if s != [] {
      KeptNone(s[..|s| - 1], k);
    }
  }

  lemma {:induction false} InsertLast(s: seq<Hook>, h: Hook)
    requires forall i :: 0 <= i < |s| ==> Rank(s[i]) <= Rank(h)
    ensures Insert(s, Rank, h) == s + [h]
  {
  }

  lemma KeptInsertLast(s: seq<Hook>, h: Hook, k: Keep)
    requires forall i :: 0 <= i < |s| ==> Rank(s[i]) <= Rank(h)
    ensures Kept(s + [h], k) == if Keeps(k, h) then Insert(Kept(s, k), Rank, h) else Kept(s, k)
  {
    KeptSnoc(s, k, h);
    forall i | 0 <= i < |Kept(s, k)| ensures Rank(Kept(s, k)[i]) <= Rank(h) {
      KeptMembers(s, k, Kept(s, k)[i]);
    }
    InsertLast(Kept(s, k), h);
  }

  lemma InsertBefore(s: seq<Hook>, last: Hook, h: Hook)
    requires Rank(last) > Rank(h)
    ensures Insert(s + [last], Rank, h) == Insert(s, Rank, h) + [last]
  {
    assert (s + [last])[..|s|] == s;
  }

  lemma {:induction false} KeptInsert(s: seq<Hook>, h: Hook, k: Keep)
    requires Sorted(s, Rank)
    ensures Kept(Insert(s, Rank, h), k) == if Keeps(k, h) then Insert(Kept(s, k), Rank, h) else Kept(s, k)
  {
    if s == [] || Rank(s[|s| - 1]) <= Rank(h) {
      KeptInsertLast(s, h, k);
    } else {
      hide Keeps;
      var rest, last := s[..|s| - 1], s[|s| - 1];
      KeptInsert(rest, h, k);
      KeptSnoc(Insert(rest, Rank, h), k, last);
      InsertBefore(Kept(rest, k), last, h);
    }
  }

  lemma {:induction false} SortKept(s: seq<Hook>, k: Keep)
    ensures SortBy(Kept(s, k), Rank) == Kept(SortBy(s, Rank), k)
  {
    if s != [] {
      var rest, h := s[..|s| - 1], s[|s| - 1];
      SortKept(rest, k);
      SortBySorted(rest, Rank);
      KeptInsert(SortBy(rest, Rank), h, k);
      if Keeps(k, h) {
        assert (Kept(rest, k) + [h])[..|Kept(rest, k)|] == Kept(rest, k);
      }
    }
  }

  lemma ChangedKeepsRank(h: Hook, serial: nat, c: Change)
    ensures Rank(ChangedIf(h, serial, c)) == Rank(h)
  {
  }

  lemma {:induction false} UpdatedInsert(s: seq<Hook>, h: Hook, serial: nat, c: Change)
    ensures Updated(Insert(s, Rank, h), serial, c) == Insert(Updated(s, serial, c), Rank, ChangedIf(h, serial, c))
  {
    ChangedKeepsRank(h, serial, c);
    if s != [] {
      ChangedKeepsRank(s[|s| - 1], serial, c);
    }
    hide ChangedIf;
    if s != [] && Rank(s[|s| - 1]) > Rank(h) {
      var n := |s| - 1;
      UpdatedInsert(s[..n], h, serial, c);
      assert Updated(s, serial, c)[..n] == Updated(s[..n], serial, c);
      assert Updated(Insert(s[..n], Rank, h) + [s[n]], serial, c)
          == Updated(Insert(s[..n], Rank, h), serial, c) + [ChangedIf(s[n], serial, c)];
    }
  }

  lemma {:induction false} SortUpdated(s: seq<Hook>, serial: nat, c: Change)
    ensures SortBy(Updated(s, serial, c), Rank) == Updated(SortBy(s, Rank), serial, c)
  {
    if s != [] {
      var n := |s| - 1;
      SortUpdated(s[..n], serial, c);
      assert Updated(s, serial, c)[..n] == Updated(s[..n], serial, c);
      UpdatedInsert(SortBy(s[..n], Rank), s[n], serial, c);
    }
  }

  lemma {:induction false} UpdatedKept(s: seq<Hook>, serial: nat, c: Change, event: string)
    ensures Kept(Updated(s, serial, c), OnlyEvent(event)) == Updated(Kept(s, OnlyEvent(event)), serial, c)
  {
    if s != [] {
      var n := |s| - 1;
      UpdatedKept(s[..n], serial, c, event);
      assert Updated(s, serial, c)[..n] == Updated(s[..n], serial, c);
    }
  }

  lemma ListAfterAdd(log: seq<Hook>, h: Hook, event: string)
    ensures ListFor(log + [h], event)
      == if h.event == event then SortBy(ListFor(log, event) + [h], Rank) else ListFor(log, event)
  {
    KeptSnoc(log, OnlyEvent(event), h);
    if h.event == event {
      var mine, sorted := Kept(log, OnlyEvent(event)), ListFor(log, event);
      assert (mine + [h])[..|mine|] == mine;
      assert (sorted + [h])[..|sorted|] == sorted;
      SortBySorted(mine, Rank);
      SortedIsFixed(sorted, Rank);
    }
  }

  lemma ListsAfterAdd(log: seq<Hook>, h: Hook)
    ensures forall event ::
      ListFor(log + [h], event)
      == if h.event == event then SortBy(ListFor(log, event) + [h], Rank) else ListFor(log, event)
  {
    forall event
      ensures ListFor(log + [h], event)
        == if h.event == event then SortBy(ListFor(log, event) + [h], Rank) else ListFor(log, event)
    {
      ListAfterAdd(log, h, event);
    }
  }

  lemma ListAfterFilter(log: seq<Hook>, k: Keep, event: string)
    ensures ListFor(Kept(log, k), event) == Kept(ListFor(log, event), k)
  {
    KeptCommutes(log, k, OnlyEvent(event));
    SortKept(Kept(log, OnlyEvent(event)), k);
  }

  lemma ListAfterUpdate(log: seq<Hook>, serial: nat, c: Change, event: string)
    ensures ListFor(Updated(log, serial, c), event) == Updated(ListFor(log, event), serial, c)
  {
    UpdatedKept(log, serial, c, event);
    SortUpdated(Kept(log, OnlyEvent(event)), serial, c);
  }

  // ---------------------------------------------------------------------------------------------
  // The order of a list

  /** Serial numbers grow along the log and stay below `count`. */
  ghost predicate Numbered(log: seq<Hook>, count: nat) {
    && (forall i :: 0 <= i < |log| ==> log[i].serial < count)
    && (forall i, j :: 0 <= i < j < |log| ==> log[i].serial < log[j].serial)
  }

  /** Runs before: higher priority, or the same and registered earlier. */
  predicate Precedes(a: Hook, b: Hook) {
    a.priority > b.priority || (a.priority == b.priority && a.serial < b.serial)
  }

  ghost predicate InOrder(s: seq<Hook>) {
    forall i, j :: 0 <= i < j < |s| ==> Precedes(s[i], s[j])
  }

  lemma {:induction false} InsertInOrder(s: seq<Hook>, h: Hook)
    requires InOrder(s) && forall i :: 0 <= i < |s| ==> s[i].serial < h.serial
    ensures InOrder(Insert(s, Rank, h))
    ensures forall x :: x in Insert(s, Rank, h) <==> x in s || x == h
  {
    if s != [] && Rank(s[|s| - 1]) > Rank(h) {
      var rest, last := s[..|s| - 1], s[|s| - 1];
      InsertInOrder(rest, h);
      var r := Insert(rest, Rank, h);
      assert s == rest + [last];
      forall i | 0 <= i < |r| ensures Precedes(r[i], last) {
        assert r[i] in rest || r[i] == h;
      }
    }
  }

  lemma {:induction false} SortInOrder(s: seq<Hook>, count: nat)
    requires Numbered(s, count)
    ensures InOrder(SortBy(s, Rank)) && forall h :: h in SortBy(s, Rank) <==> h in s
  {
    if s != [] {
      var rest, h := s[..|s| - 1], s[|s| - 1];
      SortInOrder(rest, count);
      assert s == rest + [h];
      var sorted := SortBy(rest, Rank);
      forall i | 0 <= i < |sorted| ensures sorted[i].serial < h.serial {
        assert sorted[i] in rest;
      }
      InsertInOrder(sorted, h);
    }
  }

  lemma {:induction false} KeptNumbered(s: seq<Hook>, k: Keep, count: nat)
    requires Numbered(s, count)
    ensures Numbered(Kept(s, k), count)
  {
    if s != [] {
      var rest, h := s[..|s| - 1], s[|s| - 1];
      KeptNumbered(rest, k, count);
      forall i | 0 <= i < |Kept(rest, k)| ensures Kept(rest, k)[i].serial < h.serial {
        KeptMembers(rest, k, Kept(rest, k)[i]);
      }
    }
  }

  lemma {:induction false} KeptInOrder(s: seq<Hook>, k: Keep)
    requires InOrder(s)
    ensures InOrder(Kept(s, k))
  {
    if s != [] {
      var rest, h := s[..|s| - 1], s[|s| - 1];
      KeptInOrder(rest, k);
      forall i | 0 <= i < |Kept(rest, k)| ensures Precedes(Kept(rest, k)[i], h) {
        KeptMembers(rest, k, Kept(rest, k)[i]);
      }
    }
  }

  /** An event's list holds its survivors, by descending priority and then by age. */
  lemma ListIsOrdered(log: seq<Hook>, count: nat, event: string)
    requires Numbered(log, count)
    ensures InOrder(ListFor(log, event))
    ensures forall h :: h in ListFor(log, event) <==> h in log && h.event == event
    ensures StablySorts(Kept(log, OnlyEvent(event)), ListFor(log, event), Rank)
  {
    var mine := Kept(log, OnlyEvent(event));
    KeptNumbered(log, OnlyEvent(event), count);
    SortInOrder(mine, count);
    SortByIsStable(mine, Rank);
    forall h ensures h in mine <==> h in log && h.event == event {
      KeptMembers(log, OnlyEvent(event), h);
    }
  }

  // ---------------------------------------------------------------------------------------------
  // The registry

  class Registry {
    var hooks: map<string, seq<Hook>>
    var count: nat
    /** The surviving registrations, in the order they were added. */
    ghost var log: seq<Hook>

    function List(event: string): seq<Hook>
      reads this
    {
      if event in hooks then hooks[event] else []
    }

    ghost predicate Valid()
      reads this
    {
      && Numbered(log, count)
      && forall event :: List(event) == ListFor(log, event)
    }

    constructor ()
      ensures Valid() && log == []
    {
      hooks, count, log := map[], 0, [];
    }

    method Add(hook: Hook, now: int)
      requires Valid()
      modifies this
      ensures Valid() && log == old(log) + [Registered(hook, old(count), now)] && count == old(count) + 1
    {
      hide SortBy, ListFor;
      var h := hook.(serial := count);
      if h.state.Unset? {
        h := h.(state := Active);
      }
      if h.createdAt == 0 {
        h := h.(createdAt := now);
      }
      var list := List(h.event) + [h];
      hooks := hooks[h.event := SortBy(list, Rank)];
      ListsAfterAdd(log, h);
      count := count + 1;
      log := log + [h];
    }

    /** The loop over the events that Remove and the cleanups share. */
    method FilterEvents(k: Keep)
      requires Valid()
      modifies this
      ensures Valid() && log == Kept(old(log), k) && count == old(count)
    {
      hide ListFor, Kept;
      ghost var before := hooks;
      var todo := hooks.Keys;
      while todo != {}
        invariant todo <= hooks.Keys && hooks.Keys == before.Keys && count == old(count) && log == old(log)
        invariant forall event :: event in hooks ==>
            hooks[event] == if event in todo then before[event] else Kept(before[event], k)
        decreases |todo|
      {
        var event :| event in todo;
        var filtered := Filter(hooks[event], k);
        hooks := hooks[event := filtered];
        todo := todo - {event};
      }
      log := Kept(log, k);
      KeptNumbered(old(log), k, count);
      forall event ensures List(event) == ListFor(log, event) {
        ListAfterFilter(old(log), k, event);
        KeptNone([], k);
      }
    }

    static method Filter(hooks: seq<Hook>, k: Keep) returns (filtered: seq<Hook>)
      ensures filtered == Kept(hooks, k)
    {
      filtered := [];
      var i := 0;
      while i < |hooks|
        invariant 0 <= i <= |hooks| && filtered == Kept(hooks[..i], k)
      {
        assert hooks[..i + 1] == hooks[..i] + [hooks[i]];
        KeptSnoc(hooks[..i], k, hooks[i]);
        if Keeps(k, hooks[i]) {
          filtered := filtered + [hooks[i]];
        }
        i := i + 1;
      }
      assert hooks[..|hooks|] == hooks;
    }

    method Remove(id: string)
      requires Valid()
      modifies this
      ensures Valid() && log == Kept(old(log), NotID(id)) && count == old(count)
    {
      FilterEvents(NotID(id));
    }

    method CleanupExpiredHooks(now: int)
      requires Valid()
      modifies this
      ensures Valid() && log == Kept(old(log), NotExpired(now)) && count == old(count)
    {
      FilterEvents(NotExpired(now));
    }

    method CleanupDeadHooks()
      requires Valid()
      modifies this
      ensures Valid() && log == Kept(old(log), NotDead) && count == old(count)
    {
      FilterEvents(NotDead);
    }

    method Clear(event: string)
      requires Valid()
      modifies this
      ensures Valid() && log == (if event == "" then [] else Kept(old(log), NotEvent(event))) && count == old(count)
    {
      if event == "" {
        hooks, log := map[], [];
      } else {
        ghost var before := log;
        hooks := hooks[event := []];
        log := Kept(log, NotEvent(event));
        KeptNumbered(before, NotEvent(event), count);
        forall e ensures List(e) == ListFor(log, e) {
          ListAfterFilter(before, NotEvent(event), e);
          ListMembers(before, e);
          if e == event {
            KeptNone(ListFor(before, e), NotEvent(event));
          } else {
            KeptAll(ListFor(before, e), NotEvent(event));
          }
        }
      }
    }

    /** The search by ID that SetHookState and RecordHookExecution share: it changes the first hook
        with that ID in the list of whichever event it meets first. */
    method UpdateFirst(id: string, c: Change) returns (found: bool, ghost serial: nat)
      requires Valid()
      modifies this
      ensures Valid() && count == old(count)
      ensures found <==> exists h :: h in old(log) && h.id == id
      ensures log == if found then Updated(old(log), serial, c) else old(log)
      ensures found ==> FirstWithID(old(log), serial, id)
    {
      hide ListFor, Changed;
      found, serial := false, 0;
      var todo := hooks.Keys;
      while todo != {}
        invariant todo <= hooks.Keys && Valid() && log == old(log) && count == old(count) && hooks == old(hooks)
        invariant forall event :: event in hooks.Keys - todo ==> forall h :: h in hooks[event] ==> h.id != id
        decreases |todo|
      {
        var event :| event in todo;
        var list := hooks[event];
        assert list == ListFor(log, event);
        ListMembers(log, event);
        var i := 0;
        while i < |list|
          invariant 0 <= i <= |list| && forall j :: 0 <= j < i ==> list[j].id != id
        {
          if list[i].id == id {
            serial := list[i].serial;
            ghost var before := log;
            UpdateOne(log, count, event, i, c);
            hooks := hooks[event := list[i := Changed(list[i], c)]];
            log := Updated(log, serial, c);
            found := true;
            assert FirstAt(before, event, i, serial, id);
            assert list[i] in before;
            return;
          }
          i := i + 1;
        }
        todo := todo - {event};
      }
      forall h | h in log ensures h.id != id {
        ListMembers(log, h.event);
        assert h in List(h.event);
      }
    }

    method SetHookState(id: string, state: HookState) returns (found: bool, ghost serial: nat)
      requires Valid()
      modifies this
      ensures Valid() && count == old(count)
      ensures found <==> exists h :: h in old(log) && h.id == id
      ensures log == if found then Updated(old(log), serial, ToState(state)) else old(log)
      ensures found ==> FirstWithID(old(log), serial, id)
    {
      found, serial := UpdateFirst(id, ToState(state));
    }

    method RecordHookExecution(id: string, failed: bool) returns (found: bool, ghost serial: nat)
      requires Valid()
      modifies this
      ensures Valid() && count == old(count)
      ensures found <==> exists h :: h in old(log) && h.id == id
      ensures log == if found then Updated(old(log), serial, RecordRun(failed)) else old(log)
      ensures found ==> FirstWithID(old(log), serial, id)
    {
      found, serial := UpdateFirst(id, RecordRun(failed));
    }

    method GetActiveHooks(event: string) returns (active: seq<Hook>)
      requires Valid()
      ensures active == Kept(ListFor(log, event), OnlyActive)
    {
      active := Filter(List(event), OnlyActive);
    }
  }

  lemma ListMembers(log: seq<Hook>, event: string)
    ensures forall h :: h in ListFor(log, event) <==> h in log && h.event == event
  {
    var mine := Kept(log, OnlyEvent(event));
    forall h ensures h in ListFor(log, event) <==> h in log && h.event == event {
      SortMembers(mine, h);
      KeptMembers(log, OnlyEvent(event), h);
    }
  }

  lemma {:induction false} SortMembers(s: seq<Hook>, h: Hook)
    ensures h in SortBy(s, Rank) <==> h in s
  {
    if s != [] {
      SortMembers(s[..|s| - 1], h);
      InsertMembers(SortBy(s[..|s| - 1], Rank), s[|s| - 1], h);
    }
  }

  lemma {:induction false} InsertMembers(s: seq<Hook>, x: Hook, h: Hook)
    ensures h in Insert(s, Rank, x) <==> h in s || h == x
  {
    if s != [] && Rank(s[|s| - 1]) > Rank(x) {
      InsertMembers(s[..|s| - 1], x, h);
    }
  }

  /** Place i of an event's list is the first with that ID, and has that serial number. */
  ghost predicate FirstAt(log: seq<Hook>, event: string, i: nat, serial: nat, id: string) {
    var list := ListFor(log, event);
    && i < |list| && list[i].serial == serial && list[i].id == id
    && forall j :: 0 <= j < i ==> list[j].id != id
  }

  ghost predicate FirstWithID(log: seq<Hook>, serial: nat, id: string) {
    exists event, i :: FirstAt(log, event, i, serial, id)
  }

  /** Changing one place of one list changes that registration in the log. */
  lemma UpdateOne(log: seq<Hook>, count: nat, event: string, i: nat, c: Change)
    requires Numbered(log, count) && i < |ListFor(log, event)|
    ensures var list := ListFor(log, event);
      && Numbered(Updated(log, list[i].serial, c), count)
      && (forall e :: ListFor(Updated(log, list[i].serial, c), e)
           == if e == event then list[i := Changed(list[i], c)] else ListFor(log, e))
  {
    var serial := ListFor(log, event)[i].serial;
    forall e
      ensures ListFor(Updated(log, serial, c), e)
        == if e == event then ListFor(log, e)[i := Changed(ListFor(log, e)[i], c)] else ListFor(log, e)
    {
      ListAfterUpdate(log, serial, c, e);
      ListsUpdatedAt(log, count, event, i, c, e);
    }
  }

  lemma ListsUpdatedAt(log: seq<Hook>, count: nat, event: string, i: nat, c: Change, e: string)
    requires Numbered(log, count) && i < |ListFor(log, event)|
    ensures Updated(ListFor(log, e), ListFor(log, event)[i].serial, c)
      == if e == event then ListFor(log, e)[i := Changed(ListFor(log, e)[i], c)] else ListFor(log, e)
  {
    ListIsOrdered(log, count, e);
    ListIsOrdered(log, count, event);
    hide ListFor, StablySorts;
    var list, other := ListFor(log, event), ListFor(log, e);
    forall j | 0 <= j < |other| && !(e == event && j == i) ensures other[j].serial != list[i].serial {
      if other[j].serial == list[i].serial {
        assert other[j] in other && list[i] in list;
        OneSerialEach(log, count, other[j], list[i]);
      }
    }
  }

  lemma OneSerialEach(log: seq<Hook>, count: nat, a: Hook, b: Hook)
    requires Numbered(log, count) && a in log && b in log && a.serial == b.serial
    ensures a == b
  {
  }

  // ---------------------------------------------------------------------------------------------
  // The executor

  datatype HookAction = Continue | Unspecified | Stop | Deny | Modified | Retry

  datatype HandlerResult = HandlerError | NoResult | Result(action: HookAction)

  predicate Actionable(r: HandlerResult) {
    r.Result? && !r.action.Continue? && !r.action.Unspecified?
  }

  function FirstActionable(hooks: seq<Hook>, outcome: Hook -> HandlerResult): Option<Hook> {
    if hooks == [] then None
    else if Actionable(outcome(hooks[0])) then Some(hooks[0])
    else FirstActionable(hooks[1..], outcome)
  }

  /** A hook that would decide the answer for an event. */
  predicate Decides(log: seq<Hook>, event: string, outcome: Hook -> HandlerResult, h: Hook) {
    && h in log && h.event == event && h.state.Active?
    && outcome(h).Result? && outcome(h).action != Continue && outcome(h).action != Unspecified
  }

  lemma {:induction false} FirstInOrder(hooks: seq<Hook>, outcome: Hook -> HandlerResult)
    requires InOrder(hooks)
    ensures var f := FirstActionable(hooks, outcome);
      && (f.Some? ==> f.value in hooks && Actionable(outcome(f.value)))
      && (forall h :: h in hooks && Actionable(outcome(h)) ==> f.Some? && (h == f.value || Precedes(f.value, h)))
  {
    if hooks != [] {
      var rest := hooks[1..];
      RestInOrder(hooks);
      FirstInOrder(rest, outcome);
      forall h | h in hooks && h != hooks[0] ensures h in rest && Precedes(hooks[0], h) {
        var i :| 0 <= i < |hooks| && hooks[i] == h;
        assert rest[i - 1] == h;
      }
    }
  }

  lemma RestInOrder(hooks: seq<Hook>)
    requires InOrder(hooks) && hooks != []
    ensures InOrder(hooks[1..])
  {
    var rest := hooks[1..];
    forall i, j | 0 <= i < j < |rest| ensures Precedes(rest[i], rest[j]) {
      assert rest[i] == hooks[i + 1] && rest[j] == hooks[j + 1];
    }
  }

  /** The deciding hook is the one of highest priority, and among equals the oldest. */
  lemma FirstIsBest(log: seq<Hook>, count: nat, event: string, outcome: Hook -> HandlerResult)
    requires Numbered(log, count)
    ensures var f := FirstActionable(Kept(ListFor(log, event), OnlyActive), outcome);
      && (f.Some? ==> Decides(log, event, outcome, f.value))
      && (forall h :: Decides(log, event, outcome, h) ==> f.Some? && (h == f.value || Precedes(f.value, h)))
  {
    var active := Kept(ListFor(log, event), OnlyActive);
    ListIsOrdered(log, count, event);
    KeptInOrder(ListFor(log, event), OnlyActive);
    FirstInOrder(active, outcome);
    forall h ensures h in active <==> h in log && h.event == event && h.state.Active? {
      KeptMembers(ListFor(log, event), OnlyActive, h);
    }
  }

  predicate Ends(r: HandlerResult) {
    r.Result? && (r.action.Stop? || r.action.Deny?)
  }

  /** A failing hook counts as continue; a hook without result contributes nothing. */
  function Contribution(r: HandlerResult): seq<HookAction> {
    match r
    case HandlerError => [Continue]
    case NoResult => []
    case Result(action) => [action]
  }

  function Contributions(hooks: seq<Hook>, outcome: Hook -> HandlerResult): seq<HookAction> {
    if hooks == [] then []
    else Contributions(hooks[..|hooks| - 1], outcome) + Contribution(outcome(hooks[|hooks| - 1]))
  }

  lemma ContributionsGrow(hooks: seq<Hook>, i: nat, outcome: Hook -> HandlerResult)
    requires i <= |hooks|
    ensures Contributions([], outcome) == []
    ensures i < |hooks| ==>
        Contributions(hooks[..i + 1], outcome)
        == Contributions(hooks[..i], outcome) + Contribution(outcome(hooks[i]))
  {
    if i < |hooks| {
      assert hooks[..i + 1][..i] == hooks[..i];
    }
  }

  lemma {:induction false} NoneEnds(hooks: seq<Hook>, outcome: Hook -> HandlerResult)
    requires forall i :: 0 <= i < |hooks| ==> !Ends(outcome(hooks[i]))
    ensures forall x :: x in Contributions(hooks, outcome) ==> x != Stop && x != Deny
  {
    if hooks != [] {
      NoneEnds(hooks[..|hooks| - 1], outcome);
    }
  }

  /** When only the last hook that ran may have ended the event, its stop or deny is the last of the results
      and the only one there is: a failing hook never stops or denies. */
  lemma OnlyTheLastEnds(hooks: seq<Hook>, outcome: Hook -> HandlerResult)
    requires hooks != [] && forall i :: 0 <= i < |hooks| - 1 ==> !Ends(outcome(hooks[i]))
    ensures var results, last := Contributions(hooks, outcome), outcome(hooks[|hooks| - 1]);
      && (forall i :: 0 <= i < |results| && (results[i] == Stop || results[i] == Deny) ==> i == |results| - 1)
      && (Ends(last) <==> Stop in results || Deny in results)
      && (last.HandlerError? ==> results != [] && results[|results| - 1] == Continue)
  {
    var n := |hooks| - 1;
    NoneEnds(hooks[..n], outcome);
    var before, results := Contributions(hooks[..n], outcome), Contributions(hooks, outcome);
    assert forall i :: 0 <= i < |before| ==> before[i] in before && results[i] == before[i];
    assert Ends(outcome(hooks[n])) ==> results[|before|] in results;
  }

  class Executor {
    const registry: Registry
    var enabled: bool

    constructor (registry: Registry)
      ensures this.registry == registry && enabled
    {
      this.registry, enabled := registry, true;
    }

    /** The result of the deciding hook, if there is one. */
    method ExecuteFirst(event: string, outcome: Hook -> HandlerResult)
      returns (r: Option<HookAction>, ghost decider: Option<Hook>)
      requires registry.Valid()
      ensures !enabled ==> r == None && decider == None
      ensures decider.Some? ==> (
        Decides(registry.log, event, outcome, decider.value) && r == Some(outcome(decider.value).action))
      ensures r == None <==> !enabled || Kept(ListFor(registry.log, event), OnlyActive) == []
      ensures decider.None? && r != None ==> r == Some(Continue)
      ensures enabled ==> forall h :: Decides(registry.log, event, outcome, h) ==> (
        decider.Some? && (h == decider.value || Precedes(decider.value, h)))
    {
      if !enabled {
        return None, None;
      }
      var hooks := registry.GetActiveHooks(event);
      FirstIsBest(registry.log, registry.count, event, outcome);
      if |hooks| == 0 {
        return None, None;
      }
      var i := 0;
      while i < |hooks|
        invariant 0 <= i <= |hooks|
        invariant FirstActionable(hooks, outcome) == FirstActionable(hooks[i..], outcome)
      {
        assert hooks[i..][1..] == hooks[i + 1..];
        var result := outcome(hooks[i]);
        if result.Result? && !result.action.Continue? && !result.action.Unspecified? {
          return Some(result.action), Some(hooks[i]);
        }
        i := i + 1;
      }
      return Some(Continue), None;
    }

    /** Runs the active hooks in order, up to and including the first that stops or denies. */
    method Execute(event: string, outcome: Hook -> HandlerResult) returns (results: seq<HookAction>, ghost ran: nat)
      requires registry.Valid()
      ensures !enabled ==> results == [] && ran == 0
      ensures var active := Kept(ListFor(registry.log, event), OnlyActive);
        enabled ==>
          && ran <= |active| && results == Contributions(active[..ran], outcome)
          && (forall i :: 0 <= i < ran - 1 ==> !Ends(outcome(active[i])))
          && (ran < |active| ==> ran > 0 && Ends(outcome(active[ran - 1])))
    {
      hide ListFor, Kept, Contributions;
      results, ran := [], 0;
      ContributionsGrow([], 0, outcome);
      if !enabled {
        return;
      }
      var hooks := registry.GetActiveHooks(event);
      var i := 0;
      while i < |hooks|
        invariant 0 <= i <= |hooks| && ran == i && results == Contributions(hooks[..i], outcome)
        invariant forall j :: 0 <= j < i ==> !Ends(outcome(hooks[j]))
      {
        var result := outcome(hooks[i]);
        ContributionsGrow(hooks, i, outcome);
        ran := ran + 1;
        i := i + 1;
        if result.HandlerError? {
          results := results + [Continue];
          continue;
        }
        if result.Result? {
          results := results + [result.action];
        }
        if Ends(result) {
          return;
        }
      }
    }
  }

  // ---------------------------------------------------------------------------------------------
  // Any sequence of operations

  datatype Operation =
    | AddHook(hook: Hook, now: int)
    | RemoveID(id: string)
    | ClearEvent(event: string)
    | ChangeOne(serial: nat, change: Change)
    | DropExpired(now: int)
    | DropDead

  function Performed(log: seq<Hook>, count: nat, op: Operation): (seq<Hook>, nat) {
    match op
    case AddHook(hook, now) => (log + [Registered(hook, count, now)], count + 1)
    case RemoveID(id) => (Kept(log, NotID(id)), count)
    case ClearEvent(event) => (if event == "" then [] else Kept(log, NotEvent(event)), count)
    case ChangeOne(serial, change) => (Updated(log, serial, change), count)
    case DropExpired(now) => (Kept(log, NotExpired(now)), count)
    case DropDead => (Kept(log, NotDead), count)
  }

  function After(ops: seq<Operation>): (seq<Hook>, nat) {
    if ops == [] then ([], 0)
    else
      var (log, count) := After(ops[..|ops| - 1]);
      Performed(log, count, ops[|ops| - 1])
  }

  /** After any operations, every event's list, which is what the class keeps, is ordered by
      descending priority and, among equals, by registration, and holds exactly the survivors. */
  lemma {:induction false} ListsAreOrderedAfter(ops: seq<Operation>, event: string)
    ensures var (log, count) := After(ops);
      && Numbered(log, count)
      && InOrder(ListFor(log, event))
      && StablySorts(Kept(log, OnlyEvent(event)), ListFor(log, event), Rank)
      && forall h :: h in ListFor(log, event) <==> h in log && h.event == event
  {
    var (log, count) := After(ops);
    if ops != [] {
      ListsAreOrderedAfter(ops[..|ops| - 1], event);
      var (before, n) := After(ops[..|ops| - 1]);
      PerformedNumbered(before, n, ops[|ops| - 1]);
    }
    ListIsOrdered(log, count, event);
  }

  lemma PerformedNumbered(log: seq<Hook>, count: nat, op: Operation)
    requires Numbered(log, count)
    ensures var (log', count') := Performed(log, count, op); Numbered(log', count')
  {
    match op
    case RemoveID(id) => KeptNumbered(log, NotID(id), count);
    case ClearEvent(event) => KeptNumbered(log, NotEvent(event), count);
    case DropExpired(now) => KeptNumbered(log, NotExpired(now), count);
    case DropDead => KeptNumbered(log, NotDead, count);
    case _ =>
  }

  // ---------------------------------------------------------------------------------------------
  // The life of one registration

  function Adds(ops: seq<Operation>): nat {
    if ops == [] then 0 else Adds(ops[..|ops| - 1]) + if ops[|ops| - 1].AddHook? then 1 else 0
  }

  /** What an operation makes of a registration that is there; permanent ones are spared by the cleanups. */
  function Lives(h: Hook, op: Operation): Option<Hook> {
    match op
    case AddHook(_, _) => Some(h)
    case RemoveID(id) => if h.id == id then None else Some(h)
    case ClearEvent(event) => if event == "" || h.event == event then None else Some(h)
    case ChangeOne(serial, ToState(state)) => Some(if serial == h.serial then h.(state := state) else h)
    case ChangeOne(serial, RecordRun(failed)) =>
      if serial != h.serial then Some(h)
      else if failed then Some(h.(execCount := h.execCount + 1, errorCount := h.errorCount + 1))
      else Some(h.(execCount := h.execCount + 1, errorCount := 0))
    case DropExpired(now) =>
      if !h.permanent && h.maxLifetime > 0 && h.createdAt + h.maxLifetime < now then None else Some(h)
    case DropDead => if !h.permanent && h.state == Dead then None else Some(h)
  }

  /** A new registration: active and created now, unless it says otherwise. */
  predicate Born(h: Hook, hook: Hook, now: int) {
    && h.state == (if hook.state == Unset then Active else hook.state)
    && h.createdAt == (if hook.createdAt == 0 then now else hook.createdAt)
    && h == hook.(serial := h.serial, state := h.state, createdAt := h.createdAt)
  }

  /** What has become of the k-th registration, counted from zero, told from it alone. */
  function LifeOf(ops: seq<Operation>, k: nat): Option<Hook> {
    if ops == [] then None
    else
      var before, op := ops[..|ops| - 1], ops[|ops| - 1];
      if op.AddHook? && Adds(before) == k then
        Some(op.hook.(
          serial := k,
          state := if op.hook.state == Unset then Active else op.hook.state,
          createdAt := if op.hook.createdAt == 0 then op.now else op.hook.createdAt))
      else if LifeOf(before, k) == None then None
      else Lives(LifeOf(before, k).value, op)
  }

  lemma {:induction false} UpdatedMembers(s: seq<Hook>, serial: nat, c: Change, h: Hook)
    ensures h in Updated(s, serial, c) <==> exists g :: g in s && ChangedIf(g, serial, c) == h
  {
    var r := Updated(s, serial, c);
    if h in r {
      var i :| 0 <= i < |r| && r[i] == h;
      assert s[i] in s && ChangedIf(s[i], serial, c) == h;
    }
    if g :| g in s && ChangedIf(g, serial, c) == h {
      var i :| 0 <= i < |s| && s[i] == g;
      assert r[i] == h;
    }
  }

  /** The hook g lives on as h. */
  predicate BecomesBy(g: Hook, op: Operation, h: Hook) {
    Lives(g, op) == Some(h)
  }

  lemma OneOperation(log: seq<Hook>, count: nat, op: Operation, h: Hook)
    requires Numbered(log, count)
    ensures var (log', count') := Performed(log, count, op);
      && count' == count + (if op.AddHook? then 1 else 0)
      && (h in log' <==>
            || (op.AddHook? && h.serial == count && Born(h, op.hook, op.now))
            || exists g :: g in log && g.serial == h.serial && BecomesBy(g, op, h))
  {
    match op
    case AddHook(hook, now) =>
      assert h in log ==> BecomesBy(h, op, h);
    case RemoveID(id) =>
      KeptMembers(log, NotID(id), h);
      assert h in Kept(log, NotID(id)) ==> BecomesBy(h, op, h);
    case ClearEvent(event) =>
      KeptMembers(log, NotEvent(event), h);
      assert event != "" && h in Kept(log, NotEvent(event)) ==> BecomesBy(h, op, h);
    case ChangeOne(serial, change) =>
      UpdatedMembers(log, serial, change, h);
      assert forall g :: BecomesBy(g, op, h) <==> ChangedIf(g, serial, change) == h;
    case DropExpired(now) =>
      KeptMembers(log, NotExpired(now), h);
      assert h in Kept(log, NotExpired(now)) ==> BecomesBy(h, op, h);
    case DropDead =>
      KeptMembers(log, NotDead, h);
      assert h in Kept(log, NotDead) ==> BecomesBy(h, op, h);
  }

  lemma LifeGoesOn(ops: seq<Operation>, h: Hook)
    requires ops != []
    ensures var before, op := ops[..|ops| - 1], ops[|ops| - 1];
      LifeOf(ops, h.serial) == Some(h) <==>
        || (op.AddHook? && h.serial == Adds(before) && Born(h, op.hook, op.now))
        || (!(op.AddHook? && h.serial == Adds(before))
            && LifeOf(before, h.serial).Some? && BecomesBy(LifeOf(before, h.serial).value, op, h))
  {
  }

  /** After any operations the registry holds exactly the registrations whose own lives are not over, in the
      state in which their own lives left them: they do not interfere. */
  lemma {:induction false} RegistrationsLiveApart(ops: seq<Operation>)
    ensures After(ops).1 == Adds(ops)
    ensures forall h :: h in After(ops).0 <==> LifeOf(ops, h.serial) == Some(h)
    ensures forall k: nat :: LifeOf(ops, k).Some? ==> LifeOf(ops, k).value.serial == k < Adds(ops)
  {
    if ops != [] {
      var n := |ops| - 1;
      var (log, count) := After(ops[..n]);
      RegistrationsLiveApart(ops[..n]);
      ListsAreOrderedAfter(ops[..n], "");
      hide Performed, Lives, Numbered;
      forall h ensures h in After(ops).0 <==> LifeOf(ops, h.serial) == Some(h) {
        OneOperation(log, count, ops[n], h);
        LifeGoesOn(ops, h);
        assert forall g :: g in log && g.serial == h.serial <==>
          LifeOf(ops[..n], h.serial) == Some(g) && g.serial == h.serial;
        hide After, LifeOf;
      }
      forall k: nat ensures LifeOf(ops, k).Some? ==> LifeOf(ops, k).value.serial == k < Adds(ops) {
        if LifeOf(ops[..n], k).Some? {
          LivesKeepsSerial(LifeOf(ops[..n], k).value, ops[n]);
        }
      }
      OneOperation(log, count, ops[n], Hook(0, "", "", 0, Unset, 0, 0, 0, false, 0));
    }
  }

  lemma LivesKeepsSerial(h: Hook, op: Operation)
    ensures Lives(h, op).Some? ==> Lives(h, op).value.serial == h.serial
    ensures h.permanent ==> Lives(h, op).Some? || op.RemoveID? || op.ClearEvent?
  {
  }

  /** A permanent registration is there until it is removed by its ID or its event is cleared. */
  lemma PermanentStays(ops: seq<Operation>, op: Operation, k: nat)
    requires LifeOf(ops, k).Some? && LifeOf(ops, k).value.permanent && LifeOf(ops + [op], k) == None
    ensures op == RemoveID(LifeOf(ops, k).value.id) || op == ClearEvent("")
         || op == ClearEvent(LifeOf(ops, k).value.event)
  {
    assert (ops + [op])[..|ops|] == ops;
    RegistrationsLiveApart(ops);
  }
}
