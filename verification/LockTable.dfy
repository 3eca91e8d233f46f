/** The lazily pruned table of per-user locks, as a protocol over interleaved tasks.

    A task enters by looking its user's lock up (creating and pruning as needed) and then either
    takes the lock or queues on it, in one event-loop step. Releasing unlocks and wakes the first
    waiter, which becomes the holder only when it resumes: until then the lock reads as unlocked. */
module LockTable {
  import opened Transcript
  import opened Subsequence

  datatype Entry = Entry(user: int, lock: nat)

  function Find(entries: seq<Entry>, user: int): Option<nat> {
    if entries == [] then None
    else if entries[0].user == user then Some(entries[0].lock)
    else Find(entries[1..], user)
  }

  /** The users whose lock is not in `locked`, in table order. */
  function Stale(entries: seq<Entry>, locked: set<nat>): seq<int> {
    if entries == [] then []
    else (if entries[0].lock in locked then [] else [entries[0].user]) + Stale(entries[1..], locked)
  }

  function Without(entries: seq<Entry>, gone: set<int>): seq<Entry> {
    if entries == [] then []
    else (if entries[0].user in gone then [] else [entries[0]]) + Without(entries[1..], gone)
  }

  function Elements(s: seq<int>): set<int> {
    set x | x in s
  }

  /** The table after a lookup, before pruning. */
  function WithEntry(entries: seq<Entry>, user: int, newLock: nat): seq<Entry> {
    if Find(entries, user).Some? then entries else entries + [Entry(user, newLock)]
  }

  /** What the code prunes: past the cap, the first half of the unlocked entries. */
  function CodePrune(entries: seq<Entry>, locked: set<nat>, cap: nat): set<int> {
    var stale := Stale(entries, locked);
    if |entries| > cap then Elements(stale[..|stale| / 2]) else {}
  }

  class UserLocks {
    const cap: nat
    var entries: seq<Entry>
    var nextLock: nat

    constructor (cap: nat)
      ensures this.cap == cap && entries == [] && nextLock == 0
    {
      this.cap := cap;
      entries, nextLock := [], 0;
    }

    /** `_get_lock`; `locked` are the locks whose `locked()` is true at the moment of the call. */
    method GetLock(user: int, locked: set<nat>) returns (lock: nat)
      modifies this
      ensures var found := Find(old(entries), user);
        && lock == (if found.Some? then found.value else old(nextLock))
        && nextLock == old(nextLock) + (if found.Some? then 0 else 1)
      ensures var table := WithEntry(old(entries), user, old(nextLock));
        entries == Without(table, CodePrune(table, locked, cap))
    {
      var found := Find(entries, user);
      if found.Some? {
        lock := found.value;
      } else {
        lock := nextLock;
        nextLock := nextLock + 1;
        entries := entries + [Entry(user, lock)];
      }
      WithoutNone(entries);
      if |entries| > cap {
        var stale := Stale(entries, locked);
        DeleteAll(stale[..|stale| / 2]);
      }
    }

    /** Delete the given keys one by one. */
    method DeleteAll(doomed: seq<int>)
      modifies this`entries
      ensures entries == Without(old(entries), Elements(doomed))
    {
      ghost var table := entries;
      var i := 0;
      WithoutNone(entries);
      assert Elements(doomed[..0]) == {};
      while i < |doomed|
        invariant 0 <= i <= |doomed|
        invariant entries == Without(table, Elements(doomed[..i]))
      {
        WithoutTwice(table, Elements(doomed[..i]), {doomed[i]});
        assert doomed[..i + 1] == doomed[..i] + [doomed[i]];
        assert Elements(doomed[..i + 1]) == Elements(doomed[..i]) + {doomed[i]};
        entries := Without(entries, {doomed[i]});
        i := i + 1;
      }
      assert doomed[..i] == doomed;
    }
  }

  lemma {:induction false} WithoutNone(entries: seq<Entry>)
    ensures Without(entries, {}) == entries
  {
    if entries != [] { WithoutNone(entries[1..]); }
  }

  lemma {:induction false} WithoutTwice(entries: seq<Entry>, a: set<int>, b: set<int>)
    ensures Without(Without(entries, a), b) == Without(entries, a + b)
  {
    if entries != [] {
      var rest := Without(entries[1..], a);
      WithoutTwice(entries[1..], a, b);
      assert Without(entries, a) == if entries[0].user in a then rest else [entries[0]] + rest;
      assert ([entries[0]] + rest)[1..] == rest;
    }
  }

  // ----- what a lookup deletes -----

  lemma {:induction false} StaleOfConcat(a: seq<Entry>, b: seq<Entry>, locked: set<nat>)
    ensures Stale(a + b, locked) == Stale(a, locked) + Stale(b, locked)
  {
    if a == [] {
      assert a + b == b;
    } else {
      assert (a + b)[0] == a[0] && (a + b)[1..] == a[1..] + b;
      StaleOfConcat(a[1..], b, locked);
    }
  }

  /** The unlocked entries among the first `n`. */
  ghost function UnlockedAmong(entries: seq<Entry>, locked: set<nat>, n: nat): set<nat> {
    set j: nat | j < n && j < |entries| && entries[j].lock !in locked
  }

  predicate DistinctUsers(entries: seq<Entry>) {
    forall i, j :: 0 <= i < j < |entries| ==> entries[i].user != entries[j].user
  }

  lemma UnlockedMore(front: seq<Entry>, last: Entry, locked: set<nat>)
    ensures forall i: nat :: i <= |front| ==>
      UnlockedAmong(front + [last], locked, i) == UnlockedAmong(front, locked, i)
    ensures |UnlockedAmong(front + [last], locked, |front| + 1)|
         == |UnlockedAmong(front, locked, |front|)| + if last.lock in locked then 0 else 1
  {
    var all, n := front + [last], |front|;
    forall i: nat | i <= n ensures UnlockedAmong(all, locked, i) == UnlockedAmong(front, locked, i) {
      assert forall j: nat :: j < i ==> all[j] == front[j];
    }
    assert UnlockedAmong(all, locked, n + 1)
        == UnlockedAmong(all, locked, n) + if last.lock in locked then {} else {n};
  }

  /** The stale list holds the users of the unlocked entries, each at the place its rank among them gives. */
  lemma {:induction false} StaleMeans(entries: seq<Entry>, locked: set<nat>)
    ensures |Stale(entries, locked)| == |UnlockedAmong(entries, locked, |entries|)|
    ensures forall i :: 0 <= i < |entries| && entries[i].lock !in locked ==> AtItsRank(entries, locked, i)
  {
    if entries == [] {
      assert UnlockedAmong(entries, locked, 0) == {};
    } else {
      var front, last := entries[..|entries| - 1], entries[|entries| - 1];
      StaleMeans(front, locked);
      StaleOfConcat(front, [last], locked);
      UnlockedMore(front, last, locked);
      assert entries == front + [last] && [last][1..] == [];
      forall i: nat | i < |entries| && entries[i].lock !in locked ensures AtItsRank(entries, locked, i) {
        assert i < |front| ==> AtItsRank(front, locked, i);
      }
    }
  }

  ghost predicate AtItsRank(entries: seq<Entry>, locked: set<nat>, i: nat)
    requires i < |entries|
  {
    var rank := |UnlockedAmong(entries, locked, i)|;
    rank < |Stale(entries, locked)| && Stale(entries, locked)[rank] == entries[i].user
  }

  lemma {:induction false} StaleComesFrom(entries: seq<Entry>, locked: set<nat>)
    ensures forall u :: u in Stale(entries, locked) ==>
      exists i :: 0 <= i < |entries| && entries[i].user == u && entries[i].lock !in locked
  {
    if entries != [] {
      StaleComesFrom(entries[1..], locked);
      assert forall i :: 0 <= i < |entries| - 1 ==> entries[1..][i] == entries[i + 1];
    }
  }

  lemma {:induction false} StaleIsDistinct(entries: seq<Entry>, locked: set<nat>)
    requires DistinctUsers(entries)
    ensures forall m, k :: 0 <= m < k < |Stale(entries, locked)| ==>
      Stale(entries, locked)[m] != Stale(entries, locked)[k]
  {
    if entries != [] {
      var rest := Stale(entries[1..], locked);
      StaleIsDistinct(entries[1..], locked);
      StaleComesFrom(entries[1..], locked);
      assert forall i :: 0 <= i < |entries| - 1 ==> entries[1..][i] == entries[i + 1];
      assert entries[0].user !in rest;
      assert Stale(entries, locked) == if entries[0].lock in locked then rest else [entries[0].user] + rest;
    }
  }

  /** Past the cap a lookup deletes exactly the first half of the entries that are not locked. */
  lemma CodePruneMeans(entries: seq<Entry>, locked: set<nat>, cap: nat, i: nat)
    requires i < |entries| && DistinctUsers(entries)
    ensures entries[i].user in CodePrune(entries, locked, cap)
      <==> |entries| > cap && entries[i].lock !in locked
           && |UnlockedAmong(entries, locked, i)| < |UnlockedAmong(entries, locked, |entries|)| / 2
  {
    StaleMeans(entries, locked);
    StaleIsDistinct(entries, locked);
    StaleComesFrom(entries, locked);
    var stale := Stale(entries, locked);
    var half := stale[..|stale| / 2];
    if entries[i].lock !in locked {
      assert AtItsRank(entries, locked, i);
      var k := |UnlockedAmong(entries, locked, i)|;
      assert k < |half| ==> half[k] == entries[i].user;
    } else {
      assert forall u :: u in half ==> u in stale;
    }
  }

  /** Deleting users takes out exactly their entries and keeps the others in order. */
  lemma {:induction false} WithoutMeans(entries: seq<Entry>, gone: set<int>, e: Entry)
    ensures multiset(Without(entries, gone))[e] == if e.user in gone then 0 else multiset(entries)[e]
    ensures IsSubsequence(Without(entries, gone), entries)
  {
    if entries == [] {
      assert Embeds([], entries, []);
    } else {
      var rest := Without(entries[1..], gone);
      assert entries == [entries[0]] + entries[1..];
      WithoutMeans(entries[1..], gone, e);
      if entries[0].user in gone {
        SubsequenceSkip(rest, entries[1..], entries[0]);
        assert Without(entries, gone) == rest;
      } else {
        SubsequenceTake(rest, entries[1..], entries[0]);
        assert Without(entries, gone) == [entries[0]] + rest;
      }
    }
  }

  // ----- the protocol -----

  /** A lock, the user it was made for, who holds it, and who queues on it, first come first. */
  datatype LockState = LockState(user: int, holder: Option<int>, waiters: seq<int>)

  datatype TaskState = Waiting(user: int, lock: nat) | Holding(user: int, lock: nat)

  datatype Sys = Sys(entries: seq<Entry>, nextLock: nat, locks: map<nat, LockState>, tasks: map<int, TaskState>)

  datatype Step = Enter(task: int, user: int) | Release(task: int) | Resume(task: int) | Cancel(task: int)

  const INIT := Sys([], 0, map[], map[])

  function Locked(locks: map<nat, LockState>): set<nat> {
    set l | l in locks && locks[l].holder.Some?
  }

  /** Lookup without pruning. */
  function LookedUp(s: Sys, user: int): Sys {
    if Find(s.entries, user).Some? then s
    else s.(entries := WithEntry(s.entries, user, s.nextLock),
            nextLock := s.nextLock + 1,
            locks := s.locks[s.nextLock := LockState(user, None, [])])
  }

  /** Take the lock when it is free and nobody queues; queue otherwise. */
  function Acquired(s: Sys, task: int, user: int, l: nat): Sys
    requires l in s.locks
  {
    var lock := s.locks[l];
    if lock.holder.None? && lock.waiters == [] then
      s.(locks := s.locks[l := lock.(holder := Some(task))], tasks := s.tasks[task := Holding(user, l)])
    else
      s.(locks := s.locks[l := lock.(waiters := lock.waiters + [task])], tasks := s.tasks[task := Waiting(user, l)])
  }

  function RemoveOne(q: seq<int>, t: int): seq<int> {
    if q == [] then [] else if q[0] == t then q[1..] else [q[0]] + RemoveOne(q[1..], t)
  }

  /** One step, with `gone` the users whose table entry an entering task's lookup prunes.
      None when the step is not enabled. */
  function StepWith(s: Sys, step: Step, gone: set<int>): Option<Sys> {
    match step
    case Enter(t, u) =>
      var looked := LookedUp(s, u);
      var l := Find(looked.entries, u);
      if t in s.tasks || l.None? || l.value !in looked.locks then None
      else Some(Acquired(looked.(entries := Without(looked.entries, gone)), t, u, l.value))
    case Release(t) =>
      if t in s.tasks && s.tasks[t].Holding? && s.tasks[t].lock in s.locks then
        var l := s.tasks[t].lock;
        Some(s.(locks := s.locks[l := s.locks[l].(holder := None)], tasks := s.tasks - {t}))
      else None
    case Resume(t) =>
      if && t in s.tasks && s.tasks[t].Waiting? && s.tasks[t].lock in s.locks
         && s.locks[s.tasks[t].lock].holder.None?
         && s.locks[s.tasks[t].lock].waiters != [] && s.locks[s.tasks[t].lock].waiters[0] == t
      then
        var l := s.tasks[t].lock;
        var lock := s.locks[l];
        Some(s.(locks := s.locks[l := LockState(lock.user, Some(t), lock.waiters[1..])],
                tasks := s.tasks[t := Holding(s.tasks[t].user, l)]))
      else None
    case Cancel(t) =>
      if t in s.tasks && s.tasks[t].Waiting? && s.tasks[t].lock in s.locks then
        var l := s.tasks[t].lock;
        Some(s.(locks := s.locks[l := s.locks[l].(waiters := RemoveOne(s.locks[l].waiters, t))],
                tasks := s.tasks - {t}))
      else None
  }

  /** What the code prunes at this step. */
  function Pruned(s: Sys, step: Step, cap: nat): set<int> {
    match step
    case Enter(t, u) =>
      var looked := LookedUp(s, u);
      CodePrune(looked.entries, Locked(looked.locks), cap)
    case _ => {}
  }

  function CodeStep(s: Sys, step: Step, cap: nat): Option<Sys> {
    StepWith(s, step, Pruned(s, step, cap))
  }

  /** The code's run over a schedule; None when some step was not enabled. */
  function Run(steps: seq<Step>, cap: nat): Option<Sys> {
    if steps == [] then Some(INIT)
    else match Run(steps[..|steps| - 1], cap)
         case None => None
         case Some(s) => CodeStep(s, steps[|steps| - 1], cap)
  }

  predicate BothHold(a: TaskState, b: TaskState) {
    a.Holding? && b.Holding? && a.user == b.user
  }

  predicate MutualExclusion(s: Sys) {
    forall t, t' :: t in s.tasks && t' in s.tasks && BothHold(s.tasks[t], s.tasks[t']) ==> t == t'
  }

  // ----- what every step keeps, whatever is pruned -----

  predicate EntriesOk(entries: seq<Entry>, locks: map<nat, LockState>) {
    && (forall i :: 0 <= i < |entries| ==>
          entries[i].lock in locks && locks[entries[i].lock].user == entries[i].user)
    && (forall i, j :: 0 <= i < j < |entries| ==> entries[i].user != entries[j].user)
  }

  predicate TasksOk(locks: map<nat, LockState>, tasks: map<int, TaskState>) {
    && (forall t :: t in tasks ==> TaskOk(t, tasks[t], locks))
    && (forall l :: l in locks ==> LockOk(l, locks[l], tasks))
  }

  predicate NoDuplicates(q: seq<int>) {
    forall i, j :: 0 <= i < j < |q| ==> q[i] != q[j]
  }

  predicate Base(s: Sys) {
    && EntriesOk(s.entries, s.locks)
    && TasksOk(s.locks, s.tasks)
    && (forall l :: l in s.locks ==> l < s.nextLock)
  }

  /** Every task that holds or queues does so on the lock the table has for its user. */
  predicate Coverage(s: Sys) {
    forall t :: t in s.tasks ==> Find(s.entries, s.tasks[t].user) == Some(s.tasks[t].lock)
  }

  lemma CoverageExcludes(s: Sys)
    requires Base(s) && Coverage(s)
    ensures MutualExclusion(s)
  {
  }

  predicate FirstOf(entries: seq<Entry>, user: int, i: int) {
    0 <= i < |entries| && entries[i].user == user && forall j :: 0 <= j < i ==> entries[j].user != user
  }

  /** A lookup finds the first entry of its user, or none when there is none. */
  lemma {:induction false} FindIsFirst(entries: seq<Entry>, user: int)
    ensures match Find(entries, user)
      case Some(l) => exists i :: FirstOf(entries, user, i) && entries[i].lock == l
      case None => forall i :: 0 <= i < |entries| ==> entries[i].user != user
  {
    if entries != [] {
      var rest := entries[1..];
      FindIsFirst(rest, user);
      assert forall j :: 0 < j < |entries| ==> entries[j] == rest[j - 1];
      if entries[0].user == user {
        assert FirstOf(entries, user, 0);
      } else if Find(rest, user).Some? {
        var i :| FirstOf(rest, user, i) && rest[i].lock == Find(rest, user).value;
        assert FirstOf(entries, user, i + 1) && entries[i + 1].lock == rest[i].lock;
      }
    }
  }

  lemma {:induction false} FindMeans(entries: seq<Entry>, user: int)
    ensures match Find(entries, user)
      case Some(l) => Entry(user, l) in entries
      case None => forall i :: 0 <= i < |entries| ==> entries[i].user != user
  {
    if entries != [] && entries[0].user != user { FindMeans(entries[1..], user); }
  }

  lemma {:induction false} FindSnoc(entries: seq<Entry>, e: Entry, user: int)
    ensures Find(entries + [e], user)
         == if Find(entries, user).Some? then Find(entries, user)
            else if e.user == user then Some(e.lock) else None
  {
    if entries == [] {
      assert entries + [e] == [e];
    } else {
      assert (entries + [e])[0] == entries[0] && (entries + [e])[1..] == entries[1..] + [e];
      FindSnoc(entries[1..], e, user);
    }
  }

  lemma {:induction false} FindWithout(entries: seq<Entry>, gone: set<int>, user: int)
    ensures Find(Without(entries, gone), user) == if user in gone then None else Find(entries, user)
  {
    if entries != [] {
      var rest := Without(entries[1..], gone);
      FindWithout(entries[1..], gone, user);
      assert Without(entries, gone) == if entries[0].user in gone then rest else [entries[0]] + rest;
      assert ([entries[0]] + rest)[1..] == rest;
    }
  }

  lemma {:induction false} WithoutIsSubset(entries: seq<Entry>, gone: set<int>)
    ensures forall e :: e in Without(entries, gone) ==> e in entries
  {
    if entries != [] {
      WithoutIsSubset(entries[1..], gone);
    }
  }

  lemma {:induction false} WithoutIsOk(entries: seq<Entry>, locks: map<nat, LockState>, gone: set<int>)
    requires EntriesOk(entries, locks)
    ensures EntriesOk(Without(entries, gone), locks)
  {
    if entries != [] {
      WithoutIsOk(entries[1..], locks, gone);
      WithoutIsSubset(entries[1..], gone);
      ConsIsOk(entries[0], entries[1..], Without(entries[1..], gone), locks);
      assert entries == [entries[0]] + entries[1..];
    }
  }

  lemma ConsIsOk(e: Entry, all: seq<Entry>, rest: seq<Entry>, locks: map<nat, LockState>)
    requires EntriesOk([e] + all, locks) && EntriesOk(rest, locks) && forall x :: x in rest ==> x in all
    ensures EntriesOk([e] + rest, locks) && EntriesOk([] + rest, locks)
  {
    var full := [e] + all;
    assert full[0] == e;
    forall j | 0 <= j < |rest| ensures rest[j].user != e.user {
      assert rest[j] in all;
      var i :| 0 <= i < |all| && all[i] == rest[j];
      assert full[i + 1] == rest[j];
    }
    assert [] + rest == rest;
  }

  lemma LookupKeepsBase(s: Sys, user: int)
    requires Base(s)
    ensures var r := LookedUp(s, user);
      && Base(r) && r.tasks == s.tasks
      && Find(r.entries, user).Some? && Find(r.entries, user).value in r.locks
      && r.locks[Find(r.entries, user).value].user == user
      && (forall l :: l in s.locks ==> l in r.locks && r.locks[l] == s.locks[l])
      && (forall u :: u != user ==> Find(r.entries, u) == Find(s.entries, u))
      && (Find(s.entries, user).Some? ==> Find(r.entries, user) == Find(s.entries, user))
      && (Find(s.entries, user).None? ==>
            Find(r.entries, user) == Some(s.nextLock) && r.locks[s.nextLock] == LockState(user, None, []))
  {
    FindMeans(s.entries, user);
    var r := LookedUp(s, user);
    if Find(s.entries, user).None? {
      forall u ensures Find(r.entries, u)
        == if Find(s.entries, u).Some? then Find(s.entries, u) else if u == user then Some(s.nextLock) else None
      {
        FindSnoc(s.entries, Entry(user, s.nextLock), u);
      }
    }
  }

  predicate LockOk(l: nat, lock: LockState, tasks: map<int, TaskState>) {
    && (lock.holder.Some? ==> lock.holder.value in tasks && tasks[lock.holder.value] == Holding(lock.user, l))
    && (forall w :: w in lock.waiters ==> w in tasks && tasks[w] == Waiting(lock.user, l))
    && NoDuplicates(lock.waiters)
  }

  predicate TaskOk(t: int, task: TaskState, locks: map<nat, LockState>) {
    && task.lock in locks && locks[task.lock].user == task.user
    && (task.Holding? ==> locks[task.lock].holder == Some(t))
    && (task.Waiting? ==> t in locks[task.lock].waiters)
  }

  lemma AcquireKeepsTasks(s: Sys, task: int, user: int, l: nat)
    requires TasksOk(s.locks, s.tasks) && task !in s.tasks && l in s.locks && s.locks[l].user == user
    ensures var r := Acquired(s, task, user, l);
      && TasksOk(r.locks, r.tasks)
      && r.locks.Keys == s.locks.Keys && (forall k :: k in s.locks ==> r.locks[k].user == s.locks[k].user)
  {
    var r := Acquired(s, task, user, l);
    assert LockOk(l, s.locks[l], s.tasks);
    assert task !in s.locks[l].waiters;
    forall k | k in r.locks ensures LockOk(k, r.locks[k], r.tasks) {
      assert LockOk(k, s.locks[k], s.tasks);
    }
    forall t | t in r.tasks ensures TaskOk(t, r.tasks[t], r.locks) {
      if t != task { assert TaskOk(t, s.tasks[t], s.locks); }
    }
  }

  lemma {:induction false} RemoveOneMeans(q: seq<int>, t: int)
    requires NoDuplicates(q)
    ensures NoDuplicates(RemoveOne(q, t))
    ensures forall x :: x in RemoveOne(q, t) <==> x in q && x != t
  {
    if q != [] && q[0] != t {
      RemoveOneMeans(q[1..], t);
      var rest := RemoveOne(q[1..], t);
      assert RemoveOne(q, t) == [q[0]] + rest;
      assert q == [q[0]] + q[1..];
      assert q[0] !in q[1..];
    } else if q != [] {
      assert q == [q[0]] + q[1..];
      assert q[0] !in q[1..];
    }
  }

  lemma EnterKeepsBase(s: Sys, t: int, u: int, gone: set<int>)
    requires Base(s) && t !in s.tasks
    ensures var r := StepWith(s, Enter(t, u), gone); r.Some? && Base(r.value)
  {
    LookupKeepsBase(s, u);
    var looked := LookedUp(s, u);
    WithoutIsOk(looked.entries, looked.locks, gone);
    var l := Find(looked.entries, u).value;
    AcquireKeepsTasks(looked.(entries := Without(looked.entries, gone)), t, u, l);
  }

  lemma ReleaseKeepsBase(s: Sys, t: int)
    requires Base(s) && StepWith(s, Release(t), {}).Some?
    ensures Base(StepWith(s, Release(t), {}).value)
  {
  }

  lemma ResumeKeepsBase(s: Sys, t: int)
    requires Base(s) && StepWith(s, Resume(t), {}).Some?
    ensures Base(StepWith(s, Resume(t), {}).value)
  {
    var q := s.locks[s.tasks[t].lock].waiters;
    assert q == [q[0]] + q[1..];
    assert q[0] !in q[1..];
  }

  lemma CancelKeepsBase(s: Sys, t: int)
    requires Base(s) && StepWith(s, Cancel(t), {}).Some?
    ensures Base(StepWith(s, Cancel(t), {}).value)
  {
    RemoveOneMeans(s.locks[s.tasks[t].lock].waiters, t);
  }

  /** The bookkeeping of locks, holders and queues survives every step and every pruning. */
  lemma StepKeepsBase(s: Sys, step: Step, gone: set<int>)
    requires Base(s) && StepWith(s, step, gone).Some?
    ensures Base(StepWith(s, step, gone).value)
  {
    match step
    case Enter(t, u) => EnterKeepsBase(s, t, u, gone);
    case Release(t) => ReleaseKeepsBase(s, t);
    case Resume(t) => ResumeKeepsBase(s, t);
    case Cancel(t) => CancelKeepsBase(s, t);
  }

  // ----- which deletions are safe -----

  /** The pruned entries are quiet: nobody holds or queues on their lock, and none of them is the
      entry being returned. */
  predicate Quiet(s: Sys, step: Step, gone: set<int>) {
    step.Enter? ==> step.user !in gone && forall t :: t in s.tasks ==> s.tasks[t].user !in gone
  }

  lemma EnterCoverage(s: Sys, t: int, u: int, gone: set<int>)
    requires Base(s) && Coverage(s) && t !in s.tasks
    ensures var r := StepWith(s, Enter(t, u), gone);
      r.Some? && (Coverage(r.value) <==> Quiet(s, Enter(t, u), gone))
  {
    LookupKeepsBase(s, u);
    var looked := LookedUp(s, u);
    var r := StepWith(s, Enter(t, u), gone).value;
    assert r.tasks.Keys == s.tasks.Keys + {t};
    assert r.tasks[t].user == u && forall x :: x in s.tasks ==> r.tasks[x] == s.tasks[x];
    forall v ensures Find(r.entries, v) == if v in gone then None else Find(looked.entries, v) {
      FindWithout(looked.entries, gone, v);
    }
    if Coverage(r) {
      forall x | x in s.tasks ensures s.tasks[x].user !in gone {
        assert Find(r.entries, r.tasks[x].user).Some?;
      }
    }
  }

  /** A step keeps every task on its user's current lock exactly when what it prunes is quiet. */
  lemma CoverageIffQuiet(s: Sys, step: Step, gone: set<int>)
    requires Base(s) && Coverage(s) && StepWith(s, step, gone).Some?
    ensures Coverage(StepWith(s, step, gone).value) <==> Quiet(s, step, gone)
  {
    match step
    case Enter(t, u) => EnterCoverage(s, t, u, gone);
    case _ =>
  }

  /** A task stranded on a lock the table no longer has: two steps of the code later, whatever they
      prune, two tasks hold locks for that user at once. */
  lemma StrandedBreaksExclusion(s: Sys, x: int, t: int, cap: nat) returns (more: seq<Step>)
    requires Base(s) && x in s.tasks && Find(s.entries, s.tasks[x].user).None? && t !in s.tasks
    ensures 1 <= |more| <= 2
    ensures var s1 := CodeStep(s, more[0], cap);
      && s1.Some?
      && (|more| == 1 ==> !MutualExclusion(s1.value))
      && (|more| == 2 ==> var s2 := CodeStep(s1.value, more[1], cap); s2.Some? && !MutualExclusion(s2.value))
  {
    var v, l := s.tasks[x].user, s.tasks[x].lock;
    more := [Enter(t, v)];
    LookupKeepsBase(s, v);
    var gone := Pruned(s, more[0], cap);
    EnterKeepsBase(s, t, v, gone);
    var s1 := StepWith(s, more[0], gone).value;
    assert s1.tasks[t] == Holding(v, s.nextLock);
    assert l in s.locks && l != s.nextLock && s1.locks[l] == s.locks[l];
    if s.locks[l].holder.Some? {
      var y := s.locks[l].holder.value;
      assert s1.tasks[y] == Holding(v, l);
    } else {
      var w := s.locks[l].waiters[0];
      assert w in s.locks[l].waiters;
      assert s1.tasks[w] == Waiting(v, l);
      more := more + [Resume(w)];
      var s2 := StepWith(s1, Resume(w), {}).value;
      assert s2.tasks[w] == Holding(v, l) && s2.tasks[t] == Holding(v, s.nextLock);
    }
  }

  // ----- runs of the code -----

  lemma {:induction false} RunKeepsBase(steps: seq<Step>, cap: nat)
    ensures var r := Run(steps, cap); r.Some? ==> Base(r.value)
  {
    if steps != [] {
      var front, last := steps[..|steps| - 1], steps[|steps| - 1];
      RunKeepsBase(front, cap);
      if Run(steps, cap).Some? {
        var s := Run(front, cap).value;
        StepKeepsBase(s, last, Pruned(s, last, cap));
      }
    }
  }

  /** Along the whole run, nothing but quiet entries was pruned. */
  predicate QuietRun(steps: seq<Step>, cap: nat)
    requires Run(steps, cap).Some?
  {
    steps == [] ||
    var front, last := steps[..|steps| - 1], steps[|steps| - 1];
    QuietRun(front, cap) && Quiet(Run(front, cap).value, last, Pruned(Run(front, cap).value, last, cap))
  }

  /** Along the whole run, no lookup saw more entries than the cap. */
  predicate WithinCap(steps: seq<Step>, cap: nat)
    requires Run(steps, cap).Some?
  {
    steps == [] ||
    var front, last := steps[..|steps| - 1], steps[|steps| - 1];
    && WithinCap(front, cap)
    && (last.Enter? ==> |LookedUp(Run(front, cap).value, last.user).entries| <= cap)
  }

  lemma {:induction false} QuietRunIsCovered(steps: seq<Step>, cap: nat)
    requires Run(steps, cap).Some? && QuietRun(steps, cap)
    ensures Coverage(Run(steps, cap).value)
  {
    if steps != [] {
      var front, last := steps[..|steps| - 1], steps[|steps| - 1];
      QuietRunIsCovered(front, cap);
      RunKeepsBase(front, cap);
      CoverageIffQuiet(Run(front, cap).value, last, Pruned(Run(front, cap).value, last, cap));
    }
  }

  /** Per-user mutual exclusion on every run that prunes only quiet entries. */
  lemma QuietRunExcludes(steps: seq<Step>, cap: nat)
    requires Run(steps, cap).Some? && QuietRun(steps, cap)
    ensures MutualExclusion(Run(steps, cap).value)
  {
    QuietRunIsCovered(steps, cap);
    RunKeepsBase(steps, cap);
    CoverageExcludes(Run(steps, cap).value);
  }

  lemma {:induction false} WithinCapIsQuiet(steps: seq<Step>, cap: nat)
    requires Run(steps, cap).Some? && WithinCap(steps, cap)
    ensures QuietRun(steps, cap)
  {
    if steps != [] {
      WithinCapIsQuiet(steps[..|steps| - 1], cap);
    }
  }

  /** Per-user mutual exclusion on every run whose table never outgrows the cap. */
  lemma WithinCapExcludes(steps: seq<Step>, cap: nat)
    requires Run(steps, cap).Some? && WithinCap(steps, cap)
    ensures MutualExclusion(Run(steps, cap).value)
  {
    WithinCapIsQuiet(steps, cap);
    QuietRunExcludes(steps, cap);
  }

  lemma {:induction false} SomeFreshTask(used: set<int>) returns (t: int)
    ensures forall x :: x in used ==> x < t
    decreases |used|
  {
    if x :| x in used {
      var r := SomeFreshTask(used - {x});
      t := if x < r then r else x + 1;
      assert forall y :: y in used ==> y == x || y in used - {x};
    } else {
      t := 0;
    }
  }

  lemma UnquietStrands(s: Sys, t: int, u: int, gone: set<int>) returns (x: int)
    requires Base(s) && Coverage(s) && t !in s.tasks && !Quiet(s, Enter(t, u), gone)
    ensures var r := StepWith(s, Enter(t, u), gone);
      r.Some? && x in r.value.tasks && Find(r.value.entries, r.value.tasks[x].user).None?
  {
    LookupKeepsBase(s, u);
    var looked := LookedUp(s, u);
    if u in gone {
      x := t;
    } else {
      x :| x in s.tasks && s.tasks[x].user in gone;
    }
    FindWithout(looked.entries, gone, if u in gone then u else s.tasks[x].user);
  }

  lemma RunSnoc(steps: seq<Step>, step: Step, cap: nat)
    ensures Run(steps + [step], cap)
         == match Run(steps, cap) case None => None case Some(s) => CodeStep(s, step, cap)
  {
    assert (steps + [step])[..|steps|] == steps;
  }

  /** The exact condition: from a state where every task is on its user's current lock, an entering
      task's pruning keeps that, and with it mutual exclusion, if it is quiet; and if it is not
      quiet, the run can be continued into two holders for one user. */
  lemma QuietIsExactlySafe(steps: seq<Step>, t: int, u: int, cap: nat)
    requires Run(steps, cap).Some? && Coverage(Run(steps, cap).value) && t !in Run(steps, cap).value.tasks
    ensures var s := Run(steps, cap).value; var next := Run(steps + [Enter(t, u)], cap);
      && next.Some?
      && (Quiet(s, Enter(t, u), Pruned(s, Enter(t, u), cap)) ==>
            Coverage(next.value) && MutualExclusion(next.value))
      && (!Quiet(s, Enter(t, u), Pruned(s, Enter(t, u), cap)) ==>
            exists more :: Broken(steps + [Enter(t, u)] + more, cap))
  {
    var s, step := Run(steps, cap).value, Enter(t, u);
    var gone := Pruned(s, step, cap);
    RunKeepsBase(steps, cap);
    RunSnoc(steps, step, cap);
    EnterKeepsBase(s, t, u, gone);
    CoverageIffQuiet(s, step, gone);
    if Quiet(s, step, gone) {
      CoverageExcludes(StepWith(s, step, gone).value);
    } else {
      var x := UnquietStrands(s, t, u, gone);
      var more := StrandedRunBreaks(steps + [step], x, cap);
    }
  }

  lemma BrokenByOne(steps: seq<Step>, a: Step, cap: nat)
    requires Run(steps, cap).Some?
    requires var s1 := CodeStep(Run(steps, cap).value, a, cap); s1.Some? && !MutualExclusion(s1.value)
    ensures Broken(steps + [a], cap)
  {
    RunSnoc(steps, a, cap);
  }

  lemma BrokenByTwo(steps: seq<Step>, a: Step, b: Step, cap: nat)
    requires Run(steps, cap).Some?
    requires var s1 := CodeStep(Run(steps, cap).value, a, cap);
      s1.Some? && var s2 := CodeStep(s1.value, b, cap); s2.Some? && !MutualExclusion(s2.value)
    ensures Broken(steps + [a, b], cap)
  {
    RunSnoc(steps, a, cap);
    BrokenByOne(steps + [a], b, cap);
    assert steps + [a, b] == steps + [a] + [b];
  }

  lemma StrandedRunBreaks(steps: seq<Step>, x: int, cap: nat) returns (more: seq<Step>)
    requires Run(steps, cap).Some?
    requires var s := Run(steps, cap).value; x in s.tasks && Find(s.entries, s.tasks[x].user).None?
    ensures Broken(steps + more, cap)
  {
    var s := Run(steps, cap).value;
    RunKeepsBase(steps, cap);
    var t := SomeFreshTask(s.tasks.Keys);
    assert t !in s.tasks.Keys;
    more := StrandedBreaksExclusion(s, x, t, cap);
    if |more| == 1 {
      BrokenByOne(steps, more[0], cap);
      assert more == [more[0]];
    } else {
      BrokenByTwo(steps, more[0], more[1], cap);
      assert more == [more[0], more[1]];
    }
  }

  // ----- what the code's `not locked()` test misses -----

  lemma {:induction false} StaleEntry(entries: seq<Entry>, locked: set<nat>, u: int) returns (l: nat)
    requires u in Stale(entries, locked)
    ensures Entry(u, l) in entries && l !in locked
  {
    if entries[0].lock !in locked && u == entries[0].user {
      l := entries[0].lock;
    } else {
      l := StaleEntry(entries[1..], locked, u);
    }
  }

  lemma FindEntry(entries: seq<Entry>, locks: map<nat, LockState>, u: int, l: nat)
    requires EntriesOk(entries, locks) && Entry(u, l) in entries
    ensures Find(entries, u) == Some(l)
  {
    FindMeans(entries, u);
    var i :| 0 <= i < |entries| && entries[i] == Entry(u, l);
    if Find(entries, u).Some? {
      var j :| 0 <= j < |entries| && entries[j] == Entry(u, Find(entries, u).value);
      assert !(i < j) && !(j < i);
    }
  }

  // ----- first come, first served -----

  /** Both queue on the lock, `a` before `b`. */
  predicate Before(s: Sys, l: nat, a: int, b: int) {
    l in s.locks && InOrder(s.locks[l].waiters, a, b)
  }

  predicate HoldsLock(s: Sys, t: int, l: nat) {
    t in s.tasks && s.tasks[t] == Holding(s.tasks[t].user, l)
  }

  lemma {:induction false} RemovalKeepsOrder(q: seq<int>, t: int, i: nat, j: nat) returns (x: nat, y: nat)
    requires i < j < |q| && q[i] != t && q[j] != t
    ensures x < y < |RemoveOne(q, t)| && RemoveOne(q, t)[x] == q[i] && RemoveOne(q, t)[y] == q[j]
  {
    if q[0] == t {
      x, y := i - 1, j - 1;
    } else if i == 0 {
      y := RemovalKeepsOne(q[1..], t, j - 1);
      x, y := 0, y + 1;
    } else {
      x, y := RemovalKeepsOrder(q[1..], t, i - 1, j - 1);
      x, y := x + 1, y + 1;
    }
  }

  lemma {:induction false} RemovalKeepsOne(q: seq<int>, t: int, j: nat) returns (y: nat)
    requires j < |q| && q[j] != t
    ensures y < |RemoveOne(q, t)| && RemoveOne(q, t)[y] == q[j]
  {
    if q[0] == t {
      y := j - 1;
    } else if j == 0 {
      y := 0;
    } else {
      y := RemovalKeepsOne(q[1..], t, j - 1);
      y := y + 1;
    }
  }

  /** No task overtakes another on one lock: whatever step is taken and whatever it deletes, the later of two waiting
      tasks does not get the lock, and while both still wait they do so in the same order. */
  lemma NoOvertaking(s: Sys, step: Step, gone: set<int>, l: nat, a: int, b: int)
    requires Base(s) && Before(s, l, a, b) && StepWith(s, step, gone).Some?
    ensures var r := StepWith(s, step, gone).value;
      && !HoldsLock(r, b, l)
      && l in r.locks && (a in r.locks[l].waiters && b in r.locks[l].waiters ==> Before(r, l, a, b))
  {
    var q := s.locks[l].waiters;
    assert LockOk(l, s.locks[l], s.tasks) && a in q && b in q;
    match step
    case Enter(t, u) => EnteringKeepsOrder(s, t, u, gone, l, a, b);
    case Release(t) =>
    case Resume(t) =>
      if s.tasks[t].lock == l {
        ResumingKeepsOrder(q, a, b);
      }
    case Cancel(t) =>
      if s.tasks[t].lock == l {
        CancellingKeepsOrder(q, t, a, b);
      }
  }

  predicate InOrder(q: seq<int>, a: int, b: int) {
    exists i, j :: 0 <= i < j < |q| && q[i] == a && q[j] == b
  }

  lemma EnteringKeepsOrder(s: Sys, t: int, u: int, gone: set<int>, l: nat, a: int, b: int)
    requires Base(s) && Before(s, l, a, b) && StepWith(s, Enter(t, u), gone).Some?
    ensures var r := StepWith(s, Enter(t, u), gone).value; Before(r, l, a, b) && !HoldsLock(r, b, l)
  {
    LookupKeepsBase(s, u);
    var q := s.locks[l].waiters;
    assert LockOk(l, s.locks[l], s.tasks);
    var i, j :| 0 <= i < j < |q| && q[i] == a && q[j] == b;
    var now := StepWith(s, Enter(t, u), gone).value.locks[l].waiters;
    assert now == q || now == q + [t];
    assert now[i] == a && now[j] == b;
  }

  lemma ResumingKeepsOrder(q: seq<int>, a: int, b: int)
    requires InOrder(q, a, b) && NoDuplicates(q)
    ensures q[0] != b && (a in q[1..] && b in q[1..] ==> InOrder(q[1..], a, b))
  {
    var i, j :| 0 <= i < j < |q| && q[i] == a && q[j] == b;
    if i > 0 {
      assert q[1..][i - 1] == a && q[1..][j - 1] == b;
    }
  }

  lemma CancellingKeepsOrder(q: seq<int>, t: int, a: int, b: int)
    requires InOrder(q, a, b) && NoDuplicates(q)
    ensures var rest := RemoveOne(q, t); a in rest && b in rest ==> InOrder(rest, a, b)
  {
    var i, j :| 0 <= i < j < |q| && q[i] == a && q[j] == b;
    RemoveOneMeans(q, t);
    if t != a && t != b {
      var x, y := RemovalKeepsOrder(q, t, i, j);
    }
  }

  /** Does the user's current lock have waiters (and so, when it is unlocked, a hand-off under way)? */
  predicate HasWaiters(s: Sys, user: int) {
    var l := Find(s.entries, user);
    l.Some? && l.value in s.locks && s.locks[l.value].waiters != []
  }

  /** The code's pruning is unsafe exactly when it hits the entry being returned, or an entry whose
      lock is between release and the next holder. Locked entries it never touches. */
  lemma CodePruningUnquietIff(s: Sys, t: int, u: int, cap: nat)
    requires Base(s) && Coverage(s)
    ensures var gone := Pruned(s, Enter(t, u), cap);
      !Quiet(s, Enter(t, u), gone) <==> u in gone || exists v :: v in gone && HasWaiters(s, v)
  {
    var gone := Pruned(s, Enter(t, u), cap);
    LookupKeepsBase(s, u);
    var looked := LookedUp(s, u);
    forall x | x in s.tasks && s.tasks[x].user in gone && s.tasks[x].user != u
      ensures HasWaiters(s, s.tasks[x].user)
    {
      var v := s.tasks[x].user;
      var l := StaleEntry(looked.entries, Locked(looked.locks), v);
      FindEntry(looked.entries, looked.locks, v, l);
      assert TaskOk(x, s.tasks[x], s.locks);
    }
    forall v | v in gone && HasWaiters(s, v) ensures exists x :: x in s.tasks && s.tasks[x].user in gone {
      var l := Find(s.entries, v).value;
      FindMeans(s.entries, v);
      assert LockOk(l, s.locks[l], s.tasks);
      var w := s.locks[l].waiters[0];
      assert w in s.locks[l].waiters;
    }
  }

  // ----- every cap admits a breaking run -----

  /** A holder and a waiter for user 0, then one holder each for users 1 to k. */
  function Chain(k: nat): seq<Step> {
    if k == 0 then [Enter(0, 0), Enter(1, 0)] else Chain(k - 1) + [Enter(k + 1, k)]
  }

  predicate ChainState(s: Sys, k: nat) {
    && |s.entries| == k + 1
    && (forall i :: 0 <= i <= k ==> s.entries[i].user == i)
    && (forall i :: 0 <= i <= k ==> s.entries[i].lock in s.locks && s.locks[s.entries[i].lock].holder.Some?)
    && (forall t :: t in s.tasks ==> 0 <= t <= k + 1)
    && 0 in s.tasks && s.tasks[0] == Holding(0, s.entries[0].lock)
    && 1 in s.tasks && s.tasks[1] == Waiting(0, s.entries[0].lock)
  }

  lemma ChainStart(cap: nat)
    requires cap >= 1
    ensures var r := Run(Chain(0), cap); r.Some? && Base(r.value) && ChainState(r.value, 0)
  {
    var e0 := [Entry(0, 0)];
    RunSnoc([], Enter(0, 0), cap);
    RunSnoc([Enter(0, 0)], Enter(1, 0), cap);
    assert [] + [Enter(0, 0)] == [Enter(0, 0)];
    assert Chain(0) == [Enter(0, 0)] + [Enter(1, 0)];
    assert [] + e0 == e0;
    WithoutNone(e0);
    var s1 := Run([Enter(0, 0)], cap).value;
    assert s1 == Sys(e0, 1, map[0 := LockState(0, Some(0), [])], map[0 := Holding(0, 0)]);
    var s2 := Run(Chain(0), cap).value;
    assert s2.tasks == map[0 := Holding(0, 0), 1 := Waiting(0, 0)];
    RunKeepsBase(Chain(0), cap);
  }

  lemma ChainStep(s: Sys, k: nat, cap: nat)
    requires Base(s) && ChainState(s, k) && k + 2 <= cap
    ensures var r := CodeStep(s, Enter(k + 2, k + 1), cap); r.Some? && ChainState(r.value, k + 1)
  {
    FindMeans(s.entries, k + 1);
    LookupKeepsBase(s, k + 1);
    WithoutNone(LookedUp(s, k + 1).entries);
  }

  lemma ChainExtends(steps: seq<Step>, s: Sys, k: nat, cap: nat)
    requires Run(steps, cap) == Some(s) && Base(s) && ChainState(s, k) && k + 2 <= cap
    ensures var r := Run(steps + [Enter(k + 2, k + 1)], cap); r.Some? && Base(r.value) && ChainState(r.value, k + 1)
  {
    ChainStep(s, k, cap);
    RunSnoc(steps, Enter(k + 2, k + 1), cap);
    RunKeepsBase(steps + [Enter(k + 2, k + 1)], cap);
  }

  lemma {:induction false} ChainReached(k: nat, cap: nat)
    requires k + 1 <= cap
    ensures var r := Run(Chain(k), cap); r.Some? && Base(r.value) && ChainState(r.value, k)
  {
    if k == 0 {
      ChainStart(cap);
    } else {
      ChainReached(k - 1, cap);
      ChainExtends(Chain(k - 1), Run(Chain(k - 1), cap).value, k - 1, cap);
    }
  }

  lemma {:induction false} NoneStale(entries: seq<Entry>, locked: set<nat>)
    requires forall i :: 0 <= i < |entries| ==> entries[i].lock in locked
    ensures Stale(entries, locked) == []
  {
    if entries != [] { NoneStale(entries[1..], locked); }
  }

  lemma {:induction false} EndsStale(entries: seq<Entry>, locked: set<nat>)
    requires |entries| >= 2
    requires entries[0].lock !in locked && entries[|entries| - 1].lock !in locked
    requires forall i :: 0 < i < |entries| - 1 ==> entries[i].lock in locked
    ensures Stale(entries, locked) == [entries[0].user, entries[|entries| - 1].user]
  {
    var n := |entries| - 1;
    var first, middle, last := [entries[0]], entries[1..n], [entries[n]];
    assert entries == first + (middle + last);
    StaleOfConcat(first, middle + last, locked);
    StaleOfConcat(middle, last, locked);
    NoneStale(middle, locked);
    assert first[1..] == [] && last[1..] == [];
  }

  /** After the release only the chain's first entry is stale, and the next new user prunes it. */
  lemma FirstEntryIsPruned(s: Sys, s1: Sys, cap: nat)
    requires cap >= 1 && Base(s) && ChainState(s, cap - 1) && Base(s1)
    requires CodeStep(s, Release(0), cap) == Some(s1)
    ensures 0 in Pruned(s1, Enter(cap + 1, cap), cap)
  {
    FindMeans(s1.entries, cap);
    LookupKeepsBase(s1, cap);
    var looked := LookedUp(s1, cap);
    assert looked.entries == s.entries + [Entry(cap, s.nextLock)];
    var locked := Locked(looked.locks);
    forall i | 0 < i < cap ensures looked.entries[i].lock in locked {
      assert s.entries[i].lock != s.entries[0].lock;
    }
    EndsStale(looked.entries, locked);
    assert Stale(looked.entries, locked)[..|Stale(looked.entries, locked)| / 2] == [0];
  }

  /** After the release that starts a hand-off, one more user's arrival prunes user 0's entry. */
  lemma HandOffIsPruned(s: Sys, cap: nat)
    requires cap >= 1 && Base(s) && ChainState(s, cap - 1)
    ensures var s1 := CodeStep(s, Release(0), cap);
      && s1.Some?
      && var s2 := CodeStep(s1.value, Enter(cap + 1, cap), cap);
         && s2.Some? && 1 in s2.value.tasks && Find(s2.value.entries, s2.value.tasks[1].user).None?
  {
    var s1 := CodeStep(s, Release(0), cap).value;
    ReleaseKeepsBase(s, 0);
    FirstEntryIsPruned(s, s1, cap);
    var gone := Pruned(s1, Enter(cap + 1, cap), cap);
    EnterKeepsBase(s1, cap + 1, cap, gone);
    FindWithout(LookedUp(s1, cap).entries, gone, 0);
  }

  /** Whatever the cap, some schedule ends with two tasks holding locks for one user. */
  lemma EveryCapCanBreak(cap: nat)
    requires cap >= 1
    ensures exists steps :: Broken(steps, cap)
  {
    ChainReached(cap - 1, cap);
    ChainBreaks(Chain(cap - 1), cap);
  }

  lemma ChainBreaks(steps: seq<Step>, cap: nat)
    requires cap >= 1 && Run(steps, cap).Some?
    requires Base(Run(steps, cap).value) && ChainState(Run(steps, cap).value, cap - 1)
    ensures exists longer :: Broken(longer, cap)
  {
    ChainStrands(steps, cap);
    var long := steps + [Release(0)] + [Enter(cap + 1, cap)];
    var more := StrandedRunBreaks(long, 1, cap);
  }

  predicate Broken(steps: seq<Step>, cap: nat) {
    var r := Run(steps, cap);
    r.Some? && !MutualExclusion(r.value)
  }

  lemma ChainStrands(steps: seq<Step>, cap: nat)
    requires cap >= 1 && Run(steps, cap).Some?
    requires Base(Run(steps, cap).value) && ChainState(Run(steps, cap).value, cap - 1)
    ensures var r := Run(steps + [Release(0)] + [Enter(cap + 1, cap)], cap);
      r.Some? && 1 in r.value.tasks && Find(r.value.entries, r.value.tasks[1].user).None?
  {
    HandOffIsPruned(Run(steps, cap).value, cap);
    RunSnoc(steps, Release(0), cap);
    RunSnoc(steps + [Release(0)], Enter(cap + 1, cap), cap);
  }
}
