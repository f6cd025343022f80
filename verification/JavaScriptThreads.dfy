/** The self-respawning thread pool of Tools/DumpRenderTree/JavaScriptThreading.cpp as a transition
    system: every lock, unlock and shared access is a step, and steps of all threads interleave freely. */
module JavaScriptThreads {
  import opened Common

  type Tid = nat

  const THREADS_COUNT := 4

  /** Where a worker stands in runJavaScriptThread. `In...` holds the lock. */
  datatype Pc =
    | NewContext | InNewContext
    | NewScript | InNewScript
    | Evaluate | InEvaluate
    | Objects | InObjects
    | Check | InCheck
    | Roll
    | Respawn | InRespawn | Detached | Removed | Spawned(child: Tid) | Added
    | Cleanup | InCleanup
    | Finished

  /** Where the main thread stands in startJavaScriptThreads and stopJavaScriptThreads. */
  datatype MainPc =
    | Idle | Starting(added: nat) | StartSpawned(added: nat, child: Tid)
    | Started
    | InRaise | Raising | Raised
    | InSnapshot | Snapped
    | Waiting(k: nat)
    | InClear | Cleared
    | Done
    | AssertionFailed

  datatype Owner = MainThread | Worker(t: Tid)

  /** `detached` records the calls of detachThread; `mark` is the thread count when the flag was raised. */
  datatype State = State(
    threads: seq<Pc>,
    javaScriptThreads: set<Tid>,
    shouldTerminate: bool,
    lock: Option<Owner>,
    main: MainPc,
    snapshot: seq<Tid>,
    detached: set<Tid>,
    mark: nat)

  const INIT := State([], {}, false, None, Idle, [], {}, 0)

  /** A step of the main thread, or of a worker. `order` is the order in which copyToVector meets the
      set, and `again` says whether `rand() % 5` is nonzero. */
  datatype Move = MainMove(order: seq<Tid>) | WorkerMove(t: Tid, again: bool)

  predicate Holds(pc: Pc) {
    pc.InNewContext? || pc.InNewScript? || pc.InEvaluate? || pc.InObjects? || pc.InCheck? || pc.InRespawn? ||
    pc.Detached? || pc.Removed? || pc.Spawned? || pc.Added? || pc.InCleanup?
  }

  predicate Wants(pc: Pc) {
    pc.NewContext? || pc.NewScript? || pc.Evaluate? || pc.Objects? || pc.Check? || pc.Respawn? || pc.Cleanup?
  }

  predicate MainHolds(m: MainPc) {
    m.Starting? || m.StartSpawned? || m.InRaise? || m.Raising? ||
    m.InSnapshot? || m.Snapped? || m.InClear? || m.Cleared?
  }

  predicate MainWants(m: MainPc) {
    m.Idle? || m.Started? || m.Raised? || m == Waiting(THREADS_COUNT)
  }

  /** A worker that has seen a clear flag and may still create its replacement. */
  predicate MaySpawn(pc: Pc) {
    pc.Roll? || pc.Respawn? || pc.InRespawn? || pc.Detached? || pc.Removed?
  }

  ghost predicate IsOrder(order: seq<Tid>, members: set<Tid>) {
    (forall t :: t in order <==> t in members) && |order| == |members|
  }

  // ----- Steps -----

  ghost predicate Enabled(s: State, m: Move) {
    match m
    case MainMove(order) =>
      && (MainWants(s.main) ==> s.lock == None)
      && (s.main.Starting? ==> s.main.added <= THREADS_COUNT)
      && (s.main == InSnapshot ==> IsOrder(order, s.javaScriptThreads))
      && (s.main.Waiting? && s.main.k != THREADS_COUNT ==>
            && s.main.k < |s.snapshot| && s.snapshot[s.main.k] < |s.threads|
            && (s.threads[s.snapshot[s.main.k]] == Finished || s.snapshot[s.main.k] in s.detached))
      && s.main != Done && s.main != AssertionFailed
    case WorkerMove(t, _) =>
      && t < |s.threads| && s.threads[t] != Finished
      && (Wants(s.threads[t]) ==> s.lock == None)
  }

  function MainStep(s: State, order: seq<Tid>): State {
    match s.main
    case Idle => s.(main := Starting(0), lock := Some(MainThread))
    case Starting(i) =>
      if i < THREADS_COUNT then s.(threads := s.threads + [NewContext], main := StartSpawned(i, |s.threads|))
      else s.(main := Started, lock := None)
    case StartSpawned(i, c) => s.(javaScriptThreads := s.javaScriptThreads + {c}, main := Starting(i + 1))
    case Started => s.(main := InRaise, lock := Some(MainThread))
    case InRaise => s.(shouldTerminate := true, mark := |s.threads|, main := Raising)
    case Raising => s.(main := Raised, lock := None)
    case Raised => s.(main := InSnapshot, lock := Some(MainThread))
    case InSnapshot =>
      s.(snapshot := order, main := if |order| == THREADS_COUNT then Snapped else AssertionFailed)
    case Snapped => s.(main := Waiting(0), lock := None)
    case Waiting(k) =>
      if k == THREADS_COUNT then s.(main := InClear, lock := Some(MainThread)) else s.(main := Waiting(k + 1))
    case InClear => s.(javaScriptThreads := {}, main := Cleared)
    case Cleared => s.(main := Done, lock := None)
    case Done => s
    case AssertionFailed => s
  }

  /** A worker's next position where the step only takes or gives back the lock, or reads the flag. */
  function NextPc(pc: Pc, shouldTerminate: bool, again: bool): Pc {
    match pc
    case NewContext => InNewContext
    case InNewContext => NewScript
    case NewScript => InNewScript
    case InNewScript => Evaluate
    case Evaluate => InEvaluate
    case InEvaluate => Objects
    case Objects => InObjects
    case InObjects => Check
    case Check => InCheck
    case InCheck => if shouldTerminate then Cleanup else Roll
    case Roll => if again then Evaluate else Respawn
    case Respawn => InRespawn
    case InRespawn => Detached
    case Detached => Removed
    case Removed => pc
    case Spawned(_) => Added
    case Added => Cleanup
    case Cleanup => InCleanup
    case InCleanup => Finished
    case Finished => Finished
  }

  function LockAfter(pc: Pc, next: Pc, t: Tid, lock: Option<Owner>): Option<Owner> {
    if Holds(next) then Some(Worker(t)) else if Holds(pc) then None else lock
  }

  function WorkerStep(s: State, t: Tid, again: bool): State
    requires t < |s.threads|
  {
    var pc := s.threads[t];
    if pc == Removed then
      s.(threads := s.threads[t := Spawned(|s.threads|)] + [NewContext])
    else
      var next := NextPc(pc, s.shouldTerminate, again);
      s.(threads := s.threads[t := next],
         lock := LockAfter(pc, next, t, s.lock),
         detached := if pc == InRespawn then s.detached + {t} else s.detached,
         javaScriptThreads :=
           if pc == Detached then s.javaScriptThreads - {t}
           else if pc.Spawned? then s.javaScriptThreads + {pc.child}
           else s.javaScriptThreads)
  }

  function Step(s: State, m: Move): State
    requires Enabled(s, m)
  {
    match m
    case MainMove(order) => MainStep(s, order)
    case WorkerMove(t, again) => WorkerStep(s, t, again)
  }

  /** Every step of the run is enabled where it is taken. */
  ghost predicate IsRun(s: State, moves: seq<Move>)
    decreases |moves|
  {
    moves != [] ==> Enabled(s, moves[0]) && IsRun(Step(s, moves[0]), moves[1..])
  }

  ghost function After(s: State, moves: seq<Move>): State
    requires IsRun(s, moves)
    decreases |moves|
  {
    if moves == [] then s else After(Step(s, moves[0]), moves[1..])
  }

  // ----- The invariant -----

  /** Between the creation of a thread and its entry in the set. */
  ghost predicate Pending(s: State, t: Tid) {
    (s.main.StartSpawned? && s.main.child == t) ||
    (s.lock.Some? && s.lock.value.Worker? && s.lock.value.t < |s.threads| && s.threads[s.lock.value.t] == Spawned(t))
  }

  /** A thread belongs in the set until it has removed itself. */
  ghost predicate Belongs(s: State, t: Tid) {
    t < |s.threads| && (t in s.detached ==> s.threads[t] == Detached) && !Pending(s, t)
  }

  ghost predicate LockOk(s: State) {
    && (MainHolds(s.main) <==> s.lock == Some(MainThread))
    && (forall t :: 0 <= t < |s.threads| ==> (Holds(s.threads[t]) <==> s.lock == Some(Worker(t))))
    && (s.lock.Some? && s.lock.value.Worker? ==> s.lock.value.t < |s.threads|)
  }

  ghost predicate BeforeClear(m: MainPc) {
    !m.Cleared? && !m.Done? && !m.AssertionFailed?
  }

  /** One place is empty while a worker is between removing itself and entering its replacement. */
  ghost function Missing(s: State): nat {
    if s.lock.Some? && s.lock.value.Worker? && s.lock.value.t < |s.threads| &&
       (s.threads[s.lock.value.t].Removed? || s.threads[s.lock.value.t].Spawned?) then 1 else 0
  }

  ghost function Wanted(m: MainPc): nat {
    match m
    case Idle => 0
    case Starting(i) => i
    case StartSpawned(i, _) => i
    case _ => THREADS_COUNT
  }

  ghost predicate SetOk(s: State) {
    BeforeClear(s.main) ==>
      && (forall t :: t in s.javaScriptThreads <==> Belongs(s, t))
      && |s.javaScriptThreads| + Missing(s) == Wanted(s.main)
  }

  /** A worker that has called detachThread and still holds the lock. */
  predicate Respawning(pc: Pc) {
    pc.Detached? || pc.Removed? || pc.Spawned? || pc.Added?
  }

  /** Having called detachThread shows in the position. */
  ghost predicate DetachOk(s: State) {
    && (forall t :: t in s.detached ==>
          t < |s.threads| && (Respawning(s.threads[t]) || s.threads[t].Cleanup? || s.threads[t].InCleanup? ||
                              s.threads[t].Finished?))
    && (forall t :: 0 <= t < |s.threads| && Respawning(s.threads[t]) ==> t in s.detached)
    && (forall t :: 0 <= t < |s.threads| && s.threads[t].Spawned? ==>
          t < s.threads[t].child < |s.threads| && s.threads[s.threads[t].child] == NewContext)
  }

  ghost predicate BeforeRaise(m: MainPc) {
    m.Idle? || m.Starting? || m.StartSpawned? || m.Started? || m.InRaise?
  }

  ghost predicate MainOk(s: State) {
    && (s.main.Starting? ==> s.main.added <= THREADS_COUNT)
    && (s.main.StartSpawned? ==> 
          s.main.added < THREADS_COUNT && s.main.child < |s.threads| && s.threads[s.main.child] == NewContext)
    && (s.main.Waiting? ==> s.main.k <= THREADS_COUNT)
    && (s.main.Waiting? || s.main.Snapped? ==>
          |s.snapshot| == THREADS_COUNT && forall i :: 0 <= i < |s.snapshot| ==> s.snapshot[i] < |s.threads|)
    && (s.main.Idle? ==> s.threads == [])
    && (s.shouldTerminate <==> !BeforeRaise(s.main))
    && s.main != AssertionFailed
  }

  ghost predicate Inv(s: State) {
    LockOk(s) && DetachOk(s) && MainOk(s) && SetOk(s)
  }

  lemma InitInv()
    ensures Inv(INIT)
  {
  }

  lemma {:induction false} MainKeepsMain(s: State, order: seq<Tid>)
    requires Inv(s) && Enabled(s, MainMove(order))
    ensures MainOk(MainStep(s, order))
  {
    hide DetachOk;
    if s.main == InSnapshot {
      assert Missing(s) == 0;
      assert |order| == THREADS_COUNT;
      forall i | 0 <= i < |order| ensures order[i] < |s.threads| {
        assert order[i] in s.javaScriptThreads;
        assert Belongs(s, order[i]);
      }
    }
  }

  lemma {:induction false} MainKeepsLock(s: State, order: seq<Tid>)
    requires Inv(s) && Enabled(s, MainMove(order))
    ensures LockOk(MainStep(s, order))
  {
    MainKeepsMain(s, order);
    hide SetOk, DetachOk;
  }

  lemma {:induction false} MainKeepsDetach(s: State, order: seq<Tid>)
    requires Inv(s) && Enabled(s, MainMove(order))
    ensures DetachOk(MainStep(s, order))
  {
    hide SetOk, LockOk, MainOk;
  }

  /** Main only enters new threads; it changes nothing for the others. */
  lemma {:induction false} MainKeepsSet(s: State, order: seq<Tid>)
    requires Inv(s) && Enabled(s, MainMove(order))
    ensures SetOk(MainStep(s, order))
  {
    hide MainOk, DetachOk, Belongs;
    var s' := MainStep(s, order);
    if BeforeClear(s'.main) {
      assert Missing(s') == Missing(s);
      forall t: Tid ensures t in s'.javaScriptThreads <==> Belongs(s', t) {
        MainBelongs(s, order, t);
      }
      if s.main.StartSpawned? {
        ChildPending(s);
      }
    }
  }

  lemma {:induction false} ChildPending(s: State)
    requires s.main.StartSpawned?
    ensures !Belongs(s, s.main.child)
  {
  }

  lemma {:induction false} MainBelongs(s: State, order: seq<Tid>, t: Tid)
    requires Inv(s) && Enabled(s, MainMove(order))
    ensures Belongs(MainStep(s, order), t) <==> Belongs(s, t) || (s.main.StartSpawned? && t == s.main.child)
  {
    hide SetOk;
  }

  lemma {:induction false} MainKeepsInv(s: State, order: seq<Tid>)
    requires Inv(s) && Enabled(s, MainMove(order))
    ensures Inv(MainStep(s, order))
  {
    MainKeepsLock(s, order);
    MainKeepsDetach(s, order);
    MainKeepsMain(s, order);
    MainKeepsSet(s, order);
  }

  lemma {:induction false} WorkerKeepsLock(s: State, t: Tid, again: bool)
    requires Inv(s) && Enabled(s, WorkerMove(t, again))
    ensures LockOk(WorkerStep(s, t, again))
  {
    hide SetOk, DetachOk;
  }

  lemma {:induction false} WorkerKeepsDetach(s: State, t: Tid, again: bool)
    requires Inv(s) && Enabled(s, WorkerMove(t, again))
    ensures DetachOk(WorkerStep(s, t, again))
  {
    hide SetOk, MainOk, LockOk, DetachOk;
    if s.threads[t] == Removed {
      SpawnKeepsDetach(s, t, again);
    } else {
      StepKeepsDetach(s, t, again);
    }
  }

  lemma {:induction false} StepKeepsDetach(s: State, t: Tid, again: bool)
    requires LockOk(s) && DetachOk(s) && Enabled(s, WorkerMove(t, again)) && s.threads[t] != Removed
    ensures DetachOk(WorkerStep(s, t, again))
  {
    var s' := WorkerStep(s, t, again);
    assert s'.threads == s.threads[t := NextPc(s.threads[t], s.shouldTerminate, again)];
    if s.threads[t] == NewContext {
      NewcomerAlone(s, t, again);
    }
    hide LockOk;
  }

  /** A thread leaves its first position only when no other holds the lock. */
  lemma {:induction false} NewcomerAlone(s: State, t: Tid, again: bool)
    requires LockOk(s) && Enabled(s, WorkerMove(t, again)) && s.threads[t] == NewContext
    ensures forall u :: 0 <= u < |s.threads| ==> !s.threads[u].Spawned?
  {
    assert forall u :: 0 <= u < |s.threads| ==> !Holds(s.threads[u]);
  }

  lemma {:induction false} SpawnKeepsDetach(s: State, t: Tid, again: bool)
    requires LockOk(s) && DetachOk(s) && Enabled(s, WorkerMove(t, again)) && s.threads[t] == Removed
    ensures DetachOk(WorkerStep(s, t, again))
  {
    var s' := WorkerStep(s, t, again);
    assert s'.threads == s.threads[t := Spawned(|s.threads|)] + [NewContext] && s'.detached == s.detached;
    assert forall u :: 0 <= u < |s.threads| && u != t ==> !s.threads[u].Spawned?;
  }

  lemma {:induction false} WorkerKeepsMain(s: State, t: Tid, again: bool)
    requires Inv(s) && Enabled(s, WorkerMove(t, again))
    ensures MainOk(WorkerStep(s, t, again))
  {
    hide SetOk, DetachOk;
  }

  /** Who belongs to the set after a worker's step. */
  lemma {:induction false} BelongsAfter(s: State, t: Tid, again: bool, u: Tid)
    requires Inv(s) && Enabled(s, WorkerMove(t, again))
    ensures var pc, after := s.threads[t], Belongs(WorkerStep(s, t, again), u);
            if pc == Detached then after <==> Belongs(s, u) && u != t
            else if pc.Spawned? then after <==> Belongs(s, u) || u == pc.child
            else after <==> Belongs(s, u)
  {
    hide SetOk;
    WorkerKeepsLock(s, t, again);
    WorkerKeepsDetach(s, t, again);
    PendingAfter(s, t, again, u);
  }

  lemma {:induction false} PendingAfter(s: State, t: Tid, again: bool, u: Tid)
    requires Inv(s) && Enabled(s, WorkerMove(t, again))
    ensures var pc, after := s.threads[t], Pending(WorkerStep(s, t, again), u);
            if pc == Removed then after <==> u == |s.threads|
            else if pc.Spawned? then !after
            else after <==> Pending(s, u)
  {
    hide SetOk;
  }

  lemma {:induction false} MissingAfter(s: State, t: Tid, again: bool)
    requires Inv(s) && Enabled(s, WorkerMove(t, again))
    ensures Missing(WorkerStep(s, t, again)) ==
            if s.threads[t] == Detached then 1 else if s.threads[t].Spawned? then 0 else Missing(s)
    ensures Holds(s.threads[t]) ==> Missing(s) == if s.threads[t].Removed? || s.threads[t].Spawned? then 1 else 0
  {
    hide SetOk;
  }

  lemma {:induction false} WorkerKeepsSet(s: State, t: Tid, again: bool)
    requires Inv(s) && Enabled(s, WorkerMove(t, again))
    ensures SetOk(WorkerStep(s, t, again))
  {
    hide LockOk, DetachOk, MainOk, Pending, Missing;
    var s' := WorkerStep(s, t, again);
    MissingAfter(s, t, again);
    if BeforeClear(s.main) {
      forall u: Tid ensures u in s'.javaScriptThreads <==> Belongs(s', u) {
        BelongsAfter(s, t, again, u);
      }
      SizeAfter(s, t, again);
    }
  }

  lemma {:induction false} SizeAfter(s: State, t: Tid, again: bool)
    requires Inv(s) && Enabled(s, WorkerMove(t, again)) && BeforeClear(s.main)
    ensures |WorkerStep(s, t, again).javaScriptThreads| + Missing(WorkerStep(s, t, again)) == Wanted(s.main)
  {
    MissingAfter(s, t, again);
    var pc := s.threads[t];
    if pc == Detached {
      assert Belongs(s, t);
    } else if pc.Spawned? {
      assert !Belongs(s, pc.child);
    }
  }

  lemma {:induction false} WorkerKeepsInv(s: State, t: Tid, again: bool)
    requires Inv(s) && Enabled(s, WorkerMove(t, again))
    ensures Inv(WorkerStep(s, t, again))
  {
    WorkerKeepsLock(s, t, again);
    WorkerKeepsDetach(s, t, again);
    WorkerKeepsMain(s, t, again);
    WorkerKeepsSet(s, t, again);
  }

  lemma {:induction false} StepKeepsInv(s: State, m: Move)
    requires Inv(s) && Enabled(s, m)
    ensures Inv(Step(s, m))
  {
    match m
    case MainMove(order) => MainKeepsInv(s, order);
    case WorkerMove(t, again) => WorkerKeepsInv(s, t, again);
  }

  lemma {:induction false} RunKeepsInv(s: State, moves: seq<Move>)
    requires Inv(s) && IsRun(s, moves)
    ensures Inv(After(s, moves))
    decreases |moves|
  {
    hide Inv;
    if moves != [] {
      StepKeepsInv(s, moves[0]);
      RunKeepsInv(Step(s, moves[0]), moves[1..]);
    }
  }

  // ----- Safety over every run -----

  /** Some interleaving leads here from the start. */
  ghost predicate Reachable(s: State) {
    exists moves :: IsRun(INIT, moves) && After(INIT, moves) == s
  }

  lemma {:induction false} ReachableInv(s: State)
    requires Reachable(s)
    ensures Inv(s) && LateOk(s)
  {
    var moves :| IsRun(INIT, moves) && After(INIT, moves) == s;
    InitInv();
    RunKeepsInv(INIT, moves);
    RunKeepsLate(INIT, moves);
  }

  /** From the return of start until the clear in stop: whenever the lock is free the set has exactly
      four members, and every thread that has not respawned is one of them. The size assertion
      in stop never fails. */
  lemma {:induction false} PoolSafety(s: State)
    requires Reachable(s)
    ensures s.main != AssertionFailed
    ensures s.lock == None && HasStarted(s.main) && BeforeClear(s.main) ==>
              && |s.javaScriptThreads| == THREADS_COUNT
              && s.javaScriptThreads == set t | 0 <= t < |s.threads| && t !in s.detached
  {
    ReachableInv(s);
    if s.lock == None && HasStarted(s.main) && BeforeClear(s.main) {
      forall t: Tid ensures t in s.javaScriptThreads <==> t < |s.threads| && t !in s.detached {
        assert t in s.javaScriptThreads <==> Belongs(s, t);
      }
    }
  }

  ghost predicate HasStarted(m: MainPc) {
    !m.Idle? && !m.Starting? && !m.StartSpawned?
  }

  // ----- After the flag is raised -----

  ghost function Spawners(s: State): set<Tid> {
    set t | 0 <= t < |s.threads| && MaySpawn(s.threads[t])
  }

  /** Threads created since, together with those that may still create one, are at most four;
      and none of the former will ever create another. */
  ghost predicate LateOk(s: State) {
    s.shouldTerminate ==>
      && s.mark <= |s.threads|
      && (|s.threads| - s.mark) + |Spawners(s)| <= THREADS_COUNT
      && forall t :: s.mark <= t < |s.threads| ==>
           !MaySpawn(s.threads[t]) && !s.threads[t].Spawned? && !s.threads[t].Added? && t !in s.detached
  }

  lemma {:induction false} MainKeepsLate(s: State, order: seq<Tid>)
    requires Inv(s) && LateOk(s) && Enabled(s, MainMove(order))
    ensures LateOk(MainStep(s, order))
  {
    var s' := MainStep(s, order);
    assert s.shouldTerminate ==> s'.threads == s.threads && Spawners(s') == Spawners(s);
    if s.main == InRaise {
      forall t | t in Spawners(s) ensures t in s.javaScriptThreads {
        assert Belongs(s, t);
      }
      SubsetSize(Spawners(s), s.javaScriptThreads);
      assert Spawners(s') == Spawners(s);
    }
  }

  lemma {:induction false} SubsetSize(a: set<Tid>, b: set<Tid>)
    requires a <= b
    ensures |a| <= |b|
  {
    assert b == a + (b - a);
  }

  /** With the flag raised no worker joins those that may still spawn. */
  lemma {:induction false} SpawnersAfter(s: State, t: Tid, again: bool)
    requires s.shouldTerminate && Enabled(s, WorkerMove(t, again))
    ensures var s' := WorkerStep(s, t, again);
            Spawners(s') == if MaySpawn(s'.threads[t]) then Spawners(s) else Spawners(s) - {t}
    ensures MaySpawn(WorkerStep(s, t, again).threads[t]) ==> MaySpawn(s.threads[t])
  {
    var s' := WorkerStep(s, t, again);
    forall u: Tid ensures u in Spawners(s') <==> u in Spawners(s) && (u == t ==> MaySpawn(s'.threads[t])) {
    }
  }

  lemma {:induction false} WorkerKeepsLate(s: State, t: Tid, again: bool)
    requires Inv(s) && LateOk(s) && Enabled(s, WorkerMove(t, again))
    ensures LateOk(WorkerStep(s, t, again))
  {
    hide SetOk, LockOk, MainOk, Spawners;
    if s.shouldTerminate {
      SpawnersAfter(s, t, again);
      SpawnerCounts(s, t);
    }
  }

  lemma {:induction false} SpawnerCounts(s: State, t: Tid)
    requires t < |s.threads|
    ensures |Spawners(s) - {t}| == |Spawners(s)| - if MaySpawn(s.threads[t]) then 1 else 0
  {
    if !MaySpawn(s.threads[t]) {
      assert Spawners(s) - {t} == Spawners(s);
    }
  }

  lemma {:induction false} RunKeepsLate(s: State, moves: seq<Move>)
    requires Inv(s) && LateOk(s) && IsRun(s, moves)
    ensures LateOk(After(s, moves))
    decreases |moves|
  {
    hide Inv, LateOk;
    if moves != [] {
      StepKeepsInv(s, moves[0]);
      match moves[0] {
        case MainMove(order) => MainKeepsLate(s, order);
        case WorkerMove(t, again) => WorkerKeepsLate(s, t, again);
      }
      RunKeepsLate(Step(s, moves[0]), moves[1..]);
    }
  }

  /** Once the flag is raised at most four more threads are ever created,
      and no thread created after that respawns. */
  lemma {:induction false} FewLateThreads(s: State)
    requires Reachable(s) && s.shouldTerminate
    ensures |s.threads| <= s.mark + THREADS_COUNT
    ensures forall t :: s.mark <= t < |s.threads| ==> t !in s.detached
  {
    ReachableInv(s);
  }

  // ----- After the set is cleared -----

  /** The set holds exactly the threads from number `n` on that belong in it, and any thread about to be entered is
      one of those. */
  ghost predicate ClearedOk(s: State, n: nat) {
    && (s.main.Cleared? || s.main.Done?) && s.mark <= n <= |s.threads|
    && (forall t :: t in s.javaScriptThreads <==> n <= t && Belongs(s, t))
    && (forall t :: 0 <= t < |s.threads| && s.threads[t].Spawned? ==> n <= s.threads[t].child)
  }

  lemma {:induction false} WorkerKeepsCleared(s: State, t: Tid, again: bool, n: nat)
    requires Inv(s) && ClearedOk(s, n) && Enabled(s, WorkerMove(t, again))
    ensures ClearedOk(WorkerStep(s, t, again), n)
  {
    hide Inv, Belongs;
    var s' := WorkerStep(s, t, again);
    forall u: Tid ensures u in s'.javaScriptThreads <==> n <= u && Belongs(s', u) {
      BelongsAfter(s, t, again, u);
    }
  }

  lemma {:induction false} MainKeepsCleared(s: State, order: seq<Tid>, n: nat)
    requires LockOk(s) && ClearedOk(s, n) && Enabled(s, MainMove(order))
    ensures ClearedOk(MainStep(s, order), n)
  {
    var s' := MainStep(s, order);
    assert s.main == Cleared && s.lock == Some(MainThread);
    assert forall t :: Belongs(s', t) <==> Belongs(s, t);
  }

  lemma {:induction false} RunKeepsCleared(s: State, moves: seq<Move>, n: nat)
    requires Inv(s) && ClearedOk(s, n) && IsRun(s, moves)
    ensures ClearedOk(After(s, moves), n)
    decreases |moves|
  {
    hide DetachOk, MainOk, SetOk, LockOk, ClearedOk;
    if moves != [] {
      StepKeepsInv(s, moves[0]);
      match moves[0] {
        case MainMove(order) => MainKeepsCleared(s, order, n);
        case WorkerMove(t, again) => WorkerKeepsCleared(s, t, again, n);
      }
      RunKeepsCleared(Step(s, moves[0]), moves[1..], n);
    }
  }

  lemma {:induction false} ClearClears(s: State, order: seq<Tid>)
    requires Inv(s) && LateOk(s) && s.main == InClear
    ensures ClearedOk(MainStep(s, order), |s.threads|)
  {
    assert forall t :: 0 <= t < |s.threads| ==> !Holds(s.threads[t]);
  }

  /** From the clear on the set holds exactly the threads created since, each from the moment at which the worker
      that respawned enters its replacement. */
  lemma {:induction false} ClearedForGood(s: State, order: seq<Tid>, moves: seq<Move>)
    requires Reachable(s) && s.main == InClear && IsRun(MainStep(s, order), moves)
    ensures var s' := After(MainStep(s, order), moves);
            forall t :: t in s'.javaScriptThreads <==> |s.threads| <= t < |s'.threads| && !Pending(s', t)
  {
    hide Inv, Pending, After, IsRun, MainStep;
    var s0 := MainStep(s, order);
    ReachableInv(s);
    MainKeepsInv(s, order);
    MainKeepsLate(s, order);
    ClearClears(s, order);
    RunKeepsCleared(s0, moves, |s.threads|);
    RunKeepsInv(s0, moves);
    RunKeepsLate(s0, moves);
    LateBelong(After(s0, moves), |s.threads|);
  }

  lemma {:induction false} LateBelong(s: State, n: nat)
    requires Inv(s) && LateOk(s) && ClearedOk(s, n)
    ensures forall t :: t in s.javaScriptThreads <==> n <= t < |s.threads| && !Pending(s, t)
  {
    hide LockOk, DetachOk, SetOk, Pending;
    assert s.shouldTerminate;
  }

  // ----- Termination -----

  /** Steps a worker still takes once the flag is raised; a possible replacement is paid for in advance. */
  function Work(pc: Pc): nat {
    match pc
    case NewContext => 14
    case InNewContext => 13
    case NewScript => 12
    case InNewScript => 11
    case Roll => 25
    case Respawn => 24
    case InRespawn => 23
    case Detached => 22
    case Removed => 21
    case Evaluate => 9
    case InEvaluate => 8
    case Objects => 7
    case InObjects => 6
    case Check => 5
    case InCheck => 4
    case Spawned(_) => 6
    case Added => 5
    case Cleanup => 2
    case InCleanup => 1
    case Finished => 0
  }

  ghost function TotalWork(threads: seq<Pc>): nat {
    if threads == [] then 0 else TotalWork(threads[..|threads| - 1]) + Work(threads[|threads| - 1])
  }

  ghost function MainWork(m: MainPc): nat {
    match m
    case Raising => 12
    case Raised => 11
    case InSnapshot => 10
    case Snapped => 9
    case Waiting(k) => if k <= THREADS_COUNT then 8 - k else 0
    case InClear => 3
    case Cleared => 2
    case Done => 0
    case _ => 13
  }

  ghost function Remaining(s: State): nat {
    TotalWork(s.threads) + MainWork(s.main)
  }

  lemma {:induction false} WorkUpdated(threads: seq<Pc>, t: nat, pc: Pc)
    requires t < |threads|
    ensures TotalWork(threads[t := pc]) == TotalWork(threads) - Work(threads[t]) + Work(pc)
  {
    hide Work;
    var n := |threads| - 1;
    if t < n {
      WorkUpdated(threads[..n], t, pc);
      assert threads[t := pc][..n] == threads[..n][t := pc];
    } else {
      assert threads[t := pc][..n] == threads[..n];
    }
  }

  lemma {:induction false} NextUsesWork(pc: Pc, again: bool, n: nat)
    ensures pc != Finished && pc != Removed ==> Work(NextPc(pc, true, again)) < Work(pc)
    ensures Work(Spawned(n)) + Work(NewContext) < Work(Removed)
  {
  }

  lemma {:induction false} WorkerUsesWork(s: State, t: Tid, again: bool)
    requires s.shouldTerminate && Enabled(s, WorkerMove(t, again))
    ensures TotalWork(WorkerStep(s, t, again).threads) < TotalWork(s.threads)
  {
    hide Work, NextPc, LockAfter;
    NextUsesWork(s.threads[t], again, |s.threads|);
    if s.threads[t] == Removed {
      var spawned := s.threads[t := Spawned(|s.threads|)];
      WorkUpdated(s.threads, t, Spawned(|s.threads|));
      assert (spawned + [NewContext])[..|spawned|] == spawned;
    } else {
      WorkUpdated(s.threads, t, NextPc(s.threads[t], true, again));
    }
  }

  lemma {:induction false} MainUsesWork(s: State, order: seq<Tid>)
    requires MainOk(s) && MainOk(MainStep(s, order)) && s.shouldTerminate && Enabled(s, MainMove(order))
    ensures MainStep(s, order).threads == s.threads
    ensures MainWork(MainStep(s, order).main) < MainWork(s.main)
  {
  }

  /** With the flag raised every step of any thread uses up work. */
  lemma {:induction false} StepUsesWork(s: State, m: Move)
    requires Inv(s) && s.shouldTerminate && Enabled(s, m)
    ensures Remaining(Step(s, m)) < Remaining(s) && Step(s, m).shouldTerminate
  {
    hide SetOk, DetachOk, LockOk, TotalWork, MainWork;
    match m
    case MainMove(order) =>
      MainKeepsMain(s, order);
      MainUsesWork(s, order);
    case WorkerMove(t, again) =>
      WorkerUsesWork(s, t, again);
  }

  /** A step that waits for no thread before it has finished. Main may also go past a thread that has detached
      itself, but nothing here depends on that. */
  ghost predicate Joins(s: State, m: Move) {
    && Enabled(s, m)
    && (m.MainMove? && s.main.Waiting? && s.main.k != THREADS_COUNT ==> s.threads[s.snapshot[s.main.k]] == Finished)
  }

  /** Some thread can always go on until stop has returned and every worker has finished, even if main waits for
      every thread of its snapshot to finish. */
  lemma {:induction false} NoDeadlock(s: State)
    requires Inv(s)
    requires !AllDone(s)
    ensures exists m :: Joins(s, m)
  {
    if s.lock.Some? && s.lock.value.Worker? {
      assert Joins(s, WorkerMove(s.lock.value.t, true));
    } else if s.main == InSnapshot {
      var order := SomeOrder(s.javaScriptThreads);
      assert Joins(s, MainMove(order));
    } else if s.lock == Some(MainThread) {
      assert Joins(s, MainMove([]));
    } else if t :| 0 <= t < |s.threads| && s.threads[t] != Finished {
      assert Joins(s, WorkerMove(t, true));
    } else {
      assert Joins(s, MainMove([]));
    }
  }

  lemma {:induction false} SomeOrder(members: set<Tid>) returns (order: seq<Tid>)
    ensures IsOrder(order, members)
    decreases members
  {
    if members == {} {
      order := [];
    } else {
      var t :| t in members;
      var rest := SomeOrder(members - {t});
      order := rest + [t];
      assert |members - {t}| == |members| - 1;
    }
  }

  /** From the moment the flag is raised no run goes on for more than the remaining work, and one that
      cannot go on without going past an unfinished thread has returned from stop with every worker finished. */
  lemma {:induction false} StopTerminates(s: State, moves: seq<Move>)
    requires Reachable(s) && s.shouldTerminate && IsRun(s, moves)
    ensures |moves| <= Remaining(s)
    ensures (forall m :: !Joins(After(s, moves), m)) ==> AllDone(After(s, moves))
  {
    ReachableInv(s);
    RunsOut(s, moves);
  }

  ghost predicate AllDone(s: State) {
    s.main == Done && forall t :: 0 <= t < |s.threads| ==> s.threads[t] == Finished
  }

  lemma {:induction false} RunsOut(s: State, moves: seq<Move>)
    requires Inv(s) && s.shouldTerminate && IsRun(s, moves)
    ensures |moves| <= Remaining(s)
    ensures (forall m :: !Joins(After(s, moves), m)) ==> AllDone(After(s, moves))
    decreases |moves|
  {
    hide Inv, Remaining, Enabled, Joins;
    if moves == [] {
      if !AllDone(s) {
        NoDeadlock(s);
      }
    } else {
      StepUsesWork(s, moves[0]);
      StepKeepsInv(s, moves[0]);
      RunsOut(Step(s, moves[0]), moves[1..]);
    }
  }

  // ----- Each worker on its own -----

  const OWN_STEPS := 12

  /** Own steps a worker can still take once the flag is raised. */
  function OwnSteps(pc: Pc): nat {
    match pc
    case NewContext => 12
    case InNewContext => 11
    case NewScript => 10
    case InNewScript => 9
    case Roll => 9
    case Evaluate => 8
    case InEvaluate => 7
    case Objects => 6
    case InObjects => 5
    case Check => 4
    case InCheck => 3
    case Respawn => 8
    case InRespawn => 7
    case Detached => 6
    case Removed => 5
    case Spawned(_) => 4
    case Added => 3
    case Cleanup => 2
    case InCleanup => 1
    case Finished => 0
  }

  ghost function OwnLeft(s: State, t: Tid): nat {
    if t < |s.threads| then OwnSteps(s.threads[t]) else OWN_STEPS
  }

  ghost function MovesOf(moves: seq<Move>, t: Tid): nat {
    if moves == [] then 0
    else (if moves[0].WorkerMove? && moves[0].t == t then 1 else 0) + MovesOf(moves[1..], t)
  }

  lemma {:induction false} MainStepCounts(s: State, order: seq<Tid>, t: Tid)
    requires Inv(s) && s.shouldTerminate && Enabled(s, MainMove(order))
    ensures OwnLeft(MainStep(s, order), t) <= OwnLeft(s, t) && MainStep(s, order).shouldTerminate
  {
    hide SetOk, DetachOk, LockOk;
  }

  lemma {:induction false} WorkerStepCounts(s: State, u: Tid, again: bool, t: Tid)
    requires Inv(s) && s.shouldTerminate && Enabled(s, WorkerMove(u, again))
    ensures OwnLeft(WorkerStep(s, u, again), t) + (if u == t then 1 else 0) <= OwnLeft(s, t)
    ensures WorkerStep(s, u, again).shouldTerminate
  {
    hide SetOk, DetachOk, LockOk;
  }

  lemma {:induction false} OwnStepCounts(s: State, m: Move, t: Tid)
    requires Inv(s) && s.shouldTerminate && Enabled(s, m)
    ensures OwnLeft(Step(s, m), t) + (if m.WorkerMove? && m.t == t then 1 else 0) <= OwnLeft(s, t)
    ensures Step(s, m).shouldTerminate
  {
    hide Inv, OwnLeft, MainStep, WorkerStep;
    match m
    case MainMove(order) => MainStepCounts(s, order, t);
    case WorkerMove(u, again) => WorkerStepCounts(s, u, again, t);
  }

  lemma {:induction false} OwnRunCounts(s: State, moves: seq<Move>, t: Tid)
    requires Inv(s) && s.shouldTerminate && IsRun(s, moves)
    ensures MovesOf(moves, t) + OwnLeft(After(s, moves), t) <= OwnLeft(s, t)
    decreases |moves|
  {
    hide Inv, Enabled, Step, OwnLeft;
    if moves != [] {
      OwnStepCounts(s, moves[0], t);
      StepKeepsInv(s, moves[0]);
      OwnRunCounts(Step(s, moves[0]), moves[1..], t);
    }
  }

  /** However the others are scheduled, a worker takes at most twelve more steps of its own,
      and one that has taken all the steps it had left is finished. */
  lemma {:induction false} WorkerBounded(s: State, moves: seq<Move>, t: Tid)
    requires Reachable(s) && s.shouldTerminate && IsRun(s, moves)
    ensures MovesOf(moves, t) + OwnLeft(After(s, moves), t) <= OwnLeft(s, t) <= OWN_STEPS
    ensures t < |s.threads| && MovesOf(moves, t) == OwnLeft(s, t) ==>
              t < |After(s, moves).threads| && After(s, moves).threads[t] == Finished
  {
    ReachableInv(s);
    OwnRunCounts(s, moves, t);
    ThreadsOnlyGrow(s, moves);
  }

  lemma {:induction false} ThreadsOnlyGrow(s: State, moves: seq<Move>)
    requires IsRun(s, moves)
    ensures |s.threads| <= |After(s, moves).threads|
    decreases |moves|
  {
    if moves != [] {
      assert |s.threads| <= |Step(s, moves[0]).threads|;
      ThreadsOnlyGrow(Step(s, moves[0]), moves[1..]);
    }
  }

  // ----- Who outlives stop -----

  lemma {:induction false} RunConcat(s: State, a: seq<Move>, b: seq<Move>)
    requires IsRun(s, a) && IsRun(After(s, a), b)
    ensures IsRun(s, a + b) && After(s, a + b) == After(After(s, a), b)
    decreases |a|
  {
    hide Enabled, Step;
    if a == [] {
      assert a + b == b;
    } else {
      RunConcat(Step(s, a[0]), a[1..], b);
      assert (a + b)[1..] == a[1..] + b;
    }
  }

  lemma {:induction false} RunStep(s: State, m: Move)
    requires Enabled(s, m)
    ensures IsRun(s, [m]) && After(s, [m]) == Step(s, m)
  {
    hide Enabled, Step;
    assert [m][1..] == [];
    assert IsRun(Step(s, m), []);
  }

  /** No worker may still create another, and those that have made way for another are finished. */
  ghost predicate NobodyElse(s: State) {
    forall t :: 0 <= t < |s.threads| ==> !MaySpawn(s.threads[t]) && (t in s.detached ==> s.threads[t] == Finished)
  }

  /** The snapshot is what the set holds when it is taken. */
  ghost predicate SnapOk(s: State) {
    s.main == Snapped ==> forall t :: t in s.snapshot <==> t in s.javaScriptThreads
  }

  lemma {:induction false} StepKeepsSnap(s: State, m: Move)
    requires Inv(s) && SnapOk(s) && Enabled(s, m)
    ensures SnapOk(Step(s, m))
  {
    hide SetOk, DetachOk;
    if m.WorkerMove? && s.main == Snapped {
      assert s.threads[m.t] == Roll;
    }
  }

  lemma {:induction false} RunKeepsSnap(s: State, moves: seq<Move>)
    requires Inv(s) && SnapOk(s) && IsRun(s, moves)
    ensures SnapOk(After(s, moves))
    decreases |moves|
  {
    hide Inv, SnapOk, Enabled, Step;
    if moves != [] {
      StepKeepsInv(s, moves[0]);
      StepKeepsSnap(s, moves[0]);
      RunKeepsSnap(Step(s, moves[0]), moves[1..]);
    }
  }

  /** When the snapshot has been taken it holds the threads that have not made way for another. */
  lemma {:induction false} SnapshotIs(s: State)
    requires Reachable(s) && s.main == Snapped
    ensures Inv(s) && s.shouldTerminate && |s.snapshot| == THREADS_COUNT && s.lock == Some(MainThread)
    ensures forall t :: 0 <= t < |s.threads| ==> !Holds(s.threads[t])
    ensures forall t: Tid :: t in s.snapshot <==> t < |s.threads| && t !in s.detached
  {
    ReachableInv(s);
    var moves :| IsRun(INIT, moves) && After(INIT, moves) == s;
    InitInv();
    RunKeepsSnap(INIT, moves);
    forall t: Tid ensures t in s.snapshot <==> t < |s.threads| && t !in s.detached {
      assert t in s.javaScriptThreads <==> Belongs(s, t);
    }
  }

  // ----- When nobody else is left, stop waits for all -----

  /** How many threads of the snapshot have been waited for. */
  ghost function Waited(m: MainPc): nat {
    match m
    case Snapped => 0
    case Waiting(k) => k
    case _ => THREADS_COUNT
  }

  ghost predicate Waits(s: State) {
    && s.shouldTerminate && (s.main.Snapped? || s.main.Waiting? || s.main.InClear? || s.main.Cleared? || s.main.Done?)
    && Waited(s.main) <= THREADS_COUNT == |s.snapshot|
    && NobodyElse(s)
    && (forall t: Tid :: t in s.snapshot <==> t < |s.threads| && t !in s.detached)
    && (forall i :: 0 <= i < Waited(s.main) ==> s.snapshot[i] < |s.threads| && s.threads[s.snapshot[i]] == Finished)
  }

  lemma {:induction false} WorkerKeepsWaits(s: State, t: Tid, again: bool)
    requires Inv(s) && Waits(s) && Enabled(s, WorkerMove(t, again))
    ensures Waits(WorkerStep(s, t, again))
  {
    hide SetOk, LockOk, MainOk;
    var pc := s.threads[t];
    assert t !in s.detached && !MaySpawn(pc) && !pc.Spawned? && !pc.Added?;
    var s' := WorkerStep(s, t, again);
    assert s'.threads == s.threads[t := NextPc(pc, true, again)] && s'.detached == s.detached;
    assert !MaySpawn(NextPc(pc, true, again));
  }

  lemma {:induction false} MainKeepsWaits(s: State, order: seq<Tid>)
    requires Inv(s) && Waits(s) && Enabled(s, MainMove(order))
    ensures Waits(MainStep(s, order))
  {
    hide SetOk, LockOk, MainOk, DetachOk;
    if s.main.Waiting? && s.main.k != THREADS_COUNT {
      assert s.snapshot[s.main.k] in s.snapshot;
    }
  }

  lemma {:induction false} RunWaits(s: State, moves: seq<Move>)
    requires Inv(s) && Waits(s) && IsRun(s, moves)
    ensures Waits(After(s, moves))
    decreases |moves|
  {
    hide Inv, Waits, Enabled;
    if moves != [] {
      StepKeepsInv(s, moves[0]);
      match moves[0] {
        case MainMove(order) => MainKeepsWaits(s, order);
        case WorkerMove(t, again) => WorkerKeepsWaits(s, t, again);
      }
      RunWaits(Step(s, moves[0]), moves[1..]);
    }
  }

  lemma {:induction false} WaitedForAll(s: State)
    requires Waits(s) && s.main == Done
    ensures AllDone(s)
  {
    forall t | 0 <= t < |s.threads| ensures s.threads[t] == Finished {
      if t !in s.detached {
        assert t in s.snapshot;
        var i :| 0 <= i < |s.snapshot| && s.snapshot[i] == t;
      }
    }
  }

  // ----- Otherwise it may return too early -----

  /** Runs one worker to its end, respawning if it can, while nobody else moves. */
  lemma {:induction false} RunOne(s: State, u: Tid) returns (moves: seq<Move>)
    requires s.shouldTerminate && u < |s.threads| && s.lock == if Holds(s.threads[u]) then Some(Worker(u)) else None
    ensures IsRun(s, moves)
    ensures var r := After(s, moves);
            && |r.threads| >= |s.threads| && r.threads[..|s.threads|] == s.threads[u := Finished] && r.lock == None
            && (MaySpawn(s.threads[u]) ==> |r.threads| > |s.threads|)
            && (forall t :: |s.threads| <= t < |r.threads| ==> r.threads[t] == NewContext)
            && r.main == s.main && r.snapshot == s.snapshot && r.shouldTerminate
    decreases OwnSteps(s.threads[u])
  {
    if s.threads[u] == Finished {
      moves := [];
      assert s.threads[u := Finished] == s.threads && s.threads[..|s.threads|] == s.threads;
    } else {
      var m := WorkerMove(u, false);
      var s' := Step(s, m);
      RunOneStep(s, u);
      var rest := RunOne(s', u);
      moves := [m] + rest;
      RunStep(s, m);
      RunConcat(s, [m], rest);
      var r, n := After(s', rest), |s.threads|;
      assert r.threads[..n] == r.threads[..|s'.threads|][..n] == s'.threads[u := Finished][..n];
      assert s'.threads[u := Finished][..n] == s.threads[u := Finished];
      forall t | n <= t < |r.threads| ensures r.threads[t] == NewContext {
        if t < |s'.threads| {
          assert r.threads[t] == r.threads[..|s'.threads|][t];
        }
      }
    }
  }

  lemma {:induction false} RunOneStep(s: State, u: Tid)
    requires s.shouldTerminate && u < |s.threads| && s.lock == if Holds(s.threads[u]) then Some(Worker(u)) else None
    requires s.threads[u] != Finished
    ensures Enabled(s, WorkerMove(u, false))
    ensures var s' := Step(s, WorkerMove(u, false));
            && |s'.threads| >= |s.threads| && OwnSteps(s'.threads[u]) < OwnSteps(s.threads[u])
            && s'.lock == (if Holds(s'.threads[u]) then Some(Worker(u)) else None)
            && s'.threads[..|s.threads|] == s.threads[u := s'.threads[u]]
            && (forall t :: |s.threads| <= t < |s'.threads| ==> s'.threads[t] == NewContext)
            && (MaySpawn(s.threads[u]) ==> |s'.threads| > |s.threads| || MaySpawn(s'.threads[u]))
            && s'.main == s.main && s'.snapshot == s.snapshot && s'.shouldTerminate
  {
  }

  /** Some worker that main does not wait for is unfinished, or one of the snapshot from `k` on will create it. */
  ghost predicate SomebodyElse(s: State, k: nat) {
    || (exists t: Tid :: t < |s.threads| && t !in s.snapshot && s.threads[t] != Finished)
    || (exists i :: k <= i < |s.snapshot| && s.snapshot[i] < |s.threads| && MaySpawn(s.threads[s.snapshot[i]]))
  }

  /** Main waits, nobody holds the lock, and the first `k` threads of the snapshot are finished. */
  ghost predicate Resting(s: State, k: nat) {
    && s.main == Waiting(0) && s.shouldTerminate && s.lock == None && k <= |s.snapshot| == THREADS_COUNT
    && (forall t :: 0 <= t < |s.threads| ==> !Holds(s.threads[t]))
    && (forall i :: 0 <= i < |s.snapshot| ==> s.snapshot[i] < |s.threads|)
    && (forall i :: 0 <= i < k ==> s.threads[s.snapshot[i]] == Finished)
  }

  lemma {:induction false} FinishSnapshot(s: State, k: nat) returns (moves: seq<Move>)
    requires Resting(s, k) && SomebodyElse(s, k)
    ensures IsRun(s, moves) && Resting(After(s, moves), THREADS_COUNT) && SomebodyElse(After(s, moves), THREADS_COUNT)
    decreases THREADS_COUNT - k
  {
    hide SomebodyElse;
    if k == THREADS_COUNT {
      moves := [];
    } else {
      var first := RunOne(s, s.snapshot[k]);
      var s' := After(s, first);
      OneFinished(s, k, s');
      var rest := FinishSnapshot(s', k + 1);
      moves := first + rest;
      RunConcat(s, first, rest);
    }
  }

  lemma {:induction false} OneFinished(s: State, k: nat, s': State)
    requires Resting(s, k) && SomebodyElse(s, k) && k < THREADS_COUNT
    requires |s'.threads| >= |s.threads| && s'.threads[..|s.threads|] == s.threads[s.snapshot[k] := Finished]
    requires forall t :: |s.threads| <= t < |s'.threads| ==> s'.threads[t] == NewContext
    requires MaySpawn(s.threads[s.snapshot[k]]) ==> |s'.threads| > |s.threads|
    requires s'.lock == None && s'.main == s.main && s'.snapshot == s.snapshot && s'.shouldTerminate
    ensures Resting(s', k + 1) && SomebodyElse(s', k + 1)
  {
    var n, u := |s.threads|, s.snapshot[k];
    forall t | 0 <= t < n ensures s'.threads[t] == s.threads[u := Finished][t] {
      assert s'.threads[t] == s'.threads[..n][t];
    }
    if t: Tid :| t < n && t !in s.snapshot && s.threads[t] != Finished {
      assert s'.threads[t] != Finished;
    } else {
      var i :| k <= i < |s.snapshot| && s.snapshot[i] < n && MaySpawn(s.threads[s.snapshot[i]]);
      if s.snapshot[i] == u {
        assert s'.threads[n] != Finished && n !in s.snapshot;
      } else {
        assert MaySpawn(s'.threads[s.snapshot[i]]);
      }
    }
  }

  /** With its threads finished, main goes to the end on its own. */
  lemma {:induction false} RunMain(s: State) returns (moves: seq<Move>)
    requires s.main.Waiting? && s.main.k <= THREADS_COUNT == |s.snapshot| && s.lock == None
    requires forall i :: 0 <= i < THREADS_COUNT ==> s.snapshot[i] < |s.threads| && s.threads[s.snapshot[i]] == Finished
    ensures IsRun(s, moves) && After(s, moves).main == Done && After(s, moves).threads == s.threads
    decreases THREADS_COUNT - s.main.k
  {
    var m := MainMove([]);
    var s' := Step(s, m);
    RunStep(s, m);
    if s.main.k < THREADS_COUNT {
      var rest := RunMain(s');
      moves := [m] + rest;
      RunConcat(s, [m], rest);
    } else {
      RunStep(s', m);
      RunConcat(s, [m], [m]);
      RunStep(Step(s', m), m);
      RunConcat(s, [m] + [m], [m]);
      moves := [m] + [m] + [m];
    }
  }

  lemma {:induction false} SomebodyOutlives(s: State) returns (moves: seq<Move>)
    requires Reachable(s) && s.main == Snapped && !NobodyElse(s)
    ensures IsRun(s, moves) && After(s, moves).main == Done && !AllDone(After(s, moves))
  {
    hide Inv;
    SnapshotIs(s);
    var m := MainMove([]);
    var s1 := Step(s, m);
    RunStep(s, m);
    FoundSomebody(s, s1);
    var middle := FinishSnapshot(s1, 0);
    var s2 := After(s1, middle);
    var last := RunMain(s2);
    RunConcat(s1, middle, last);
    RunConcat(s, [m], middle + last);
    moves := [m] + (middle + last);
  }

  lemma {:induction false} FoundSomebody(s: State, s1: State)
    requires Inv(s) && !NobodyElse(s) && |s.snapshot| == THREADS_COUNT && s.shouldTerminate
    requires forall t :: 0 <= t < |s.threads| ==> !Holds(s.threads[t])
    requires forall t: Tid :: t in s.snapshot <==> t < |s.threads| && t !in s.detached
    requires s1 == s.(main := Waiting(0), lock := None)
    ensures Resting(s1, 0) && SomebodyElse(s1, 0)
  {
    hide SetOk, LockOk, MainOk;
    forall i | 0 <= i < |s.snapshot| ensures s.snapshot[i] < |s.threads| {
      assert s.snapshot[i] in s.snapshot;
    }
    var t :| 0 <= t < |s.threads| && (MaySpawn(s.threads[t]) || (t in s.detached && s.threads[t] != Finished));
    if t in s.detached {
      assert t !in s1.snapshot && s1.threads[t] != Finished;
    } else {
      assert t in s.snapshot;
      var i :| 0 <= i < |s.snapshot| && s.snapshot[i] == t;
      assert MaySpawn(s1.threads[s1.snapshot[i]]);
    }
  }

  /** Stop returns only after every worker has finished, however the threads are scheduled from the snapshot on, if
      and only if at the snapshot no worker is past the flag check and every worker that has made way for another is
      finished. */
  lemma {:induction false} StopWaitsForAll(s: State)
    requires Reachable(s) && s.main == Snapped
    ensures (forall moves :: IsRun(s, moves) && After(s, moves).main == Done ==> AllDone(After(s, moves))) <==>
            NobodyElse(s)
  {
    hide Inv, AllDone;
    SnapshotIs(s);
    if NobodyElse(s) {
      forall moves | IsRun(s, moves) && After(s, moves).main == Done ensures AllDone(After(s, moves)) {
        RunWaits(s, moves);
        WaitedForAll(After(s, moves));
      }
    } else {
      var moves := SomebodyOutlives(s);
    }
  }

  // ----- A run in which a worker outlives stop -----

  lemma {:induction false} Extend(s: State, m: Move)
    requires Reachable(s) && Enabled(s, m)
    ensures Reachable(Step(s, m))
  {
    hide Enabled, Step;
    var moves :| IsRun(INIT, moves) && After(INIT, moves) == s;
    RunStep(s, m);
    RunConcat(INIT, moves, [m]);
  }

  /** Start has created and entered some threads, and none of them has moved. */
  lemma {:induction false} Starts(i: nat) returns (s: State)
    requires i <= THREADS_COUNT
    ensures Reachable(s) && s.main == Starting(i) && s.lock == Some(MainThread) && !s.shouldTerminate
    ensures |s.threads| == i && forall t :: 0 <= t < i ==> s.threads[t] == NewContext
  {
    if i == 0 {
      assert IsRun(INIT, []) && After(INIT, []) == INIT;
      assert Enabled(INIT, MainMove([]));
      Extend(INIT, MainMove([]));
      s := Step(INIT, MainMove([]));
    } else {
      var s0 := Starts(i - 1);
      Extend(s0, MainMove([]));
      var s1 := Step(s0, MainMove([]));
      Extend(s1, MainMove([]));
      s := Step(s1, MainMove([]));
    }
  }

  /** Steps of the first worker until it has respawned. */
  function ToCleanup(pc: Pc): nat {
    match pc
    case NewContext => 17
    case InNewContext => 16
    case NewScript => 15
    case InNewScript => 14
    case Evaluate => 13
    case InEvaluate => 12
    case Objects => 11
    case InObjects => 10
    case Check => 9
    case InCheck => 8
    case Roll => 7
    case Respawn => 6
    case InRespawn => 5
    case Detached => 4
    case Removed => 3
    case Spawned(_) => 2
    case Added => 1
    case _ => 0
  }

  lemma {:induction false} Respawns(s: State) returns (r: State)
    requires Reachable(s) && s.main == Started && |s.threads| > 0 && ToCleanup(s.threads[0]) > 0
    requires s.lock == if Holds(s.threads[0]) then Some(Worker(0)) else None
    ensures Reachable(r) && r.main == Started && r.lock == None
    ensures |r.threads| > 0 && r.threads[0] == Cleanup && 0 in r.detached
    decreases ToCleanup(s.threads[0])
  {
    var m := WorkerMove(0, false);
    ReachableInv(s);
    Extend(s, m);
    var s' := Step(s, m);
    if s.threads[0] == Added {
      r := s';
    } else {
      RespawnStep(s);
      r := Respawns(s');
    }
  }

  lemma {:induction false} RespawnStep(s: State)
    requires Inv(s) && s.main == Started && |s.threads| > 0 && ToCleanup(s.threads[0]) > 1
    requires s.lock == if Holds(s.threads[0]) then Some(Worker(0)) else None
    ensures Enabled(s, WorkerMove(0, false))
    ensures var s' := Step(s, WorkerMove(0, false));
            && s'.main == Started && |s'.threads| > 0 && 0 < ToCleanup(s'.threads[0]) < ToCleanup(s.threads[0])
            && s'.lock == if Holds(s'.threads[0]) then Some(Worker(0)) else None
  {
    hide SetOk, DetachOk, LockOk;
  }

  lemma {:induction false} RaisesAndSnaps(s: State) returns (r: State)
    requires Reachable(s) && s.main == Started && s.lock == None && |s.threads| > 0
    ensures Reachable(r) && r.main == Snapped && r.threads == s.threads && r.detached == s.detached
  {
    var m := MainMove([]);
    Extend(s, m);
    var s1 := Step(s, m);
    Extend(s1, m);
    var s2 := Step(s1, m);
    Extend(s2, m);
    var s3 := Step(s2, m);
    Extend(s3, m);
    var s4 := Step(s3, m);
    ReachableInv(s4);
    var order := SomeOrder(s4.javaScriptThreads);
    Extend(s4, MainMove(order));
    r := Step(s4, MainMove(order));
    ReachableInv(r);
  }

  /** It does happen: a worker that respawned before the snapshot need not have finished when stop returns. */
  lemma {:induction false} WorkerOutlivesStop() returns (moves: seq<Move>)
    ensures IsRun(INIT, moves) && After(INIT, moves).main == Done && !AllDone(After(INIT, moves))
  {
    hide Enabled, Step, AllDone;
    var s0 := Starts(THREADS_COUNT);
    var s1 := LeavesStart(s0);
    var s2 := Respawns(s1);
    var s3 := RaisesAndSnaps(s2);
    assert !NobodyElse(s3) by {
      assert s3.threads[0] == Cleanup && 0 in s3.detached;
    }
    var last := SomebodyOutlives(s3);
    var before :| IsRun(INIT, before) && After(INIT, before) == s3;
    RunConcat(INIT, before, last);
    moves := before + last;
  }

  lemma {:induction false} LeavesStart(s: State) returns (r: State)
    requires Reachable(s) && s.main == Starting(THREADS_COUNT)
    ensures Reachable(r) && r.main == Started && r.lock == None && r.threads == s.threads
  {
    Extend(s, MainMove([]));
    r := Step(s, MainMove([]));
  }
}
