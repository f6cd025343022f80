/** jQuery.Deferred (debian/jquery-1.9.1.js): three callback lists, of which the done and fail lists
    begin with callbacks that set the state, disable the other list and lock the progress list. */
module DeferredMachine {
  import opened Common
  import opened Callbacks
  import CallbackOptions
  import CallbackMemory

  datatype State = Pending | Resolved | Rejected

  /** The callbacks that Deferred itself puts in front of the done and fail lists. */
  const SET_STATE: Fn := 0
  const DISABLE_OTHER: Fn := 1
  const LOCK_PROGRESS: Fn := 2
  const INTERNAL: seq<Fn> := [SET_STATE, DISABLE_OTHER, LOCK_PROGRESS]

  predicate IsInternal(fn: Fn) { fn <= LOCK_PROGRESS }

  const ONCE_MEMORY := Options(true, true, false, false)
  const MEMORY := Options(false, true, false, false)

  datatype Deferred = Deferred(done: Machine, fail: Machine, progress: Machine, state: State)

  datatype Which = Done | Fail | Progress

  /** What code that holds the deferred or its promise can do, and callbacks returning. */
  datatype Event =
    | Fire(which: Which, data: Data)
    | Listen(which: Which, fns: seq<Fn>)
    | Return(which: Which, result: bool)

  function NewDeferred(): Deferred {
    Deferred(AddOp(Create(ONCE_MEMORY), INTERNAL), AddOp(Create(ONCE_MEMORY), INTERNAL), Create(MEMORY), Pending)
  }

  function List(d: Deferred, which: Which): Machine {
    match which case Done => d.done case Fail => d.fail case Progress => d.progress
  }

  function WithList(d: Deferred, which: Which, m: Machine): Deferred {
    match which
    case Done => d.(done := m)
    case Fail => d.(fail := m)
    case Progress => d.(progress := m)
  }

  /** What an internal callback of the done or fail list does. */
  function Effect(d: Deferred, which: Which, fn: Fn): Deferred {
    if which == Progress then d
    else if fn == SET_STATE then d.(state := if which == Done then Resolved else Rejected)
    else if fn == DISABLE_OTHER then
      if which == Done then d.(fail := DisableOp(d.fail)) else d.(done := DisableOp(d.done))
    else if fn == LOCK_PROGRESS then d.(progress := LockOp(d.progress))
    else d
  }

  ghost function Left(m: Machine): nat {
    if m.body.Firing? then 1 + |m.body.pending| else 0
  }

  /** Internal callbacks run and return without giving control to anyone else. */
  function RunInternals(d: Deferred, which: Which): Deferred
    decreases Left(List(d, which))
  {
    var m := List(d, which);
    if which != Progress && m.stack.None? && m.body.Firing? && IsInternal(m.body.current.fn) then
      ReturnShrinks(m);
      RunInternals(WithList(Effect(d, which, m.body.current.fn), which, ReturnOp(m, true)), which)
    else d
  }

  lemma {:induction false} ReturnShrinks(m: Machine)
    requires m.body.Firing? && m.stack.None?
    ensures Left(ReturnOp(m, true)) < Left(m)
  {
    var b := m.body;
    if b.pending == [] {
      assert ReturnOp(m, true) == Finish(m, b.skipped + b.ran);
    }
  }

  predicate Allowed(d: Deferred, e: Event) {
    match e
    case Fire(_, _) => true
    case Listen(_, fns) => forall i :: 0 <= i < |fns| ==> !IsInternal(fns[i])
    case Return(which, _) => Running(List(d, which))
  }

  function React(d: Deferred, e: Event): Deferred
    requires Allowed(d, e)
  {
    match e
    case Fire(which, data) => RunInternals(WithList(d, which, FireOp(List(d, which), data)), which)
    case Listen(which, fns) => WithList(d, which, AddOp(List(d, which), fns))
    case Return(which, result) => WithList(d, which, ReturnOp(List(d, which), result))
  }

  ghost predicate IsRun(d: Deferred, events: seq<Event>)
    decreases |events|
  {
    events != [] ==> Allowed(d, events[0]) && IsRun(React(d, events[0]), events[1..])
  }

  ghost function After(d: Deferred, events: seq<Event>): Deferred
    requires IsRun(d, events)
    decreases |events|
  {
    if events == [] then d else After(React(d, events[0]), events[1..])
  }

  // ----- Lists that fire once and remember -----

  /** Tickets count on from `from` without gaps, and only user callbacks are meant. */
  ghost predicate Numbered(list: seq<Entry>, from: nat) {
    forall i :: 0 <= i < |list| ==> list[i].ticket == from + i
  }

  ghost predicate UserEntries(list: seq<Entry>) {
    forall i :: 0 <= i < |list| ==> !IsInternal(list[i].fn)
  }

  ghost predicate Ready(m: Machine) {
    && m.opts == ONCE_MEMORY && m.stack == None && m.memory == None && !m.fired && m.log == []
    && m.body.Idle? && |m.body.list| == m.tickets >= 3 && Numbered(m.body.list, 0)
    && m.body.list[0].fn == SET_STATE && m.body.list[1].fn == DISABLE_OTHER && m.body.list[2].fn == LOCK_PROGRESS
    && UserEntries(m.body.list[3..])
  }

  /** A list that is firing or has fired: the callbacks called so far are exactly the first ones added,
      each once, all with the same data; the rest is pending. */
  ghost predicate Settled(m: Machine, data: Data) {
    && m.opts == ONCE_MEMORY && m.stack == None && m.memory == Some(data) && m.fired
    && (forall i :: 0 <= i < |m.log| ==> m.log[i].entry.ticket == i && m.log[i].data == data)
    && match m.body
       case Idle(list) => list == [] && |m.log| == m.tickets
       case Firing(skipped, ran, pending, current, d) =>
         skipped == [] && d == data && |m.log| + |pending| == m.tickets && Numbered(pending, |m.log|)
       case _ => false
  }

  lemma {:induction false} AppendedNumbered(list: seq<Entry>, fns: seq<Fn>, ticket: nat)
    ensures |Appended(false, list, fns, ticket)| == |fns|
    ensures Numbered(Appended(false, list, fns, ticket), ticket)
    ensures forall i :: 0 <= i < |fns| ==> Appended(false, list, fns, ticket)[i].fn == fns[i]
  {
    CallbackOptions.AppendedEach(list, fns, ticket);
  }

  lemma {:induction false} NextSettled(m: Machine, ran: seq<Entry>, pending: seq<Entry>, data: Data)
    requires m.opts == ONCE_MEMORY && m.stack == None && m.memory == Some(data) && m.fired
    requires forall i :: 0 <= i < |m.log| ==> m.log[i].entry.ticket == i && m.log[i].data == data
    requires |m.log| + |pending| == m.tickets && Numbered(pending, |m.log|)
    ensures Settled(Next(m, [], ran, pending, data), data)
  {
  }

  lemma {:induction false} ReturnSettled(m: Machine, result: bool, data: Data)
    requires Settled(m, data) && Running(m)
    ensures Settled(ReturnOp(m, result), data)
  {
    NextSettled(m, m.body.ran, m.body.pending, data);
  }

  lemma {:induction false} AddSettled(m: Machine, fns: seq<Fn>, data: Data)
    requires Settled(m, data)
    ensures Settled(AddOp(m, fns), data)
    ensures AddOp(m, fns).tickets == m.tickets + |fns|
  {
    hide Appended, Begin;
    var more := Appended(false, ListOf(m.body), fns, m.tickets);
    AppendedNumbered(ListOf(m.body), fns, m.tickets);
    if m.body.Idle? {
      AddResting(m, more, data);
    }
  }

  lemma {:induction false} AddResting(m: Machine, more: seq<Entry>, data: Data)
    requires Settled(m, data) && m.body.Idle? && Numbered(more, m.tickets)
    ensures var m' := Begin(m.(tickets := m.tickets + |more|), [] + more, data, 0);
            Settled(m', data) && m'.tickets == m.tickets + |more|
  {
    hide Begin;
    var m1 := m.(tickets := m.tickets + |more|);
    assert [] + more == more;
    SettledBegin(m1, more, data);
    NextSettled(m1.(passes := m.passes + 1), [], more, data);
  }

  lemma {:induction false} SettledBegin(m: Machine, list: seq<Entry>, data: Data)
    requires m.opts.memory && m.memory == Some(data) && m.fired
    ensures Begin(m, list, data, 0) == Next(m.(passes := m.passes + 1), [], [], list, data)
  {
    assert list[..0] == [] && list[0..] == list;
  }

  // ----- Settling -----

  function Other(which: Which): Which {
    if which == Done then Fail else Done
  }

  /** The first pass of a ready list when it makes its `k`-th call. */
  ghost function Stage(m: Machine, data: Data, k: nat): Machine
    requires m.body.Idle? && 1 <= k <= |m.body.list|
  {
    var list := m.body.list;
    m.(body := Firing([], list[..k], list[k..], list[k - 1], data),
       memory := Some(data), fired := true, passes := m.passes + 1,
       log := m.log + seq(k, i requires 0 <= i < k => Call(m.passes + 1, list[i], data)),
       accepted := m.accepted + [data], served := m.served + [data], servedIn := m.servedIn + [m.passes + 1])
  }

  lemma {:induction false} FireIsStage(m: Machine, data: Data)
    requires Ready(m)
    ensures FireOp(m, data) == Stage(m, data, 1)
  {
    var list := m.body.list;
    var m' := Serving(m.(accepted := m.accepted + [data]), data);
    assert list[..0] == [] && list[0..] == list && [] + [list[0]] == list[..1];
    assert FireOp(m, data) == Begin(m', list, data, 0);
    assert Begin(m', list, data, 0) == Next(Opened(m', data), [], [], list, data);
    assert [Call(m.passes + 1, list[0], data)] == seq(1, i requires 0 <= i < 1 => Call(m.passes + 1, list[i], data));
  }

  lemma {:induction false} ReturnIsStage(m: Machine, data: Data, k: nat)
    requires Ready(m) && 1 <= k < |m.body.list|
    ensures ReturnOp(Stage(m, data, k), true) == Stage(m, data, k + 1)
  {
    var list := m.body.list;
    assert list[k..][0] == list[k] && list[k..][1..] == list[k + 1..] && list[..k] + [list[k]] == list[..k + 1];
    assert seq(k, i requires 0 <= i < k => Call(m.passes + 1, list[i], data)) + [Call(m.passes + 1, list[k], data)] ==
           seq(k + 1, i requires 0 <= i < k + 1 => Call(m.passes + 1, list[i], data));
  }

  lemma {:induction false} StageSettled(m: Machine, data: Data, k: nat)
    requires Ready(m) && 1 <= k <= |m.body.list|
    ensures Settled(Stage(m, data, k), data)
  {
  }

  /** After the internal calls: settled, and any callback now running is a user's. */
  lemma {:induction false} ThirdReturn(m: Machine, data: Data)
    requires Ready(m)
    ensures var m' := ReturnOp(Stage(m, data, 3), true);
            Settled(m', data) && m'.stack == None && (m'.body.Firing? ==> !IsInternal(m'.body.current.fn))
  {
    hide Settled;
    StageSettled(m, data, 3);
    ReturnSettled(Stage(m, data, 3), true, data);
    if |m.body.list| > 3 {
      ReturnIsStage(m, data, 3);
      assert m.body.list[3..][0] == m.body.list[3];
    } else {
      assert m.body.list[3..] == [];
      ReturnShrinks(Stage(m, data, 3));
    }
  }

  /** Settling sets the state, disables the other list and locks the progress list, all before
      any user callback runs. */
  lemma {:induction false} SettleEffect(d: Deferred, which: Which, data: Data)
    requires which != Progress && Ready(List(d, which))
    ensures var r := React(d, Fire(which, data));
            && r.state == (if which == Done then Resolved else Rejected)
            && r.progress == LockOp(d.progress)
            && List(r, Other(which)) == DisableOp(List(d, Other(which)))
            && List(r, which) == ReturnOp(Stage(List(d, which), data, 3), true)
  {
    hide FireOp, ReturnOp, LockOp, DisableOp;
    var m := List(d, which);
    FireIsStage(m, data);
    ReturnIsStage(m, data, 1);
    ReturnIsStage(m, data, 2);
    ThirdReturn(m, data);
    var d1 := WithList(d, which, Stage(m, data, 1));
    var d2 := WithList(Effect(d1, which, SET_STATE), which, Stage(m, data, 2));
    assert RunInternals(d1, which) == RunInternals(d2, which);
    var d3 := WithList(Effect(d2, which, DISABLE_OTHER), which, Stage(m, data, 3));
    assert RunInternals(d2, which) == RunInternals(d3, which);
    var d4 := WithList(Effect(d3, which, LOCK_PROGRESS), which, ReturnOp(Stage(m, data, 3), true));
    assert RunInternals(d3, which) == RunInternals(d4, which) == d4;
  }

  // ----- What holds in every run -----

  /** Any callback of ours that runs or waits is a user's. */
  ghost predicate UsersOnly(m: Machine) {
    m.body.Firing? ==> !IsInternal(m.body.current.fn) && UserEntries(m.body.pending)
  }

  /** Disabled before it ever fired. */
  ghost predicate Off(m: Machine) {
    m.body == Disabled(None) && m.log == []
  }

  /** Locked after it fired, or disabled. */
  ghost predicate Locked(m: Machine) {
    m.stack == None && (m.body.Disabled? || m.fired)
  }

  ghost predicate Unsettled(d: Deferred) {
    d.state == Pending && Ready(d.done) && Ready(d.fail) && RemembersFired(d.progress)
  }

  /** Settled through the given list, with the given arguments. */
  ghost predicate SettledBy(d: Deferred, which: Which, data: Data) {
    && which != Progress
    && d.state == (if which == Done then Resolved else Rejected)
    && Settled(List(d, which), data) && UsersOnly(List(d, which))
    && Off(List(d, Other(which)))
    && Locked(d.progress)
  }

  lemma {:induction false} NewUnsettled()
    ensures Unsettled(NewDeferred())
  {
    AppendedNumbered([], INTERNAL, 0);
  }

  lemma {:induction false} FireSettles(d: Deferred, which: Which, data: Data)
    requires Unsettled(d) && which != Progress
    ensures SettledBy(React(d, Fire(which, data)), which, data)
  {
    hide Settled, React;
    var m := List(d, which);
    SettleEffect(d, which, data);
    ThirdReturn(m, data);
    StillUsers(m, data);
    assert Ready(List(d, Other(which)));
  }

  lemma {:induction false} StillUsers(m: Machine, data: Data)
    requires Ready(m)
    ensures UsersOnly(ReturnOp(Stage(m, data, 3), true))
  {
    ThirdReturn(m, data);
    if |m.body.list| > 3 {
      ReturnIsStage(m, data, 3);
      forall i | 0 <= i < |m.body.list[4..]| ensures !IsInternal(m.body.list[4..][i].fn) {
        assert m.body.list[4..][i] == m.body.list[3..][i + 1];
      }
    } else {
      assert m.body.list[3..] == [];
      ReturnShrinks(Stage(m, data, 3));
    }
  }

  lemma {:induction false} AddReady(m: Machine, fns: seq<Fn>)
    requires Ready(m) && forall i :: 0 <= i < |fns| ==> !IsInternal(fns[i])
    ensures Ready(AddOp(m, fns))
  {
    var more := Appended(false, m.body.list, fns, m.tickets);
    AppendedNumbered(m.body.list, fns, m.tickets);
    assert (m.body.list + more)[3..] == m.body.list[3..] + more;
  }

  lemma {:induction false} AddUsers(m: Machine, fns: seq<Fn>, data: Data)
    requires Settled(m, data) && UsersOnly(m) && forall i :: 0 <= i < |fns| ==> !IsInternal(fns[i])
    ensures UsersOnly(AddOp(m, fns))
  {
    var list := if m.body.Idle? then m.body.list else m.body.skipped + m.body.ran + m.body.pending;
    AppendedNumbered(list, fns, m.tickets);
    if m.body.Idle? {
      var more := Appended(false, list, fns, m.tickets);
      assert list + more == more;
      SettledBegin(m.(tickets := m.tickets + |more|), more, data);
      NextUsers(m.(tickets := m.tickets + |more|, passes := m.passes + 1), [], more, data);
    }
  }

  lemma {:induction false} NextUsers(m: Machine, ran: seq<Entry>, pending: seq<Entry>, data: Data)
    requires m.stack == None && UserEntries(pending)
    ensures UsersOnly(Next(m, [], ran, pending, data))
  {
  }

  /** A list without a stack gets none, and stays fired. */
  lemma {:induction false} NextLocked(m: Machine, skipped: seq<Entry>, ran: seq<Entry>, pending: seq<Entry>, data: Data)
    requires m.stack == None && m.fired
    ensures Locked(Next(m, skipped, ran, pending, data))
  {
  }

  lemma {:induction false} ProgressStaysLocked(m: Machine, data: Data, fns: seq<Fn>, result: bool)
    requires Locked(m)
    ensures FireOp(m, data) == m
    ensures Locked(AddOp(m, fns))
    ensures Running(m) ==> Locked(ReturnOp(m, result))
  {
    if m.body.Idle? {
      var more := Appended(m.opts.unique, m.body.list, fns, m.tickets);
      var list := m.body.list + more;
      if m.memory.Some? {
        NextLocked(m.(tickets := m.tickets + |more|, memory := if m.opts.memory then m.memory else None, fired := true,
                      passes := m.passes + 1), list[..|m.body.list|], [], list[|m.body.list|..], m.memory.value);
      }
    } else if m.body.Firing? {
      NextLocked(m, m.body.skipped, m.body.ran, m.body.pending, m.body.data);
      assert ReturnOp(m, result) == Next(m, m.body.skipped, m.body.ran, m.body.pending, m.body.data) ||
             ReturnOp(m, result) == Finish(m.(memory := None), m.body.skipped + m.body.ran + m.body.pending);
    }
  }

  /** A pass that has started leaves the list fired. */
  lemma {:induction false} NextFired(m: Machine, skipped: seq<Entry>, ran: seq<Entry>, pending: seq<Entry>, data: Data)
    requires m.fired
    ensures Next(m, skipped, ran, pending, data).fired
    decreases QueueLength(m), 1
  {
    if pending == [] {
      FinishFired(m, skipped + ran);
    }
  }

  lemma {:induction false} FinishFired(m: Machine, list: seq<Entry>)
    requires m.fired
    ensures Finish(m, list).fired
    decreases QueueLength(m), 0
  {
    if m.stack.Some? && m.stack.value != [] {
      BeginFired(Serving(m.(stack := Some(m.stack.value[1..])), m.stack.value[0]), list, m.stack.value[0], 0);
    }
  }

  lemma {:induction false} BeginFired(m: Machine, list: seq<Entry>, data: Data, start: nat)
    requires start <= |list|
    ensures Begin(m, list, data, start).fired
    decreases QueueLength(m), 2
  {
    NextFired(Opened(m, data), list[..start], [], list[start..], data);
  }

  ghost predicate RemembersFired(m: Machine) {
    m.memory.Some? || m.body.Firing? || m.body.Emptied? || m.body.Stuck? ==> m.fired
  }

  lemma {:induction false} ProgressRemembers(m: Machine, data: Data, fns: seq<Fn>, result: bool)
    requires RemembersFired(m)
    ensures RemembersFired(FireOp(m, data)) && RemembersFired(AddOp(m, fns))
    ensures Running(m) ==> RemembersFired(ReturnOp(m, result))
  {
    hide Next, Finish, Begin;
    if m.body.Idle? {
      BeginFired(Serving(m.(accepted := m.accepted + [data]), data), m.body.list, data, 0);
      var more := Appended(m.opts.unique, m.body.list, fns, m.tickets);
      if m.memory.Some? {
        BeginFired(m.(tickets := m.tickets + |more|), m.body.list + more, m.memory.value, |m.body.list|);
      }
    } else if m.body.Firing? {
      FinishFired(m.(memory := None), m.body.skipped + m.body.ran + m.body.pending);
      NextFired(m, m.body.skipped, m.body.ran, m.body.pending, m.body.data);
    } else if m.body.Emptied? {
      FinishFired(m.(memory := None), m.body.list);
      FinishFired(m, m.body.list);
    }
  }

  /** Until resolve or reject is called the deferred stays pending. */
  lemma {:induction false} UnsettledStays(d: Deferred, e: Event)
    requires Unsettled(d) && Allowed(d, e)
    requires e.Fire? ==> e.which == Progress
    ensures Unsettled(React(d, e))
  {
    hide Ready, RemembersFired, AddOp, FireOp, ReturnOp;
    match e
    case Fire(which, data) =>
      ProgressRemembers(d.progress, data, [], true);
    case Listen(which, fns) =>
      if which == Progress {
        ProgressRemembers(d.progress, 0, fns, true);
      } else {
        AddReady(List(d, which), fns);
      }
    case Return(which, result) =>
      NotRunning(d);
      ProgressRemembers(d.progress, 0, [], result);
  }

  lemma {:induction false} NotRunning(d: Deferred)
    requires Unsettled(d)
    ensures !Running(d.done) && !Running(d.fail)
  {
  }

  lemma {:induction false} NoInternalsLeft(d: Deferred, which: Which)
    requires UsersOnly(List(d, which)) || !List(d, which).body.Firing?
    ensures RunInternals(d, which) == d
  {
  }

  /** Once settled, nothing unsettles it. */
  lemma {:induction false} SettledStays(d: Deferred, which: Which, data: Data, e: Event)
    requires SettledBy(d, which, data) && Allowed(d, e)
    ensures SettledBy(React(d, e), which, data)
    ensures e.Fire? ==> React(d, e) == d
  {
    hide Settled, UsersOnly, Locked, AddOp, FireOp, ReturnOp;
    match e
    case Fire(w, args) =>
      SettledIgnoresFire(d, which, data, w, args);
    case Listen(w, fns) =>
      if w == Progress {
        ProgressStaysLocked(d.progress, 0, fns, true);
      } else if w == which {
        AddSettled(List(d, which), fns, data);
        AddUsers(List(d, which), fns, data);
      } else {
        OffIgnores(List(d, w), 0, fns);
      }
    case Return(w, result) =>
      if w == Progress {
        ProgressStaysLocked(d.progress, 0, [], result);
      } else if w == which {
        ReturnSettled(List(d, which), result, data);
        ReturnUsers(List(d, which), result, data);
      } else {
        OffIgnores(List(d, w), 0, []);
      }
  }

  lemma {:induction false} OffIgnores(m: Machine, data: Data, fns: seq<Fn>)
    requires Off(m)
    ensures FireOp(m, data) == m && AddOp(m, fns) == m && !Running(m)
  {
  }

  lemma {:induction false} ReturnUsers(m: Machine, result: bool, data: Data)
    requires Settled(m, data) && UsersOnly(m) && Running(m)
    ensures UsersOnly(ReturnOp(m, result))
  {
    NextUsers(m, m.body.ran, m.body.pending, m.body.data);
  }

  lemma {:induction false} SettledIgnoresFire(d: Deferred, which: Which, data: Data, w: Which, args: Data)
    requires SettledBy(d, which, data)
    ensures React(d, Fire(w, args)) == d
  {
    assert FireOp(List(d, w), args) == List(d, w) by {
      if w == Progress {
        ProgressStaysLocked(d.progress, args, [], true);
      } else if w != which {
        OffIgnores(List(d, w), args, []);
      }
    }
    assert WithList(d, w, List(d, w)) == d;
    if w != Progress {
      NoInternalsLeft(d, w);
    }
  }

  // ----- Main results -----

  ghost predicate Inv(d: Deferred) {
    Unsettled(d) || exists which, data :: SettledBy(d, which, data)
  }

  lemma {:induction false} ReactInv(d: Deferred, e: Event)
    requires Inv(d) && Allowed(d, e)
    ensures Inv(React(d, e))
  {
    hide Unsettled, SettledBy, React;
    if Unsettled(d) {
      if e.Fire? && e.which != Progress {
        FireSettles(d, e.which, e.data);
      } else {
        UnsettledStays(d, e);
      }
    } else {
      var which, data :| SettledBy(d, which, data);
      SettledStays(d, which, data, e);
    }
  }

  lemma {:induction false} RunInv(d: Deferred, events: seq<Event>)
    requires Inv(d) && IsRun(d, events)
    ensures Inv(After(d, events))
    decreases |events|
  {
    hide Inv, React;
    if events != [] {
      ReactInv(d, events[0]);
      RunInv(React(d, events[0]), events[1..]);
    }
  }

  ghost predicate Reachable(d: Deferred) {
    exists events :: IsRun(NewDeferred(), events) && After(NewDeferred(), events) == d
  }

  lemma {:induction false} ReachableInv(d: Deferred)
    requires Reachable(d)
    ensures Inv(d)
  {
    var events :| IsRun(NewDeferred(), events) && After(NewDeferred(), events) == d;
    NewUnsettled();
    RunInv(NewDeferred(), events);
  }

  /** Done and fail callbacks never both run; the state says which may. */
  lemma {:induction false} NeverBoth(d: Deferred)
    requires Reachable(d)
    ensures d.state == Pending ==> d.done.log == [] && d.fail.log == []
    ensures d.state == Resolved ==> d.fail.log == []
    ensures d.state == Rejected ==> d.done.log == []
  {
    ReachableInv(d);
  }

  lemma {:induction false} SettledRun(d: Deferred, which: Which, data: Data, events: seq<Event>)
    requires SettledBy(d, which, data) && IsRun(d, events)
    ensures SettledBy(After(d, events), which, data)
    decreases |events|
  {
    hide SettledBy, React;
    if events != [] {
      SettledStays(d, which, data, events[0]);
      SettledRun(React(d, events[0]), which, data, events[1..]);
    }
  }

  // ----- Which functions are called -----

  /** The functions a run has given to one of the lists, in order. */
  ghost function Listened(events: seq<Event>, which: Which): seq<Fn> {
    if events == [] then []
    else (if events[0].Listen? && events[0].which == which then events[0].fns else []) + Listened(events[1..], which)
  }

  /** What a list has not called yet. */
  ghost function Waiting(m: Machine): seq<Entry> {
    match m.body
    case Idle(list) => list
    case Firing(_, _, pending, _, _) => pending
    case _ => []
  }

  /** The calls made and the entries waiting are, in order, the functions heard of. */
  ghost predicate Hears(m: Machine, fns: seq<Fn>) {
    && |fns| == m.tickets == |m.log| + |Waiting(m)|
    && (forall i :: 0 <= i < |m.log| ==> m.log[i].entry.fn == fns[i])
    && (forall i :: 0 <= i < |Waiting(m)| ==> Waiting(m)[i].fn == fns[|m.log| + i])
  }

  lemma {:induction false} NextHears(m: Machine, ran: seq<Entry>, pending: seq<Entry>, data: Data, fns: seq<Fn>)
    requires m.stack == None && m.memory.Some? && |fns| == m.tickets == |m.log| + |pending|
    requires forall i :: 0 <= i < |m.log| ==> m.log[i].entry.fn == fns[i]
    requires forall i :: 0 <= i < |pending| ==> pending[i].fn == fns[|m.log| + i]
    ensures Hears(Next(m, [], ran, pending, data), fns)
  {
  }

  lemma {:induction false} MoreWaiting(m: Machine, m': Machine, added: seq<Entry>, more: seq<Fn>, fns: seq<Fn>)
    requires Hears(m, fns) && |added| == |more| && forall i :: 0 <= i < |more| ==> added[i].fn == more[i]
    requires m'.log == m.log && m'.tickets == m.tickets + |more| && Waiting(m') == Waiting(m) + added
    ensures Hears(m', fns + more)
  {
  }

  lemma {:induction false} AddHears(m: Machine, more: seq<Fn>, fns: seq<Fn>, data: Data)
    requires (Ready(m) || Settled(m, data)) && Hears(m, fns)
    ensures Hears(AddOp(m, more), fns + more)
  {
    hide Hears, Appended, Begin, Numbered, UserEntries;
    AppendedNumbered(ListOf(m.body), more, m.tickets);
    var added := Appended(false, ListOf(m.body), more, m.tickets);
    if m.fired && m.body.Idle? {
      AddRestingHears(m, added, more, fns, data);
    } else {
      MoreWaiting(m, AddOp(m, more), added, more, fns);
    }
  }

  lemma {:induction false} AddRestingHears(m: Machine, added: seq<Entry>, more: seq<Fn>, fns: seq<Fn>, data: Data)
    requires Settled(m, data) && m.body.Idle? && Hears(m, fns)
    requires |added| == |more| && forall i :: 0 <= i < |more| ==> added[i].fn == more[i]
    ensures Hears(Begin(m.(tickets := m.tickets + |added|), [] + added, data, 0), fns + more)
  {
    hide Begin, Next, Settled, Hears;
    assert [] + added == added;
    RestingHeard(m, fns, data);
    SettledBegin(m.(tickets := m.tickets + |added|), added, data);
    NextHearsMore(m.(tickets := m.tickets + |added|, passes := m.passes + 1), added, data, fns, more);
  }

  lemma {:induction false} RestingHeard(m: Machine, fns: seq<Fn>, data: Data)
    requires Settled(m, data) && m.body.Idle? && Hears(m, fns)
    ensures m.stack == None && m.memory == Some(data) && m.fired && m.opts.memory && |fns| == m.tickets == |m.log|
    ensures forall i :: 0 <= i < |m.log| ==> m.log[i].entry.fn == fns[i]
  {
  }

  lemma {:induction false} NextHearsMore(m: Machine, added: seq<Entry>, data: Data, fns: seq<Fn>, more: seq<Fn>)
    requires m.stack == None && m.memory.Some? && |fns| == |m.log| && m.tickets == |m.log| + |added|
    requires forall i :: 0 <= i < |m.log| ==> m.log[i].entry.fn == fns[i]
    requires |added| == |more| && forall i :: 0 <= i < |more| ==> added[i].fn == more[i]
    ensures Hears(Next(m, [], [], added, data), fns + more)
  {
    hide Next, Hears;
    NextHears(m, [], added, data, fns + more);
  }

  lemma {:induction false} ReturnHears(m: Machine, result: bool, data: Data, fns: seq<Fn>)
    requires Settled(m, data) && Running(m) && Hears(m, fns)
    ensures Hears(ReturnOp(m, result), fns)
  {
    NextHears(m, m.body.ran, m.body.pending, data, fns);
  }

  /** The first `k` entries have been called and the others wait. */
  lemma {:induction false} StageIs(m: Machine, data: Data, k: nat)
    requires m.body.Idle? && 1 <= k <= |m.body.list| && m.log == []
    ensures var m' := Stage(m, data, k);
            && |m'.log| == k && (forall i :: 0 <= i < k ==> m'.log[i].entry == m.body.list[i])
            && Waiting(m') == m.body.list[k..] && m'.tickets == m.tickets
  {
  }

  lemma {:induction false} StageHears(m: Machine, data: Data, k: nat, fns: seq<Fn>)
    requires Ready(m) && 1 <= k <= |m.body.list| && Hears(m, fns)
    ensures Hears(Stage(m, data, k), fns)
  {
    hide Ready, Stage, Hears, Waiting;
    ReadyHeard(m, fns);
    StageIs(m, data, k);
    HeardSoFar(Stage(m, data, k), m.body.list, k, fns);
  }

  lemma {:induction false} ReadyHeard(m: Machine, fns: seq<Fn>)
    requires Ready(m) && Hears(m, fns)
    ensures m.body.Idle? && m.log == [] && |fns| == m.tickets == |m.body.list|
    ensures forall i :: 0 <= i < |fns| ==> m.body.list[i].fn == fns[i]
  {
    hide Numbered, UserEntries;
    forall i | 0 <= i < |fns| ensures m.body.list[i].fn == fns[i] {
      assert Waiting(m)[i].fn == fns[|m.log| + i];
    }
  }

  lemma {:induction false} HeardSoFar(m: Machine, list: seq<Entry>, k: nat, fns: seq<Fn>)
    requires k <= |list| == |fns| == m.tickets && forall i :: 0 <= i < |fns| ==> list[i].fn == fns[i]
    requires |m.log| == k && (forall i :: 0 <= i < k ==> m.log[i].entry == list[i]) && Waiting(m) == list[k..]
    ensures Hears(m, fns)
  {
    hide Waiting;
  }

  lemma {:induction false} SettleHears(d: Deferred, which: Which, data: Data, fns: seq<Fn>)
    requires which != Progress && Ready(List(d, which)) && Hears(List(d, which), fns)
    ensures Hears(List(React(d, Fire(which, data)), which), fns)
  {
    hide React, Hears, Settled;
    var m := List(d, which);
    SettleEffect(d, which, data);
    StageHears(m, data, 3, fns);
    StageSettled(m, data, 3);
    ReturnHears(Stage(m, data, 3), true, data, fns);
  }

  lemma {:induction false} UnsettledHears(d: Deferred, e: Event, which: Which, fns: seq<Fn>)
    requires Unsettled(d) && Allowed(d, e) && which != Progress && Hears(List(d, which), fns)
    requires e.Fire? ==> e.which == Progress
    ensures Hears(List(React(d, e), which), fns + Listened([e], which))
  {
    hide Hears, Ready, AddOp, FireOp, ReturnOp;
    OneListened(e, which);
    assert fns + [] == fns;
    NotRunning(d);
    if e.Listen? && e.which == which {
      AddHears(List(d, which), e.fns, fns, 0);
    }
  }

  lemma {:induction false} OneListened(e: Event, which: Which)
    ensures Listened([e], which) == if e.Listen? && e.which == which then e.fns else []
  {
    assert Listened([e][1..], which) == [];
  }

  lemma {:induction false} SettledHears(d: Deferred, which: Which, data: Data, e: Event, fns: seq<Fn>)
    requires SettledBy(d, which, data) && Allowed(d, e) && Hears(List(d, which), fns)
    ensures Hears(List(React(d, e), which), fns + Listened([e], which))
  {
    hide Hears, Settled, UsersOnly, Locked, AddOp, FireOp, ReturnOp;
    OneListened(e, which);
    assert fns + [] == fns;
    match e
    case Fire(_, _) => SettledStays(d, which, data, e);
    case Listen(w, more) =>
      if w == which {
        AddHears(List(d, which), more, fns, data);
      }
    case Return(w, result) =>
      if w == which {
        ReturnHears(List(d, which), result, data, fns);
      }
  }

  /** A deferred and what its lists have heard of: both lists while it is pending, the winning one afterwards. */
  ghost predicate HearsAll(d: Deferred, done: seq<Fn>, fail: seq<Fn>) {
    || (Unsettled(d) && Hears(d.done, done) && Hears(d.fail, fail))
    || (exists data :: SettledBy(d, Done, data) && Hears(d.done, done))
    || (exists data :: SettledBy(d, Fail, data) && Hears(d.fail, fail))
  }

  lemma {:induction false} ReactHears(d: Deferred, e: Event, done: seq<Fn>, fail: seq<Fn>)
    requires HearsAll(d, done, fail) && Allowed(d, e)
    ensures HearsAll(React(d, e), done + Listened([e], Done), fail + Listened([e], Fail))
  {
    hide Hears, Unsettled, SettledBy, React;
    if Unsettled(d) && Hears(d.done, done) && Hears(d.fail, fail) {
      if e.Fire? && e.which != Progress {
        OneListened(e, Done);
        OneListened(e, Fail);
        assert done + [] == done && fail + [] == fail;
        FireSettles(d, e.which, e.data);
        UnsettledReady(d, e.which);
        SettleHears(d, e.which, e.data, if e.which == Done then done else fail);
      } else {
        UnsettledStays(d, e);
        UnsettledHears(d, e, Done, done);
        UnsettledHears(d, e, Fail, fail);
      }
    } else if data :| SettledBy(d, Done, data) && Hears(d.done, done) {
      SettledStays(d, Done, data, e);
      SettledHears(d, Done, data, e, done);
    } else {
      var data :| SettledBy(d, Fail, data) && Hears(d.fail, fail);
      SettledStays(d, Fail, data, e);
      SettledHears(d, Fail, data, e, fail);
    }
  }

  lemma {:induction false} UnsettledReady(d: Deferred, which: Which)
    requires Unsettled(d) && which != Progress
    ensures Ready(List(d, which))
  {
  }

  lemma {:induction false} RunHears(d: Deferred, events: seq<Event>, done: seq<Fn>, fail: seq<Fn>)
    requires HearsAll(d, done, fail) && IsRun(d, events)
    ensures HearsAll(After(d, events), done + Listened(events, Done), fail + Listened(events, Fail))
    decreases |events|
  {
    hide HearsAll, React;
    if events == [] {
      assert done + [] == done && fail + [] == fail;
    } else {
      var e, rest := events[0], events[1..];
      ReactHears(d, e, done, fail);
      RunHears(React(d, e), rest, done + Listened([e], Done), fail + Listened([e], Fail));
      ListenedFirst(events, Done);
      ListenedFirst(events, Fail);
      assert done + Listened([e], Done) + Listened(rest, Done) == done + Listened(events, Done);
      assert fail + Listened([e], Fail) + Listened(rest, Fail) == fail + Listened(events, Fail);
    }
  }

  lemma {:induction false} ListenedFirst(events: seq<Event>, which: Which)
    requires events != []
    ensures Listened(events, which) == Listened([events[0]], which) + Listened(events[1..], which)
  {
    OneListened(events[0], which);
  }

  /** In every state of a deferred: its lists have heard of the internal callbacks and of every function a run
      gave them, in order, and of nothing else. */
  lemma {:induction false} EveryListenerHeard(events: seq<Event>)
    requires IsRun(NewDeferred(), events)
    ensures HearsAll(After(NewDeferred(), events), INTERNAL + Listened(events, Done), INTERNAL + Listened(events, Fail))
  {
    hide React;
    NewUnsettled();
    NewHears();
    RunHears(NewDeferred(), events, INTERNAL, INTERNAL);
  }

  lemma {:induction false} NewHears()
    ensures Hears(NewDeferred().done, INTERNAL) && Hears(NewDeferred().fail, INTERNAL)
  {
    AppendedNumbered([], INTERNAL, 0);
  }

  /** The first resolve or reject decides: whatever follows, the state stays and the losing callbacks never run.
      The winning list calls the internal callbacks and then every function given to it, before, during or after
      the settlement, each exactly once, in order and with the arguments of that first call; when the list is at
      rest it has called all of them. */
  lemma {:induction false} FirstSettleDecides(before: seq<Event>, which: Which, data: Data, after: seq<Event>)
    requires IsRun(NewDeferred(), before) && After(NewDeferred(), before).state == Pending && which != Progress
    requires IsRun(React(After(NewDeferred(), before), Fire(which, data)), after)
    ensures var r := After(React(After(NewDeferred(), before), Fire(which, data)), after);
            var m := List(r, which);
            var heard := INTERNAL + Listened(before, which) + Listened(after, which);
            && r.state == (if which == Done then Resolved else Rejected)
            && List(r, Other(which)).log == []
            && |m.log| <= |heard|
            && (forall i :: 0 <= i < |m.log| ==> m.log[i].entry == Entry(heard[i], i) && m.log[i].data == data)
            && (!Running(m) ==> |m.log| == |heard|)
  {
    hide React, AddOp, Hears;
    var d := After(NewDeferred(), before);
    EveryListenerHeard(before);
    var heard := INTERNAL + Listened(before, which);
    StillPending(d, INTERNAL + Listened(before, Done), INTERNAL + Listened(before, Fail));
    var s := React(d, Fire(which, data));
    FireSettles(d, which, data);
    UnsettledReady(d, which);
    SettleHears(d, which, data, heard);
    SettledRun(s, which, data, after);
    SettledRunHears(s, which, data, after, heard);
    HeardInOrder(After(s, after), which, data, heard + Listened(after, which));
  }

  lemma {:induction false} StillPending(d: Deferred, done: seq<Fn>, fail: seq<Fn>)
    requires HearsAll(d, done, fail) && d.state == Pending
    ensures Unsettled(d) && Hears(d.done, done) && Hears(d.fail, fail)
  {
  }

  lemma {:induction false} SettledRunHears(d: Deferred, which: Which, data: Data, events: seq<Event>, fns: seq<Fn>)
    requires SettledBy(d, which, data) && IsRun(d, events) && Hears(List(d, which), fns)
    ensures Hears(List(After(d, events), which), fns + Listened(events, which))
    decreases |events|
  {
    hide SettledBy, React, Hears;
    if events == [] {
      assert fns + [] == fns;
    } else {
      SettledStays(d, which, data, events[0]);
      SettledHears(d, which, data, events[0], fns);
      SettledRunHears(React(d, events[0]), which, data, events[1..], fns + Listened([events[0]], which));
      ListenedFirst(events, which);
      assert fns + Listened([events[0]], which) + Listened(events[1..], which) == fns + Listened(events, which);
    }
  }

  lemma {:induction false} HeardInOrder(d: Deferred, which: Which, data: Data, heard: seq<Fn>)
    requires SettledBy(d, which, data) && Hears(List(d, which), heard)
    ensures var m := List(d, which);
            && d.state == (if which == Done then Resolved else Rejected) && List(d, Other(which)).log == []
            && |m.log| <= |heard|
            && (forall i :: 0 <= i < |m.log| ==> m.log[i].entry == Entry(heard[i], i) && m.log[i].data == data)
            && (!Running(m) ==> |m.log| == |heard|)
  {
  }

  // ----- Settlement seen from outside -----

  /** The first resolve or reject of a run. */
  ghost function FirstSettle(events: seq<Event>): Option<(Which, Data)> {
    if events == [] then None
    else if events[0].Fire? && events[0].which != Progress then Some((events[0].which, events[0].data))
    else FirstSettle(events[1..])
  }

  ghost predicate SettledAs(d: Deferred, first: Option<(Which, Data)>) {
    match first
    case None => Unsettled(d)
    case Some((which, data)) => SettledBy(d, which, data)
  }

  lemma {:induction false} RunSettles(d: Deferred, events: seq<Event>)
    requires Unsettled(d) && IsRun(d, events)
    ensures SettledAs(After(d, events), FirstSettle(events))
    decreases |events|
  {
    hide Unsettled, SettledBy, React;
    if events != [] {
      var e := events[0];
      if e.Fire? && e.which != Progress {
        FireSettles(d, e.which, e.data);
        SettledRun(React(d, e), e.which, e.data, events[1..]);
      } else {
        UnsettledStays(d, e);
        RunSettles(React(d, e), events[1..]);
      }
    }
  }

  /** A deferred is what the first resolve or reject made it. */
  lemma {:induction false} SettledByFirst(events: seq<Event>)
    requires IsRun(NewDeferred(), events)
    ensures SettledAs(After(NewDeferred(), events), FirstSettle(events))
  {
    hide React, SettledAs, Unsettled;
    NewUnsettled();
    RunSettles(NewDeferred(), events);
  }

  lemma {:induction false} RunSnoc(d: Deferred, events: seq<Event>, e: Event)
    requires IsRun(d, events) && Allowed(After(d, events), e)
    ensures IsRun(d, events + [e]) && After(d, events + [e]) == React(After(d, events), e)
    decreases |events|
  {
    hide React, Allowed;
    if events == [] {
      assert [e][1..] == [] && [] + [e] == [e];
    } else {
      RunSnoc(React(d, events[0]), events[1..], e);
      assert (events + [e])[1..] == events[1..] + [e];
    }
  }

  lemma {:induction false} ListenedSnoc(events: seq<Event>, e: Event, which: Which)
    ensures Listened(events + [e], which) == Listened(events, which) + Listened([e], which)
    decreases |events|
  {
    hide Listened;
    if events == [] {
      ListenedNone(which);
      assert [] + [e] == [e];
    } else {
      ListenedFirst(events, which);
      ListenedFirst(events + [e], which);
      ListenedSnoc(events[1..], e, which);
      assert (events + [e])[1..] == events[1..] + [e];
      var first, rest := Listened([events[0]], which), Listened(events[1..], which);
      assert first + (rest + Listened([e], which)) == (first + rest) + Listened([e], which);
    }
  }

  lemma {:induction false} ListenedNone(which: Which)
    ensures Listened([], which) == []
  {
  }

  lemma {:induction false} SettleSnoc(events: seq<Event>, e: Event)
    ensures FirstSettle(events + [e]) == if FirstSettle(events).Some? then FirstSettle(events) else FirstSettle([e])
    decreases |events|
  {
    if events == [] {
      assert [] + [e] == [e];
    } else {
      SettleSnoc(events[1..], e);
      assert (events + [e])[1..] == events[1..] + [e];
    }
  }

  // ----- The calls one event makes -----

  /** A list made calls of internal callbacks, and then at most one of a user's, which now runs. */
  ghost predicate CallsOneUser(before: Machine, after: Machine) {
    && before.log <= after.log
    && (forall i :: |before.log| <= i < |after.log| - 1 ==> IsInternal(after.log[i].entry.fn))
    && (|before.log| < |after.log| ==> Running(after) || IsInternal(after.log[|after.log| - 1].entry.fn))
  }

  ghost predicate CallsOne(before: Machine, after: Machine) {
    before.log <= after.log && |after.log| <= |before.log| + 1 && (|before.log| < |after.log| ==> Running(after))
  }

  lemma {:induction false} NextCallsOne(m: Machine, skipped: seq<Entry>, ran: seq<Entry>, pending: seq<Entry>,
                                        data: Data)
    ensures CallsOne(m, Next(m, skipped, ran, pending, data))
    decreases QueueLength(m), 1
  {
    if pending == [] {
      FinishCallsOne(m, skipped + ran);
    }
  }

  lemma {:induction false} FinishCallsOne(m: Machine, list: seq<Entry>)
    ensures CallsOne(m, Finish(m, list))
    decreases QueueLength(m), 0
  {
    if m.stack.Some? && m.stack.value != [] {
      BeginCallsOne(Serving(m.(stack := Some(m.stack.value[1..])), m.stack.value[0]), list, m.stack.value[0], 0);
    }
  }

  lemma {:induction false} BeginCallsOne(m: Machine, list: seq<Entry>, data: Data, start: nat)
    requires start <= |list|
    ensures CallsOne(m, Begin(m, list, data, start))
    decreases QueueLength(m), 2
  {
    NextCallsOne(Opened(m, data), list[..start], [], list[start..], data);
  }

  lemma {:induction false} OpCallsOne(m: Machine, data: Data, fns: seq<Fn>, result: bool)
    ensures CallsOneUser(m, FireOp(m, data)) && CallsOneUser(m, AddOp(m, fns))
    ensures Running(m) ==> CallsOneUser(m, ReturnOp(m, result))
  {
    hide Begin, Next, Finish;
    if m.body.Idle? {
      BeginCallsOne(Serving(m.(accepted := m.accepted + [data]), data), m.body.list, data, 0);
      var more := Appended(m.opts.unique, m.body.list, fns, m.tickets);
      if m.memory.Some? {
        BeginCallsOne(m.(tickets := m.tickets + |more|), m.body.list + more, m.memory.value, |m.body.list|);
      }
    } else {
      FinishCallsOne(m.(memory := None), ListOf(m.body));
      FinishCallsOne(m, ListOf(m.body));
      if m.body.Firing? {
        NextCallsOne(m, m.body.skipped, m.body.ran, m.body.pending, m.body.data);
      }
    }
  }

  /** The list an event is about calls at most one user callback, as the last call; the other lists call nothing. */
  lemma {:induction false} ReactCalls(d: Deferred, e: Event)
    requires Inv(d) && Allowed(d, e)
    ensures CallsOneUser(List(d, e.which), List(React(d, e), e.which))
    ensures forall w :: w != e.which ==> List(React(d, e), w).log == List(d, w).log
  {
    hide AddOp, ReturnOp, FireOp;
    var m := List(d, e.which);
    match e
    case Listen(_, fns) => OpCallsOne(m, 0, fns, true);
    case Return(_, result) => OpCallsOne(m, 0, [], result);
    case Fire(which, data) =>
      OpCallsOne(m, data, [], true);
      if which != Progress {
        if Unsettled(d) {
          SettleCalls(d, which, data);
        } else {
          var w, x :| SettledBy(d, w, x);
          SettledIgnoresFire(d, w, x, which, data);
        }
      }
  }

  lemma {:induction false} SettleCalls(d: Deferred, which: Which, data: Data)
    requires Unsettled(d) && which != Progress
    ensures CallsOneUser(List(d, which), List(React(d, Fire(which, data)), which))
    ensures forall w :: w != which ==> List(React(d, Fire(which, data)), w).log == List(d, w).log
  {
    hide React, ReturnOp;
    var m := List(d, which);
    UnsettledReady(d, which);
    SettleEffect(d, which, data);
    var s := Stage(m, data, 3);
    OpCallsOne(s, 0, [], true);
    assert |s.log| == 3;
    forall i | 0 <= i < 3 ensures IsInternal(s.log[i].entry.fn) {
    }
  }

  /** After settlement resolve, reject and notify do nothing at all; in particular
      no notify starts another pass over the progress callbacks. */
  lemma {:induction false} SettledIgnoresAll(d: Deferred, which: Which, data: Data)
    requires Reachable(d) && d.state != Pending
    ensures React(d, Fire(which, data)) == d
  {
    ReachableInv(d);
    var w, args :| SettledBy(d, w, args);
    SettledStays(d, w, args, Fire(which, data));
  }

  /** A settled list that is running goes on until the callback returns. */
  lemma {:induction false} StaysRunning(d: Deferred, which: Which, e: Event)
    requires Inv(d) && Allowed(d, e) && which != Progress && Running(List(d, which))
    requires !(e.Return? && e.which == which)
    ensures Running(List(React(d, e), which))
  {
    hide Appended, Ready;
    if Unsettled(d) {
      NotRunning(d);
    } else {
      var w, data :| SettledBy(d, w, data);
      if e.Fire? {
        SettledIgnoresFire(d, w, data, e.which, e.data);
      }
    }
  }

  // ----- Which notifications are taken on -----

  /** The data of the notify calls before the first resolve or reject. */
  ghost function Notified(events: seq<Event>): seq<Data> {
    if events == [] || (events[0].Fire? && events[0].which != Progress) then []
    else (if events[0].Fire? then [events[0].data] else []) + Notified(events[1..])
  }

  /** The progress list queues what it is asked to fire until the deferred is settled. */
  ghost predicate Notifies(d: Deferred) {
    Callbacks.Inv(d.progress) && Plain(d.progress) && (d.state == Pending ==> d.progress.stack.Some?)
  }

  /** An event that is not for the progress list leaves it alone, or locks it. */
  lemma {:induction false} ReactElsewhere(d: Deferred, e: Event)
    requires Inv(d) && Allowed(d, e) && e.which != Progress
    ensures React(d, e).progress == if e.Fire? && d.state == Pending then LockOp(d.progress) else d.progress
  {
    if e.Fire? {
      if Unsettled(d) {
        SettleEffect(d, e.which, e.data);
      } else {
        var which, data :| SettledBy(d, which, data);
        SettledStays(d, which, data, e);
      }
    }
  }

  /** What an event makes the progress list do. */
  function ProgressOp(e: Event): Op {
    match e
    case Fire(_, data) => FireWith(data)
    case Listen(_, fns) => Add(fns)
    case Return(_, result) => Returned(result)
  }

  lemma {:induction false} ReactProgress(d: Deferred, e: Event)
    requires Allowed(d, e) && e.which == Progress
    ensures Callbacks.Allowed(d.progress, ProgressOp(e))
    ensures React(d, e) == d.(progress := Do(d.progress, ProgressOp(e)))
  {
    hide FireOp, AddOp, ReturnOp;
  }

  /** How an event changes the state. */
  lemma {:induction false} ReactState(d: Deferred, e: Event)
    requires Inv(d) && Allowed(d, e)
    ensures React(d, e).state == Pending <==> d.state == Pending && !(e.Fire? && e.which != Progress)
  {
    hide Ready, Settled, UsersOnly, Off, Locked, RemembersFired, React;
    if Unsettled(d) {
      if e.Fire? && e.which != Progress {
        FireSettles(d, e.which, e.data);
      } else {
        UnsettledStays(d, e);
      }
    } else {
      var which, data :| SettledBy(d, which, data);
      SettledStays(d, which, data, e);
    }
  }

  lemma {:induction false} ReactNotifies(d: Deferred, e: Event)
    requires Inv(d) && Notifies(d) && Allowed(d, e)
    ensures Notifies(React(d, e))
    ensures React(d, e).progress.accepted ==
            d.progress.accepted + if d.state == Pending && e.Fire? && e.which == Progress then [e.data] else []
  {
    hide React, Inv, Callbacks.Inv, Do, Plain;
    ReactState(d, e);
    if e.which == Progress {
      var op := ProgressOp(e);
      ReactProgress(d, e);
      DoInv(d.progress, op);
      DoGrows(d.progress, op);
      StaysPlain(d.progress, op);
      AcceptsWhilePending(d);
    } else {
      ReactElsewhere(d, e);
      LockInv(d.progress);
      LockPlain(d.progress);
    }
  }

  lemma {:induction false} LockPlain(m: Machine)
    requires Plain(m)
    ensures Plain(LockOp(m))
  {
  }

  lemma {:induction false} AcceptsWhilePending(d: Deferred)
    requires Inv(d) && Notifies(d)
    ensures Accepts(d.progress) <==> d.state == Pending
  {
    hide Ready, Settled, UsersOnly, Off, LogOk, InOrder, ServedOk, PassOk;
  }

  lemma {:induction false} RunNotifies(d: Deferred, events: seq<Event>)
    requires Inv(d) && Notifies(d) && IsRun(d, events)
    ensures Inv(After(d, events)) && Notifies(After(d, events))
    ensures After(d, events).progress.accepted ==
            d.progress.accepted + if d.state == Pending then Notified(events) else []
    decreases |events|
  {
    hide Inv, Notifies, React, Notified;
    NotifiedFirst(events);
    if events == [] {
      assert d.progress.accepted + [] == d.progress.accepted;
    } else {
      var e := events[0];
      ReactInv(d, e);
      ReactNotifies(d, e);
      ReactState(d, e);
      RunNotifies(React(d, e), events[1..]);
      NoteAppended(d.progress.accepted, if e.Fire? then [e.data] else [], Notified(events[1..]));
    }
  }

  lemma {:induction false} NoteAppended(was: seq<Data>, now: seq<Data>, rest: seq<Data>)
    ensures was + now + rest == was + (now + rest) && was + [] == was
  {
  }

  lemma {:induction false} NotifiedFirst(events: seq<Event>)
    ensures Notified(events) ==
            if events == [] || (events[0].Fire? && events[0].which != Progress) then []
            else (if events[0].Fire? then [events[0].data] else []) + Notified(events[1..])
  {
  }

  lemma {:induction false} NewNotifies()
    ensures Inv(NewDeferred()) && Notifies(NewDeferred())
  {
    NewUnsettled();
    CreateInv(MEMORY);
  }

  /** The progress list takes on exactly the notifications made before the deferred is settled, serves them in
      that order, and while nothing is settled and no progress callback runs it has served them all. */
  lemma {:induction false} NotifiedInOrder(events: seq<Event>)
    requires IsRun(NewDeferred(), events)
    ensures var d := After(NewDeferred(), events);
            && d.progress.accepted == Notified(events) && d.progress.served <= Notified(events)
            && (d.state == Pending && !Running(d.progress) ==> d.progress.served == Notified(events))
            && (d.state == Pending <==> FirstSettle(events).None?)
  {
    hide Callbacks.Inv, Ready, Settled, UsersOnly, Off, Locked, RemembersFired;
    NewNotifies();
    RunNotifies(NewDeferred(), events);
    var d := After(NewDeferred(), events);
    SettledByFirst(events);
    assert [] + Notified(events) == Notified(events);
    QueueServed(d.progress);
  }

  lemma {:induction false} QueueServed(m: Machine)
    requires Callbacks.Inv(m)
    ensures m.served <= m.accepted
    ensures m.stack.Some? && !Running(m) && Plain(m) ==> m.served == m.accepted
  {
  }

  // ----- What progress callbacks are called -----

  /** An event makes the progress list call at most one callback; while one runs, none until it returns. */
  lemma {:induction false} ProgressStep(d: Deferred, e: Event)
    requires Inv(d) && Allowed(d, e)
    ensures CallsOne(d.progress, React(d, e).progress)
    ensures e.which != Progress ==> React(d, e).progress.log == d.progress.log
    ensures Running(d.progress) && !(e.Return? && e.which == Progress) ==>
              Running(React(d, e).progress) && React(d, e).progress.log == d.progress.log
  {
    hide React, Inv, AddOp, FireOp, ReturnOp;
    if e.which == Progress {
      var op := ProgressOp(e);
      ReactProgress(d, e);
      OpCallsOnly(d.progress, op);
    } else {
      ReactElsewhere(d, e);
    }
  }

  lemma {:induction false} OpCallsOnly(m: Machine, op: Op)
    requires Callbacks.Allowed(m, op) && (op.FireWith? || op.Add? || op.Returned?)
    ensures CallsOne(m, Do(m, op))
    ensures Running(m) && !op.Returned? ==> Running(Do(m, op)) && Do(m, op).log == m.log
  {
    hide Begin, Next, Finish, Appended;
    match op
    case FireWith(data) =>
      if m.body.Idle? {
        BeginCallsOne(Serving(m.(accepted := m.accepted + [data]), data), m.body.list, data, 0);
      }
    case Add(fns) =>
      if m.body.Idle? && m.memory.Some? {
        var more := Appended(m.opts.unique, m.body.list, fns, m.tickets);
        BeginCallsOne(m.(tickets := m.tickets + |more|), m.body.list + more, m.memory.value, |m.body.list|);
      }
    case Returned(result) =>
      FinishCallsOne(m.(memory := None), ListOf(m.body));
      FinishCallsOne(m, ListOf(m.body));
      if m.body.Firing? {
        NextCallsOne(m, m.body.skipped, m.body.ran, m.body.pending, m.body.data);
      }
  }

  lemma {:induction false} ProgressKnown(d: Deferred, events: seq<Event>, fns: set<Fn>)
    requires Inv(d) && IsRun(d, events) && CallbackOptions.Known(d.progress, fns)
    requires forall f :: f in Listened(events, Progress) ==> f in fns
    ensures CallbackOptions.Known(After(d, events).progress, fns)
    decreases |events|
  {
    hide React, Inv, CallbackOptions.Known, Do;
    if events != [] {
      var e := events[0];
      ReactInv(d, e);
      ListenedFirst(events, Progress);
      OneListened(e, Progress);
      if e.which == Progress {
        ReactProgress(d, e);
        CallbackOptions.DoKnown(d.progress, ProgressOp(e), fns);
      } else {
        ReactElsewhere(d, e);
        CallbackOptions.DoKnown(d.progress, Lock, fns);
        assert Do(d.progress, Lock) == LockOp(d.progress) by { DoLocks(d.progress); }
      }
      ProgressKnown(React(d, e), events[1..], fns);
    }
  }

  lemma {:induction false} DoLocks(m: Machine)
    ensures Do(m, Lock) == LockOp(m)
  {
  }

  /** Every progress callback called was given to the progress list. */
  lemma {:induction false} ProgressGiven(run: seq<Event>, i: nat)
    requires IsRun(NewDeferred(), run) && i < |After(NewDeferred(), run).progress.log|
    ensures After(NewDeferred(), run).progress.log[i].entry.fn in Listened(run, Progress)
  {
    hide Listened;
    NewUnsettled();
    ProgressKnown(NewDeferred(), run, set f | f in Listened(run, Progress));
  }

  /** The data of the calls of one function, in order. */
  ghost function Said(log: seq<Call>, fn: Fn): seq<Data> {
    if log == [] then []
    else Said(log[..|log| - 1], fn) + if log[|log| - 1].entry.fn == fn then [log[|log| - 1].data] else []
  }

  lemma {:induction false} SaidMore(log: seq<Call>, call: Call, fn: Fn)
    ensures Said(log + [call], fn) == Said(log, fn) + if call.entry.fn == fn then [call.data] else []
  {
    assert (log + [call])[..|log|] == log;
  }

  lemma {:induction false} SaidNothing(log: seq<Call>, fn: Fn)
    requires forall i :: 0 <= i < |log| ==> log[i].entry.fn != fn
    ensures Said(log, fn) == []
  {
    if log != [] {
      SaidNothing(log[..|log| - 1], fn);
    }
  }

  /** The data of all the notify calls of a run, before and after settlement. */
  ghost function Notes(run: seq<Event>): seq<Data> {
    if run == [] then []
    else
      var last := run[|run| - 1];
      Notes(run[..|run| - 1]) + if last.Fire? && last.which == Progress then [last.data] else []
  }

  lemma {:induction false} NotesMore(run: seq<Event>, e: Event)
    ensures Notes(run + [e]) == Notes(run) + if e.Fire? && e.which == Progress then [e.data] else []
  {
    assert (run + [e])[..|run|] == run;
  }

  /** What the deferred takes on is the notes up to its settlement. */
  lemma {:induction false} NotifiedNotes(run: seq<Event>)
    ensures Notified(run) <= Notes(run)
    ensures FirstSettle(run).None? ==> Notified(run) == Notes(run)
  {
    if run != [] {
      hide Notified, Notes, FirstSettle;
      var last := |run| - 1;
      NotifiedNotes(run[..last]);
      NotifiedLast(run[..last], run[last]);
      NotesMore(run[..last], run[last]);
      assert run == run[..last] + [run[last]];
    }
  }

  lemma {:induction false} NotifiedLast(run: seq<Event>, e: Event)
    ensures Notified(run + [e]) == if FirstSettle(run).Some? || !(e.Fire? && e.which == Progress)
                                     then Notified(run) else Notified(run) + [e.data]
    ensures FirstSettle(run + [e]).None? ==> FirstSettle(run).None?
    decreases |run|
  {
    if run == [] {
      assert [] + [e] == [e] && [e][1..] == [];
    } else {
      assert (run + [e])[1..] == run[1..] + [e];
      NotifiedLast(run[1..], e);
    }
  }

  /** The call that an event makes the progress list make, if any. */
  ghost function ProgressCall(d: Deferred, e: Event): Option<Call>
    requires Allowed(d, e)
  {
    var after := React(d, e).progress.log;
    if |after| > |d.progress.log| then Some(after[|after| - 1]) else None
  }

  lemma {:induction false} SaidStep(d: Deferred, e: Event, fn: Fn)
    requires Inv(d) && Allowed(d, e)
    ensures var call := ProgressCall(d, e);
            Said(React(d, e).progress.log, fn) ==
            Said(d.progress.log, fn) + if call.Some? && call.value.entry.fn == fn then [call.value.data] else []
    ensures ProgressCall(d, e).Some? ==> e.which == Progress
  {
    hide React, Inv, Said;
    ProgressStep(d, e);
    var before, after := d.progress.log, React(d, e).progress.log;
    if |after| > |before| {
      assert after == before + [after[|before|]];
      SaidMore(before, after[|before|], fn);
    } else {
      assert after == before && Said(before, fn) + [] == Said(before, fn);
    }
  }

  // ----- Progress callbacks that come late -----

  /** The progress list remembers the notification it served last, settled or not. */
  ghost predicate RemembersNote(d: Deferred) {
    && Callbacks.Inv(d.progress) && CallbackMemory.LastRemembered(d.progress) && Plain(d.progress)
    && d.progress.opts == MEMORY && (d.progress.served != [] ==> d.progress.memory.Some?)
  }

  lemma {:induction false} ReactRemembers(d: Deferred, e: Event)
    requires Inv(d) && RemembersNote(d) && Allowed(d, e)
    ensures RemembersNote(React(d, e))
  {
    hide React, Inv, LogOk, InOrder, PassOk, ServedOk, QueueOk, Do, Plain;
    if e.which == Progress {
      var op := ProgressOp(e);
      ReactProgress(d, e);
      DoInv(d.progress, op);
      DoGrows(d.progress, op);
      StaysPlain(d.progress, op);
      CallbackMemory.DoRecalls(d.progress, op);
    } else {
      ReactElsewhere(d, e);
      LockInv(d.progress);
      LockPlain(d.progress);
    }
  }

  lemma {:induction false} RunRemembers(d: Deferred, events: seq<Event>)
    requires Inv(d) && RemembersNote(d) && IsRun(d, events)
    ensures RemembersNote(After(d, events))
    decreases |events|
  {
    hide React, Inv, RemembersNote;
    if events != [] {
      ReactInv(d, events[0]);
      ReactRemembers(d, events[0]);
      RunRemembers(React(d, events[0]), events[1..]);
    }
  }

  /** A progress callback added between notifications is called at once with the last notification that was served,
      even after the deferred has been settled. */
  lemma {:induction false} LateProgress(events: seq<Event>, fns: seq<Fn>)
    requires IsRun(NewDeferred(), events) && fns != [] && Allowed(After(NewDeferred(), events), Listen(Progress, fns))
    ensures var d := After(NewDeferred(), events);
            var p, p' := d.progress, React(d, Listen(Progress, fns)).progress;
            p.served != [] && !Running(p) ==>
              p'.log == p.log + [Call(p.passes + 1, Entry(fns[0], p.tickets), p.served[|p.served| - 1])]
  {
    hide LogOk, InOrder, PassOk, ServedOk, Queued, Appended, AddOp, Inv;
    NewNotifies();
    RunRemembers(NewDeferred(), events);
    var m := After(NewDeferred(), events).progress;
    if m.served != [] && !Running(m) {
      CallbackMemory.AddIdleCalls(m, fns);
      CallbackOptions.AppendedEach(ListOf(m.body), fns, m.tickets);
    }
  }
}
