/** What becomes of notifications under `then` of jQuery.Deferred (debian/jquery-1.9.1.js). */
module ThenProgress {
  import opened Common
  import C = Callbacks
  import D = DeferredMachine
  import W = WhenMachine
  import opened ThenMachine

  // ----- What was answered -----

  /** The plain answers. */
  ghost function PlainData(answers: seq<Answer>): seq<Data> {
    if answers == [] then []
    else
      var last := answers[|answers| - 1];
      PlainData(answers[..|answers| - 1]) + if last.Plain? then [last.data] else []
  }

  lemma {:induction false} PlainMore(answers: seq<Answer>, a: Answer)
    ensures PlainData(answers + [a]) == PlainData(answers) + if a.Plain? then [a.data] else []
  {
    assert (answers + [a])[..|answers|] == answers;
  }

  /** What the promises notified the new deferred of. */
  ghost function HookNotes(ds: seq<Deferred>): multiset<Data> {
    if ds == [] then multiset{}
    else HookNotes(ds[..|ds| - 1]) + multiset(D.Said(ds[|ds| - 1].progress.log, Settler(D.Progress)))
  }

  /** One deferred's notes more. */
  lemma {:induction false} HookNotesUpdate(ds: seq<Deferred>, j: nat, d: Deferred, more: seq<Data>)
    requires j < |ds|
    requires D.Said(d.progress.log, Settler(D.Progress)) == D.Said(ds[j].progress.log, Settler(D.Progress)) + more
    ensures HookNotes(ds[j := d]) == HookNotes(ds) + multiset(more)
  {
    hide D.Said;
    var last := |ds| - 1;
    if j == last {
      assert ds[j := d][..last] == ds[..last];
    } else {
      HookNotesUpdate(ds[..last], j, d, more);
      assert ds[j := d][..last] == ds[..last][j := d];
    }
  }

  lemma {:induction false} HookNotesNone(ds: seq<Deferred>)
    requires forall j :: 0 <= j < |ds| ==> D.Said(ds[j].progress.log, Settler(D.Progress)) == []
    ensures HookNotes(ds) == multiset{}
  {
    if ds != [] {
      HookNotesNone(ds[..|ds| - 1]);
    }
  }

  // ----- The invariant -----

  /** The arguments of the calls of the progress forwarding function. */
  ghost function Heard(t: Then): seq<Data>
    requires |t.ds| > 0
  {
    D.Said(t.ds[0].progress.log, Forwarder(D.Progress))
  }

  /** Each call of the forwarding function waits for its answer, one at a time; without a function the arguments
      are the answer. */
  ghost predicate HeardOk(t: Then)
    requires |t.ds| > 0
  {
    var heard, calling := Heard(t), t.calls.progress;
    && |heard| == |t.notes| + (if calling.Some? then 1 else 0)
    && (calling.Some? ==> heard[|heard| - 1] == calling.value && C.Running(t.ds[0].progress))
    && (!t.given.progress ==> forall i :: 0 <= i < |t.notes| ==> t.notes[i] == Plain(heard[i]))
  }

  /** The new deferred is notified of each plain answer and of what the promises notify, and of nothing else. */
  ghost predicate NotesOk(t: Then) {
    && multiset(D.Notes(t.targetRun)) == multiset(PlainData(t.notes)) + HookNotes(t.ds)
    && (t.hooks == {} ==> D.Notes(t.targetRun) == PlainData(t.notes))
  }

  ghost predicate ProgressOk(t: Then) {
    |t.ds| > 0 && HeardOk(t) && NotesOk(t)
  }

  // ----- Something happens to a deferred -----

  /** How the calls of a function grow. */
  lemma {:induction false} SaidStep(t: Then, j: nat, e: D.Event, i: nat, fn: C.Fn)
    requires DeferredsOk(t) && CanMove(t, j, e) && i < |t.ds|
    ensures D.Said(Moved(t, j, e).ds[i].progress.log, fn) ==
            D.Said(t.ds[i].progress.log, fn) +
            if i == j && e.which == D.Progress && CallsFn(t, j, e, fn) then [CallOf(t, j, e).value.data] else []
  {
    hide D.React, W.IsDeferred, D.Inv, D.Said;
    if i == j {
      W.DeferredStep(t.ds[j], t.runs[j], e);
      D.SaidStep(t.ds[j], e, fn);
    }
  }

  lemma {:induction false} DeliverHeard(t: Then, j: nat, e: D.Event)
    requires DeferredsOk(t) && CanMove(t, j, e) && |t.ds| > 0 && HeardOk(t)
    ensures HeardOk(Deliver(t, j, e))
  {
    hide D.React, W.IsDeferred, D.Inv, D.Said, CallOf;
    SaidStep(t, j, e, 0, Forwarder(D.Progress));
    DeliverShape(t, j, e);
    if j == 0 {
      W.DeferredStep(t.ds[0], t.runs[0], e);
      D.ProgressStep(t.ds[0], e);
      if e.which == D.Progress && CallsFn(t, j, e, Forwarder(D.Progress)) {
        CallRuns(t, e);
        CallGrows(t, e);
      }
    }
  }

  lemma {:induction false} CallGrows(t: Then, e: D.Event)
    requires CanMove(t, 0, e) && e.which == D.Progress && CallOf(t, 0, e).Some?
    ensures D.React(t.ds[0], e).progress.log != t.ds[0].progress.log
  {
    hide D.React;
  }

  lemma {:induction false} DeliverNotes(t: Then, j: nat, e: D.Event)
    requires DeferredsOk(t) && CanMove(t, j, e) && NotesOk(t) && OnlyHooked(Moved(t, j, e))
    ensures NotesOk(Deliver(t, j, e))
  {
    hide D.React, W.IsDeferred, D.Inv, D.Said, CallOf, HookNotes, D.Notes, PlainData;
    var t' := Deliver(t, j, e);
    DeliverShape(t, j, e);
    SaidStep(t, j, e, j, Settler(D.Progress));
    var told := e.which == D.Progress && CallsFn(t, j, e, Settler(D.Progress));
    var more := if told then [CallOf(t, j, e).value.data] else [];
    HookNotesUpdate(t.ds, j, D.React(t.ds[j], e), more);
    assert D.Notes(t'.targetRun) == D.Notes(t.targetRun) + more by {
      if CallsFn(t, j, e, Settler(e.which)) {
        D.NotesMore(t.targetRun, D.Fire(e.which, CallOf(t, j, e).value.data));
      } else {
        assert D.Notes(t.targetRun) + [] == D.Notes(t.targetRun);
      }
    }
    if told {
      HookedCall(t, j, e);
    }
  }

  /** Only a promise that was returned calls a function of the new deferred. */
  lemma {:induction false} HookedCall(t: Then, j: nat, e: D.Event)
    requires DeferredsOk(t) && CanMove(t, j, e) && OnlyHooked(Moved(t, j, e))
    requires e.which == D.Progress && CallsFn(t, j, e, Settler(D.Progress))
    ensures t.hooks != {}
  {
    hide D.React, D.Listened;
    var t' := Moved(t, j, e);
    MovedDeferreds(t, j, e);
    D.ProgressGiven(t'.runs[j], |t'.ds[j].progress.log| - 1);
    assert Settler(D.Progress) in D.Listened(t'.runs[j], D.Progress);
  }

  lemma {:induction false} DeliverProgress(t: Then, j: nat, e: D.Event)
    requires DeferredsOk(t) && CanMove(t, j, e) && ProgressOk(t) && OnlyHooked(Moved(t, j, e))
    ensures ProgressOk(Deliver(t, j, e))
  {
    hide HeardOk, NotesOk, DeferredsOk, OnlyHooked, Deliver, D.React;
    DeliverShape(t, j, e);
    DeliverHeard(t, j, e);
    DeliverNotes(t, j, e);
  }

  // ----- Every event -----

  lemma {:induction false} AttachProgress(t: Then)
    requires Sized(t) && Inv(t) && ProgressOk(t) && t.attached < 3
    ensures ProgressOk(Attached(t))
  {
    hide D.React, D.Listened, Deliver, OnlyHooked, Forwarding, D.Said, D.Notes, PlainData, HookNotes, W.IsDeferred,
         SettlersOk, OriginOk, ForwardOk, AnswerOk, HooksGiven, Moved;
    var w := Nth(t.attached);
    var e := D.Listen(w, [Forwarder(w)]);
    var t1 := t.(attached := t.attached + 1);
    GivenForward(t);
    MovedAlike(t, t1, e);
    SameGivens(Moved(t, 0, e), Moved(t1, 0, e), t1.attached);
    DeliverProgress(t1, 0, e);
  }

  lemma {:induction false} MovedAlike(t: Then, t1: Then, e: D.Event)
    requires CanMove(t, 0, e) && t1 == t.(attached := t1.attached)
    ensures CanMove(t1, 0, e)
    ensures Moved(t1, 0, e).runs == Moved(t, 0, e).runs && Moved(t1, 0, e).hooks == Moved(t, 0, e).hooks
  {
    hide D.React;
  }

  lemma {:induction false} PoolProgress(t: Then, j: nat, e: D.Event)
    requires Inv(t) && ProgressOk(t) && CanMove(t, j, e) && Foreign(e)
    ensures ProgressOk(Deliver(t, j, e))
  {
    hide Deliver, OnlyHooked, Forwarding, ProgressOk, Foreign;
    GivenKept(t, j, e, t.attached);
    DeliverProgress(t, j, e);
  }

  lemma {:induction false} PlainProgress(t: Then, which: D.Which, data: Data)
    requires ProgressOk(t) && CanAnswer(t, which, Plain(data))
    ensures ProgressOk(Asked(Noted(t, which, Plain(data)), D.Fire(which, data)))
  {
    hide D.React, D.Said, D.Notes, PlainData, HookNotes;
    D.NotesMore(t.targetRun, D.Fire(which, data));
    PlainMore(t.notes, Plain(data));
    assert t.hooks + {} == t.hooks && D.Notes(t.targetRun) + [] == D.Notes(t.targetRun);
  }

  lemma {:induction false} PromiseNoted(t: Then, which: D.Which, sub: nat)
    requires ProgressOk(t) && CanAnswer(t, which, Promise(sub))
    ensures ProgressOk(Noted(t, which, Promise(sub)))
  {
    hide D.Said, D.Notes, PlainData, HookNotes;
    PlainMore(t.notes, Promise(sub));
    assert PlainData(t.notes) + [] == PlainData(t.notes);
    assert Hook(which, sub) in Noted(t, which, Promise(sub)).hooks;
  }

  lemma {:induction false} HookProgress(t: Then, j: nat, h: Hook, w: D.Which)
    requires Mostly(t) && ProgressOk(t) && |t.ds| == |t.runs| && j < |t.ds| && h in t.hooks && h.sub == j
    ensures ProgressOk(Deliver(t, j, Listening(w)))
  {
    hide Deliver, OnlyHooked, Forwarding, ProgressOk;
    GivenKept(t, j, Listening(w), t.attached);
    DeliverProgress(t, j, Listening(w));
  }

  lemma {:induction false} PromiseProgress(t: Then, which: D.Which, sub: nat)
    requires Mostly(t) && ProgressOk(t) && CanAnswer(t, which, Promise(sub)) && |t.ds| == |t.runs|
    ensures ProgressOk(Hooked(Noted(t, which, Promise(sub)), sub))
  {
    hide Mostly, ProgressOk, Deliver, Noted;
    var n, h := Noted(t, which, Promise(sub)), Hook(which, sub);
    PromiseNoted(t, which, sub);
    PromiseMostly(t, which, sub);
    NotedShape(t, which, sub);
    HookProgress(n, sub, h, D.Done);
    HookStep(n, sub, h, D.Done);
    var t1 := Deliver(n, sub, Listening(D.Done));
    HookProgress(t1, sub, h, D.Fail);
    HookStep(t1, sub, h, D.Fail);
    var t2 := Deliver(t1, sub, Listening(D.Fail));
    HookProgress(t2, sub, h, D.Progress);
  }

  lemma {:induction false} TargetProgress(t: Then, e: D.Event)
    requires ProgressOk(t) && D.Allowed(t.target, e) && !e.Fire?
    ensures ProgressOk(Asked(t, e))
  {
    hide D.React, D.Said, D.Notes, PlainData, HookNotes;
    D.NotesMore(t.targetRun, e);
    assert D.Notes(t.targetRun) + [] == D.Notes(t.targetRun);
  }

  lemma {:induction false} ReactProgress(t: Then, e: Event)
    requires Inv(t) && ProgressOk(t) && Allowed(t, e)
    ensures ProgressOk(React(t, e))
  {
    hide Core, ProgressOk, D.React, Deliver, Hooked, Noted, Forwarding, OnlyHooked, HooksGiven;
    match e
    case Attach => AttachProgress(t);
    case Answered(which, answer) =>
      if answer.Plain? {
        PlainProgress(t, which, answer.data);
      } else {
        PromiseProgress(t, which, answer.sub);
      }
    case Pool(j, e) => PoolProgress(t, j, e);
    case Target(e) => TargetProgress(t, e);
  }

  lemma {:induction false} RunProgress(t: Then, events: seq<Event>)
    requires Inv(t) && ProgressOk(t) && IsRun(t, events)
    ensures ProgressOk(After(t, events))
    decreases |events|
  {
    hide Inv, React, ProgressOk;
    if events != [] {
      ReactInv(t, events[0]);
      ReactProgress(t, events[0]);
      RunProgress(React(t, events[0]), events[1..]);
    }
  }

  lemma {:induction false} StartProgress(given: Three<bool>, ds: seq<Deferred>, runs: seq<seq<D.Event>>)
    requires CanStart(ds, runs)
    ensures ProgressOk(Start(given, ds, runs))
  {
    hide D.Said, HookNotes, D.Listened, Foreign;
    forall j | 0 <= j < |ds|
      ensures D.Said(ds[j].progress.log, Settler(D.Progress)) == []
      ensures D.Said(ds[j].progress.log, Forwarder(D.Progress)) == []
    {
      ForeignListened(runs[j], D.Progress);
      forall i | 0 <= i < |ds[j].progress.log| ensures ds[j].progress.log[i].entry.fn >= OTHERS {
        D.ProgressGiven(runs[j], i);
      }
      D.SaidNothing(ds[j].progress.log, Settler(D.Progress));
      D.SaidNothing(ds[j].progress.log, Forwarder(D.Progress));
    }
    HookNotesNone(ds);
  }

  lemma {:induction false} ReachableProgress(t: Then)
    requires Reachable(t)
    ensures ProgressOk(t)
  {
    hide Inv, ProgressOk, IsRun, After, CanStart, Start;
    var given, ds, runs, events :| CanReach(t, given, ds, runs, events);
    StartInv(given, ds, runs);
    StartProgress(given, ds, runs);
    RunProgress(Start(given, ds, runs), events);
  }

  // ----- Main results -----

  /** In every run each notification of the source that reached the forwarding function has had its answer, in
      order, except the one being answered; without a progress function the answer is what it was called with. */
  lemma {:induction false} EveryNoteAnswered(t: Then)
    requires Reachable(t)
    ensures |t.ds| > 0
    ensures var heard, calling := Heard(t), t.calls.progress;
            && |heard| == |t.notes| + (if calling.Some? then 1 else 0)
            && (calling.Some? ==> heard[|heard| - 1] == calling.value)
            && (!t.given.progress ==> forall i :: 0 <= i < |t.notes| ==> t.notes[i] == Plain(heard[i]))
  {
    ReachableProgress(t);
  }

  /** The new deferred is asked to notify of exactly the plain answers and of what the promises returned notify, and
      takes that on until it is settled. */
  lemma {:induction false} NotesForwarded(t: Then)
    requires Reachable(t)
    ensures multiset(D.Notes(t.targetRun)) == multiset(PlainData(t.notes)) + HookNotes(t.ds)
    ensures t.target.progress.accepted <= D.Notes(t.targetRun)
    ensures t.target.state == D.Pending ==> t.target.progress.accepted == D.Notes(t.targetRun)
  {
    hide D.Notes, PlainData, HookNotes, HeardOk;
    ReachableProgress(t);
    ReachableInv(t);
    TargetIs(t);
    D.NotifiedInOrder(t.targetRun);
    D.NotifiedNotes(t.targetRun);
  }

  /** With no progress function and no promise returned, what the source notifies of is passed on unchanged and in
      order, up to the settlement of the new deferred and except for the call being answered. */
  lemma {:induction false} PassedOnUnchanged(t: Then)
    requires Reachable(t) && !t.given.progress && t.hooks == {}
    ensures |t.ds| > 0
    ensures var heard, n := Heard(t), |t.notes|;
            && n <= |heard| <= n + 1 && (|heard| > n <==> t.calls.progress.Some?)
            && t.target.progress.accepted <= heard[..n]
            && (t.target.state == D.Pending ==> t.target.progress.accepted == heard[..n])
  {
    hide D.Notes, PlainData, HookNotes, D.Said;
    ReachableProgress(t);
    NotesForwarded(t);
    PlainOnes(t.notes, Heard(t)[..|t.notes|]);
  }

  lemma {:induction false} PlainOnes(answers: seq<Answer>, data: seq<Data>)
    requires |answers| == |data| && forall i :: 0 <= i < |data| ==> answers[i] == Plain(data[i])
    ensures PlainData(answers) == data
  {
    if answers != [] {
      var last := |answers| - 1;
      PlainOnes(answers[..last], data[..last]);
    }
  }
}
