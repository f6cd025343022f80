/** What becomes of notifications under jQuery.when (debian/jquery-1.9.1.js). */
module WhenProgress {
  import opened Common
  import C = Callbacks
  import D = DeferredMachine
  import opened WhenMachine

  // ----- The invariant -----

  /** The arguments of the calls of the progress function of position `k`, in order. */
  ghost function SaidAt(w: When, k: nat): seq<Data>
    requires Sized(w) && k < |w.c.args|
  {
    if w.c.args[k].Plain? then [] else D.Said(w.subs[w.c.args[k].sub].progress.log, OurFn(D.Progress, k))
  }

  /** The calls of the first `n` progress functions. */
  ghost function SaidCount(w: When, n: nat): nat
    requires Sized(w) && n <= |w.c.args|
  {
    if n == 0 then 0 else SaidCount(w, n - 1) + |SaidAt(w, n - 1)|
  }

  /** The value of a position is all that its progress function was last called with. */
  ghost predicate LatestAt(w: When, k: nat)
    requires Sized(w) && k < |w.c.args|
  {
    var said := SaidAt(w, k);
    if said == [] then w.c.progress[k] == Undefined else Carries(w.c.progress[k], w.c.content(said[|said| - 1]))
  }

  /** The master was notified once for each call, the last time with the values as they are. */
  ghost predicate NotedAll(w: When)
    requires Sized(w)
  {
    var notes := D.Notes(w.c.masterRun);
    && |notes| == SaidCount(w, |w.c.args|)
    && (notes != [] ==> notes[|notes| - 1] < |w.c.store| && w.c.store[notes[|notes| - 1]] == w.c.progress)
  }

  ghost predicate ProgressOk(w: When) {
    Sized(w) && (forall k :: 0 <= k < |w.c.args| ==> LatestAt(w, k)) && NotedAll(w)
  }

  // ----- Counting -----

  lemma {:induction false} CountSame(w: When, w': When, n: nat)
    requires Sized(w) && Sized(w') && w'.c.args == w.c.args && n <= |w.c.args|
    requires forall k :: 0 <= k < n ==> SaidAt(w', k) == SaidAt(w, k)
    ensures SaidCount(w', n) == SaidCount(w, n)
  {
    hide SaidAt;
    if n > 0 {
      CountSame(w, w', n - 1);
    }
  }

  lemma {:induction false} CountOneMore(w: When, w': When, n: nat, k: nat)
    requires Sized(w) && Sized(w') && w'.c.args == w.c.args && k < n <= |w.c.args|
    requires forall m :: 0 <= m < n && m != k ==> SaidAt(w', m) == SaidAt(w, m)
    requires |SaidAt(w', k)| == |SaidAt(w, k)| + 1
    ensures SaidCount(w', n) == SaidCount(w, n) + 1
  {
    hide SaidAt;
    if n - 1 == k {
      CountSame(w, w', n - 1);
    } else {
      CountOneMore(w, w', n - 1, k);
    }
  }

  // ----- Something happens to a subordinate -----

  lemma {:induction false} SaidAtStep(w: When, j: nat, e: D.Event, k: nat)
    requires Sized(w) && SubsOk(w) && j < |w.subs| && D.Allowed(w.subs[j], e) && k < |w.c.args|
    ensures Sized(Delivered(w, j, e)) && Delivered(w, j, e).c.args == w.c.args
    ensures SaidAt(Delivered(w, j, e), k) == SaidAt(w, k) +
              if e.which == D.Progress && CallsPosition(w, j, e, k) && w.c.args[k] == Promise(j)
              then [CallOf(w, j, e).value.data] else []
  {
    hide D.React, IsDeferred, D.Inv, D.Said, Deliver;
    DeliveredSized(w, j, e);
    DeliveredSub(w, j, e);
    OurPosition(w.c.args, D.Progress, k);
    if w.c.args[k] == Promise(j) {
      DeferredStep(w.subs[j], w.runs[j], e);
      D.SaidStep(w.subs[j], e, OurFn(D.Progress, k));
    }
  }

  /** A progress function is called by the deferred of its position. */
  lemma {:induction false} OwnPosition(w: When, j: nat, e: D.Event, b: Bounds, k: nat)
    requires Sized(w) && SubsOk(w) && j < |w.subs| && D.Allowed(w.subs[j], e) && Given(Delivered(w, j, e), b)
    requires e.which == D.Progress && CallsPosition(w, j, e, k)
    ensures k < |w.c.args| && w.c.args[k] == Promise(j)
  {
    hide D.React, Deliver, D.Listened, D.Inv;
    var w' := Delivered(w, j, e);
    SubsStep(w, j, e);
    DeliveredSub(w, j, e);
    OurPosition(w.c.args, D.Progress, k);
    var log := w'.subs[j].progress.log;
    D.ProgressGiven(w'.runs[j], |log| - 1);
    assert OurFn(D.Progress, k) in multiset(D.Listened(w'.runs[j], D.Progress));
    assert GivenAt(w', b, D.Progress, j, k);
  }

  /** Calls of other functions leave the progress values and the notifications alone. */
  lemma {:induction false} HeedElsewhere(w: When, j: nat, e: D.Event)
    requires Sized(w) && j < |w.subs| && D.Allowed(w.subs[j], e)
    requires e.which == D.Progress ==> forall k :: !CallsPosition(w, j, e, k)
    ensures var c := Delivered(w, j, e).c;
            c.progress == w.c.progress && c.content == w.c.content && D.Notes(c.masterRun) == D.Notes(w.c.masterRun)
            && w.c.store <= c.store
  {
    hide D.React, CallOf, D.Notes, Deliver, Collected;
    DeliveredSub(w, j, e);
    if e.which == D.Progress {
      NoHeed(w, j, e);
    } else {
      var call := CallOf(w, j, e);
      D.NotesMore(w.c.masterRun, D.Fire(D.Done, |w.c.store|));
      assert D.Notes(w.c.masterRun) + [] == D.Notes(w.c.masterRun);
      if call.Some? {
        D.NotesMore(w.c.masterRun, D.Fire(D.Fail, call.value.data));
      }
    }
  }

  lemma {:induction false} DeliverElsewhere(w: When, j: nat, e: D.Event)
    requires ProgressOk(w) && SubsOk(w) && j < |w.subs| && D.Allowed(w.subs[j], e)
    requires e.which == D.Progress ==> forall k :: !CallsPosition(w, j, e, k)
    ensures ProgressOk(Delivered(w, j, e))
  {
    hide Delivered, SubsOk, CallsPosition, SaidAt, D.Notes, SaidCount, Carries;
    var w' := Delivered(w, j, e);
    DeliveredSized(w, j, e);
    HeedElsewhere(w, j, e);
    forall k | 0 <= k < |w.c.args| ensures SaidAt(w', k) == SaidAt(w, k) {
      SaidAtStep(w, j, e, k);
    }
    CountSame(w, w', |w.c.args|);
    forall k | 0 <= k < |w.c.args| ensures LatestAt(w', k) {
      assert LatestAt(w, k);
    }
  }

  lemma {:induction false} DeliverNote(w: When, j: nat, e: D.Event, b: Bounds, k: nat)
    requires ProgressOk(w) && SubsOk(w) && j < |w.subs| && D.Allowed(w.subs[j], e) && Given(Delivered(w, j, e), b)
    requires e.which == D.Progress && CallsPosition(w, j, e, k)
    ensures ProgressOk(Delivered(w, j, e))
  {
    hide Delivered, SubsOk, CallsPosition, SaidAt, D.Notes, SaidCount, Carries, CallOf, Ask, Collected, D.React, Given;
    var w' := Delivered(w, j, e);
    DeliveredSized(w, j, e);
    DeliveredSub(w, j, e);
    OneHeed(w, j, e, k);
    OwnPosition(w, j, e, b, k);
    var data := CallOf(w, j, e).value.data;
    NoteEffect(w.c, k, data);
    CollectedCarries(w.c.content(data));
    forall m | 0 <= m < |w.c.args| ensures SaidAt(w', m) == SaidAt(w, m) + if m == k then [data] else [] {
      SaidAtStep(w, j, e, m);
    }
    CountOneMore(w, w', |w.c.args|, k);
    forall m | 0 <= m < |w.c.args| ensures LatestAt(w', m) {
      assert LatestAt(w, m);
    }
  }

  lemma {:induction false} NoteEffect(c: Closure, k: nat, data: Data)
    requires k < |c.values| && k < |c.progress|
    ensures var c' := Called(c, D.Progress, k, data);
            && c'.progress == c.progress[k := Collected(c.content(data))] && c'.store == c.store + [c'.progress]
            && D.Notes(c'.masterRun) == D.Notes(c.masterRun) + [|c.store|]
  {
    hide D.React, D.Notes, Collected;
    D.NotesMore(c.masterRun, D.Fire(D.Progress, |c.store|));
  }

  lemma {:induction false} DeliverProgressOk(w: When, j: nat, e: D.Event, b: Bounds)
    requires ProgressOk(w) && SubsOk(w) && j < |w.subs| && D.Allowed(w.subs[j], e) && Given(Delivered(w, j, e), b)
    ensures ProgressOk(Delivered(w, j, e))
  {
    hide ProgressOk, SubsOk, CallsPosition, Given, Delivered;
    if k: nat :| e.which == D.Progress && CallsPosition(w, j, e, k) {
      DeliverNote(w, j, e, b, k);
    } else {
      DeliverElsewhere(w, j, e);
    }
  }

  // ----- Every event -----

  lemma {:induction false} AttachedProgress(w: When)
    requires Inv(w, Even(w.c.i)) && ProgressOk(w) && w.c.i < |w.c.args| && w.c.args[w.c.i].Promise?
    ensures ProgressOk(Attached(w, w.c.i))
  {
    hide Inv, Given, Delivered, ProgressOk, SubsOk;
    var k, j := w.c.i, w.c.args[w.c.i].sub;
    InvParts(w, Even(k));
    FramedSubs(w, Even(k));
    GivenOurs(w, D.Done, k, Even(k));
    DeliverProgressOk(w, j, Listening(D.Done, k), Bounds(k + 1, k, k));
    SubsStep(w, j, Listening(D.Done, k));
    DeliveredSized(w, j, Listening(D.Done, k));
    var w1 := Delivered(w, j, Listening(D.Done, k));
    GivenOurs(w1, D.Fail, k, Bounds(k + 1, k, k));
    DeliverProgressOk(w1, j, Listening(D.Fail, k), Bounds(k + 1, k + 1, k));
    SubsStep(w1, j, Listening(D.Fail, k));
    DeliveredSized(w1, j, Listening(D.Fail, k));
    var w2 := Delivered(w1, j, Listening(D.Fail, k));
    GivenOurs(w2, D.Progress, k, Bounds(k + 1, k + 1, k));
    DeliverProgressOk(w2, j, Listening(D.Progress, k), Even(k + 1));
  }

  /** Nothing that the progress values depend on changed. */
  lemma {:induction false} SameProgress(w: When, w': When)
    requires ProgressOk(w) && Sized(w') && w'.subs == w.subs && w'.c.args == w.c.args
    requires w'.c.content == w.c.content && w'.c.progress == w.c.progress && w.c.store <= w'.c.store
    requires D.Notes(w'.c.masterRun) == D.Notes(w.c.masterRun)
    ensures ProgressOk(w')
  {
    hide D.Notes, D.Said, SaidCount, Carries;
    CountSame(w, w', |w.c.args|);
    forall k | 0 <= k < |w.c.args| ensures LatestAt(w', k) {
      assert LatestAt(w, k);
    }
  }

  lemma {:induction false} AskQuietly(c: Closure, e: D.Event)
    requires D.Allowed(c.master, e) && !(e.Fire? && e.which == D.Progress)
    ensures D.Notes(Ask(c, e).masterRun) == D.Notes(c.masterRun)
  {
    hide D.React, D.Notes;
    D.NotesMore(c.masterRun, e);
    assert D.Notes(c.masterRun) + [] == D.Notes(c.masterRun);
  }

  lemma {:induction false} ReactProgress(w: When, e: Event)
    requires Inv(w, Even(w.c.i)) && ProgressOk(w) && Allowed(w, e)
    ensures ProgressOk(React(w, e))
  {
    hide Inv, Given, Delivered, Attached, ProgressOk, SubsOk, D.Notes, D.React;
    InvParts(w, Even(w.c.i));
    match e
    case Visit =>
      if w.c.args[w.c.i].Promise? {
        AttachedProgress(w);
        ProgressSized(Attached(w, w.c.i));
        SameProgress(Attached(w, w.c.i), React(w, e));
      } else {
        SameProgress(w, React(w, e));
      }
    case EndLoop =>
      AskQuietly(w.c, D.Fire(D.Done, |w.c.store|));
      SameProgress(w, React(w, e));
    case Sub(j, e) =>
      FramedSubs(w, Even(w.c.i));
      GivenForeign(w, j, e, Even(w.c.i));
      DeliverProgressOk(w, j, e, Even(w.c.i));
    case Master(e) =>
      AskQuietly(w.c, e);
      SameProgress(w, w.(c := Ask(w.c, e)));
  }

  lemma {:induction false} ProgressSized(w: When)
    requires ProgressOk(w)
    ensures Sized(w)
  {
  }

  lemma {:induction false} RunProgress(w: When, events: seq<Event>)
    requires Inv(w, Even(w.c.i)) && ProgressOk(w) && IsRun(w, events)
    ensures ProgressOk(After(w, events))
    decreases |events|
  {
    hide Inv, React, ProgressOk;
    if events != [] {
      ReactInv(w, events[0]);
      ReactProgress(w, events[0]);
      RunProgress(React(w, events[0]), events[1..]);
    }
  }

  lemma {:induction false} StartProgress(args: seq<Arg>, content: Data -> seq<Value>, subs: seq<Deferred>,
                                         runs: seq<seq<D.Event>>)
    requires CanStart(args, subs, runs)
    ensures ProgressOk(Start(args, content, subs, runs))
  {
    hide D.Said, D.Listened, Foreign, SaidCount, AllFrom;
    var w := Start(args, content, subs, runs);
    forall k | 0 <= k < |args| ensures SaidAt(w, k) == [] {
      if args[k].Promise? {
        var j := args[k].sub;
        ForeignListened(args, runs[j], D.Progress);
        OurPosition(args, D.Progress, k);
        forall i | 0 <= i < |subs[j].progress.log| ensures subs[j].progress.log[i].entry.fn >= Others(args) {
          D.ProgressGiven(runs[j], i);
          AllFromMeans(D.Listened(runs[j], D.Progress), Others(args), subs[j].progress.log[i].entry.fn);
        }
        D.SaidNothing(subs[j].progress.log, OurFn(D.Progress, k));
      }
    }
    NothingSaid(w, |args|);
  }

  lemma {:induction false} AllFromMeans(fns: seq<C.Fn>, least: nat, fn: C.Fn)
    requires AllFrom(fns, least) && fn in fns
    ensures fn >= least
  {
  }

  lemma {:induction false} NothingSaid(w: When, n: nat)
    requires Sized(w) && n <= |w.c.args| && forall k :: 0 <= k < n ==> SaidAt(w, k) == []
    ensures SaidCount(w, n) == 0
  {
    hide SaidAt;
    if n > 0 {
      NothingSaid(w, n - 1);
    }
  }

  // ----- Main result -----

  /** In every run the progress value of a position is all that its deferred last called the progress function with,
      undefined before the first call. The master is asked to notify once for each such call, the last time with
      the values as they are now, and takes that on until it is settled. */
  lemma {:induction false} ProgressFollows(w: When)
    requires Reachable(w)
    ensures Sized(w) && (forall k :: 0 <= k < |w.c.args| ==> LatestAt(w, k)) && NotedAll(w)
    ensures w.c.master.progress.accepted <= D.Notes(w.c.masterRun)
    ensures w.c.master.state == D.Pending ==> w.c.master.progress.accepted == D.Notes(w.c.masterRun)
  {
    hide Inv, IsRun, After, CanStart, Start, D.Notes, D.Notified, D.React, SaidAt, SaidCount;
    var args, content, subs, runs, events :| CanReach(w, args, content, subs, runs, events);
    StartInv(args, content, subs, runs);
    StartProgress(args, content, subs, runs);
    RunProgress(Start(args, content, subs, runs), events);
    ReachableInv(w);
    InvParts(w, Even(w.c.i));
    MasterNotes(w);
  }

  lemma {:induction false} MasterNotes(w: When)
    requires IsDeferred(w.c.master, w.c.masterRun)
    ensures w.c.master.progress.accepted <= D.Notes(w.c.masterRun)
    ensures w.c.master.state == D.Pending ==> w.c.master.progress.accepted == D.Notes(w.c.masterRun)
  {
    hide D.Notes, D.Notified, D.React;
    D.NotifiedInOrder(w.c.masterRun);
    D.NotifiedNotes(w.c.masterRun);
  }
}
