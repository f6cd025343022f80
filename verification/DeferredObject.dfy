/** The deferred object of debian/jquery-1.9.1.js built from three callback lists. Each method is proved
    to do what the event of the same kind does to the three lists and the state. */
module DeferredObject {
  import opened Common
  import C = Callbacks
  import opened DeferredMachine
  import opened CallbackList

  class DeferredObject {
    const done: CallbackList
    const fail: CallbackList
    const progress: CallbackList
    var state: State

    /** Nobody empties the lists: a deferred does not hand them out. */
    ghost predicate Valid()
      reads this, done, fail, progress
    {
      && done != fail && done != progress && fail != progress
      && done.Valid() && fail.Valid() && progress.Valid()
      && C.Plain(done.View()) && C.Plain(fail.View()) && C.Plain(progress.View())
    }

    ghost function View(): Deferred
      requires Valid()
      reads this, done, fail, progress
    {
      Deferred(done.View(), fail.View(), progress.View(), state)
    }

    ghost function Repr(): set<object> {
      {this, done, fail, progress}
    }

    constructor ()
      ensures Valid() && View() == NewDeferred()
      ensures fresh(Repr())
    {
      hide C.AddOp, CallbackList.Valid, CallbackList.View, C.Plain, C.Create;
      EmptyIsPlain();
      done := new CallbackList(ONCE_MEMORY);
      fail := new CallbackList(ONCE_MEMORY);
      progress := new CallbackList(MEMORY);
      state := Pending;
      new;
      C.StaysPlain(C.Create(ONCE_MEMORY), C.Add(INTERNAL));
      var _ := done.AddAll(INTERNAL);
      var _ := fail.AddAll(INTERNAL);
    }

    static lemma EmptyIsPlain()
      ensures C.Plain(C.Create(ONCE_MEMORY)) && C.Plain(C.Create(MEMORY))
    {
    }

    function Callees(which: Which): CallbackList {
      match which case Done => done case Fail => fail case Progress => progress
    }

    lemma LogOf(which: Which)
      requires Valid()
      ensures List(View(), which).log == Callees(which).log
    {
    }

    /** resolveWith, rejectWith and notifyWith */
    method FireWith(which: Which, data: C.Data)
      requires Valid()
      modifies Repr()
      ensures Valid() && View() == React(old(View()), Fire(which, data))
    {
      hide C.FireOp, RunInternals;
      C.StaysPlain(List(View(), which), C.FireWith(data));
      var _ := Callees(which).FireWith(data);
      CallInternals(which);
    }

    /** done, fail and progress */
    method Listen(which: Which, fns: seq<C.Fn>) returns (called: bool)
      requires Valid() && Allowed(View(), Event.Listen(which, fns))
      modifies Repr()
      ensures Valid() && View() == React(old(View()), Event.Listen(which, fns))
      ensures state == old(state) && forall w :: w != which ==> unchanged(Callees(w))
      ensures Callees(which).Calls(called)
    {
      hide C.AddOp;
      C.StaysPlain(List(View(), which), C.Add(fns));
      called := Callees(which).AddAll(fns);
    }

    method Returned(which: Which, result: bool)
      requires Valid() && Allowed(View(), Return(which, result))
      modifies Repr()
      ensures Valid() && View() == React(old(View()), Return(which, result))
    {
      hide C.ReturnOp;
      C.StaysPlain(List(View(), which), C.Returned(result));
      var _, _ := Callees(which).Returned(result);
    }

    /** The variables of a list tell whether a callback is running, and which. */
    static ghost predicate FiringShows(list: CallbackList)
      requires list.Valid()
      reads list
    {
      && list.View().stack == list.stack && (list.View().body.Firing? <==> list.firing && list.listDefined)
      && (list.View().body.Firing? ==> list.View().body.current == list.current && list.firing && !list.stuck)
    }

    static lemma FiringMeans(list: CallbackList)
      requires list.Valid() && C.Plain(list.View())
      ensures FiringShows(list)
    {
    }

    /** The callbacks that the constructor put in front run at once. */
    method CallInternals(which: Which)
      requires Valid()
      modifies Repr()
      ensures Valid() && View() == RunInternals(old(View()), which)
    {
      hide C.ReturnOp, Effect, CallbackList.Valid, CallbackList.View, C.Plain;
      if which == Progress {
        return;
      }
      var list := Callees(which);
      FiringMeans(list);
      while list.stack.None? && list.firing && list.listDefined && IsInternal(list.current.fn)
        invariant Valid() && FiringShows(list)
        invariant RunInternals(View(), which) == RunInternals(old(View()), which)
        decreases Left(list.View())
      {
        ReturnShrinks(list.View());
        ghost var before := View();
        CallInternal(which, list.current.fn);
        C.StaysPlain(list.View(), C.Returned(true));
        var _, _ := list.Returned(true);
        assert View() == WithList(Effect(before, which, List(before, which).body.current.fn), which,
                                  C.ReturnOp(List(before, which), true));
        FiringMeans(list);
      }
    }

    method CallInternal(which: Which, fn: C.Fn)
      requires Valid() && which != Progress
      modifies Repr()
      ensures Valid() && View() == Effect(old(View()), which, fn) && unchanged(Callees(which))
    {
      if fn == SET_STATE {
        state := if which == Done then Resolved else Rejected;
      } else if fn == DISABLE_OTHER {
        if which == Done {
          fail.DisableList();
        } else {
          done.DisableList();
        }
      } else if fn == LOCK_PROGRESS {
        progress.LockList();
      }
    }
  }
}
