/** The closure of a call of jQuery.when (debian/jquery-1.9.1.js), with a deferred object as its master. Each method
    is proved to do what the function of the same kind does to the closure and the deferreds. */
module WhenCall {
  import opened Common
  import D = DeferredMachine
  import K = Callbacks
  import O = DeferredObject
  import opened WhenMachine

  class WhenCall {
    const args: seq<Arg>
    const content: Data -> seq<Value>
    const master: O.DeferredObject
    var looping: bool
    var i: nat
    var remaining: int
    var resolveValues: seq<Slot>
    var progressValues: seq<Slot>
    /** The copies of the values that the master was fired with. */
    var store: seq<seq<Slot>>
    ghost var masterRun: seq<D.Event>
    ghost var failures: seq<nat>

    ghost predicate Valid()
      reads this, master.Repr()
    {
      && master.Valid() && this !in master.Repr()
      && |resolveValues| == |progressValues| == |args|
    }

    ghost function View(): Closure
      requires Valid()
      reads this, master.Repr()
    {
      Closure(args, content, looping, i, remaining, resolveValues, progressValues, store,
              master.View(), masterRun, failures)
    }

    /** Another deferred object. */
    ghost predicate Apart(sub: O.DeferredObject) {
      sub.Repr() !! master.Repr() && this !in sub.Repr()
    }

    constructor (args: seq<Arg>, content: Data -> seq<Value>)
      ensures Valid() && View() == Begin(args, content) && fresh(master.Repr())
    {
      this.args, this.content := args, content;
      master := new O.DeferredObject();
      looping, i, remaining := true, if |args| > 1 then 0 else |args|, if |args| > 1 then |args| else 0;
      resolveValues := seq(|args|, k requires 0 <= k < |args| => Original(args[k]));
      progressValues := seq(|args|, _ => Undefined);
      store, masterRun, failures := [], [], [];
      new;
    }

    method Notify(which: D.Which, values: seq<Slot>)
      requires Valid()
      modifies this`store, this`masterRun, master.Repr()
      ensures Valid() && View() == FireMaster(old(View()), which, values)
    {
      hide D.React;
      master.FireWith(which, |store|);
      masterRun := masterRun + [D.Fire(which, |store|)];
      store := store + [values];
    }

    /** The function that updateFunc makes for the done list of argument `k` */
    method Update(k: nat, data: Data)
      requires Valid() && k < |args|
      modifies this, master.Repr()
      ensures Valid() && View() == Called(old(View()), D.Done, k, data)
    {
      hide D.React;
      resolveValues := resolveValues[k := Collected(content(data))];
      remaining := remaining - 1;
      if remaining == 0 {
        Notify(D.Done, resolveValues);
      }
    }

    /** The same for the progress list */
    method Progressed(k: nat, data: Data)
      requires Valid() && k < |args|
      modifies this, master.Repr()
      ensures Valid() && View() == Called(old(View()), D.Progress, k, data)
    {
      hide D.React;
      progressValues := progressValues[k := Collected(content(data))];
      Notify(D.Progress, progressValues);
    }

    /** `deferred.reject`, as the fail list of argument `k` calls it */
    method Fails(k: nat, data: Data)
      requires Valid() && k < |args|
      modifies this, master.Repr()
      ensures Valid() && View() == Called(old(View()), D.Fail, k, data)
    {
      hide D.React;
      failures := failures + [k];
      master.FireWith(D.Fail, data);
      masterRun := masterRun + [D.Fire(D.Fail, data)];
    }

    /** One of our functions is called. */
    method Dispatch(which: D.Which, k: nat, data: Data)
      requires Valid() && k < |args|
      modifies this, master.Repr()
      ensures Valid() && View() == Called(old(View()), which, k, data)
    {
      hide Called;
      match which
      case Done => Update(k, data);
      case Fail => Fails(k, data);
      case Progress => Progressed(k, data);
    }

    /** Gives one function to a list of a subordinate, which calls it at once if it has been fired. */
    method Give(sub: O.DeferredObject, which: D.Which)
      requires Valid() && sub.Valid() && Apart(sub) && i < |args|
      modifies this, master.Repr(), sub.Repr()
      ensures Valid() && sub.Valid()
      ensures (View(), sub.View()) == Deliver(old(View()), old(sub.View()), Listening(which, old(i)))
    {
      hide D.React, Called, O.DeferredObject.Valid, O.DeferredObject.View;
      var list := sub.Callees(which);
      ghost var c, d := View(), sub.View();
      sub.LogOf(which);
      OurPosition(args, which, i);
      var called := sub.Listen(which, [OurFn(which, i)]);
      sub.LogOf(which);
      assert NewCall(D.List(d, which), D.List(sub.View(), which)) ==
             if called then Some(K.Call(list.passes, list.current, list.data)) else None;
      assert Valid() && View() == c;
      if called && IsOurs(args, which, list.current.fn) {
        Dispatch(which, PositionOf(list.current.fn), list.data);
      }
    }

    /** One round of the loop for a deferred */
    method VisitPromise(sub: O.DeferredObject)
      requires Valid() && sub.Valid() && Apart(sub) && i < |args|
      modifies this, master.Repr(), sub.Repr()
      ensures Valid() && sub.Valid() && i == old(i) + 1
      ensures (View().(i := old(i)), sub.View()) == Attach(old(View()), old(sub.View()))
    {
      hide Deliver, O.DeferredObject.Valid, O.DeferredObject.View;
      ghost var c, d := View(), sub.View();
      Give(sub, D.Done);
      DeliverKeeps(c, d, Listening(D.Done, c.i));
      c, d := View(), sub.View();
      Give(sub, D.Fail);
      DeliverKeeps(c, d, Listening(D.Fail, c.i));
      c, d := View(), sub.View();
      Give(sub, D.Progress);
      DeliverKeeps(c, d, Listening(D.Progress, c.i));
      i := i + 1;
    }

    /** One round of the loop for a plain value */
    method VisitPlain()
      requires Valid() && i < |args|
      modifies this`remaining, this`i
      ensures Valid() && View() == old(View()).(remaining := old(remaining) - 1, i := old(i) + 1)
    {
      remaining := remaining - 1;
      i := i + 1;
    }

    method FinishLoop()
      requires Valid()
      modifies this, master.Repr()
      ensures Valid() && View() == LoopEnded(old(View()))
    {
      hide D.React;
      looping := false;
      if remaining == 0 {
        Notify(D.Done, resolveValues);
      }
    }
  }
}
