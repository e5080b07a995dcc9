/**
 The `doWhileAsync` function itself (index.mjs, line 3): its argument guards,
 and the closure state of one run as an object whose two methods are the
 continuations `l` (handed to the worker) and `o` (handed to the predicate).
 The calls the run makes into `worker`, `predicate` and `done` are recorded in
 `calls`, in order.
 */
module DoWhile {
  import opened Machine

  /** Which positional argument a guard rejected. */
  datatype Position = First | Second | Third

  /** The `TypeError` a guard throws; its formatted message is not modelled. */
  datatype TypeError = NotAFunction(position: Position)

  /** The three guards, run in argument order: the first argument that is not a
      function decides the error, and there is none when all three are functions. */
  function ArgumentCheck(workerIsFunction: bool, predicateIsFunction: bool, doneIsFunction: bool): (r: Option<TypeError>)
    ensures r.None? <==> workerIsFunction && predicateIsFunction && doneIsFunction
    ensures !workerIsFunction ==> r == Some(NotAFunction(First))
    ensures workerIsFunction && !predicateIsFunction ==> r == Some(NotAFunction(Second))
    ensures workerIsFunction && predicateIsFunction && !doneIsFunction ==> r == Some(NotAFunction(Third))
  {
    if !workerIsFunction then Some(NotAFunction(First))
    else if !predicateIsFunction then Some(NotAFunction(Second))
    else if !doneIsFunction then Some(NotAFunction(Third))
    else None
  }

  /** The loop in `l` that copies its arguments after the first into a fresh
      array, `s[r-1] = arguments[r]` for r from 1. */
  method Capture<V>(extras: seq<V>) returns (s: seq<Arg<V>>)
    ensures s == Captured(extras)
  {
    var a := new Arg<V>[|extras|](_ => Null);
    for r := 1 to |extras| + 1
      invariant forall j :: 0 <= j < r - 1 ==> a[j] == Value(extras[j])
    {
      a[r - 1] := Value(extras[r - 1]);
    }
    s := a[..];
  }

  /** The closure variables of one run: `u` is `counter`, `s` is `buffer`. */
  class Repeater<V> {
    var counter: nat
    var buffer: seq<Arg<V>>
    var phase: Phase
    var calls: seq<Call<V>>

    function Snapshot(): State<V>
      reads this
    {
      State(counter, buffer, phase, calls)
    }

    ghost predicate Valid()
      reads this
    {
      Inv(Snapshot())
    }

    /** `s=[],u=0,n.call(a,u,l)`: an empty buffer, a zero counter, and the first
        worker invocation, with count 0. */
    constructor ()
      ensures Valid() && Snapshot() == Initial()
      ensures counter == 0 && buffer == [] && phase == AwaitWorker && calls == [WorkerCall(0)]
    {
      counter, buffer, phase, calls := 0, [], AwaitWorker, [WorkerCall(0)];
      InitialInv<V>();
    }

    /** The continuation `l`, called by the worker. */
    method WorkerDone(err: Option<V>, extras: seq<V>)
      requires Valid() && phase == AwaitWorker
      modifies this
      ensures Valid()
      ensures Snapshot() == WorkerStep(old(Snapshot()), WorkerReply(err, extras))
      ensures err.Some? ==> && phase == Finished && counter == old(counter) && buffer == old(buffer)
                            && calls == old(calls) + [DoneCall([Value(err.value)])]
      ensures err.None? ==> && phase == AwaitPredicate && counter == old(counter) + 1
                            && buffer == (if |extras| > 0 then Captured(extras) else old(buffer))
                            && calls == old(calls) + [PredicateCall(counter)]
    {
      WorkerStepInv(Snapshot(), WorkerReply(err, extras));
      if err.Some? {
        calls := calls + [DoneCall([Value(err.value)])];
        phase := Finished;
        return;
      }
      counter := counter + 1;
      if |extras| > 0 {
        buffer := Capture(extras);
      }
      calls := calls + [PredicateCall(counter)];
      phase := AwaitPredicate;
    }

    /** The continuation `o`, called by the predicate. */
    method PredicateDone(err: Option<V>, proceed: bool)
      requires Valid() && phase == AwaitPredicate
      modifies this
      ensures Valid()
      ensures Snapshot() == PredicateStep(old(Snapshot()), PredicateReply(err, proceed))
      ensures counter == old(counter)
      ensures err.Some? ==> && phase == Finished && buffer == old(buffer)
                            && calls == old(calls) + [DoneCall([Value(err.value)])]
      ensures err.None? && proceed ==> && phase == AwaitWorker && buffer == old(buffer)
                                       && calls == old(calls) + [WorkerCall(counter)]
      ensures err.None? && !proceed ==> && phase == Finished
                                        && buffer == (if |old(buffer)| > 0 then [Null] + old(buffer) else [])
                                        && calls == old(calls) + [DoneCall(buffer)]
    {
      PredicateStepInv(Snapshot(), PredicateReply(err, proceed));
      if err.Some? {
        calls := calls + [DoneCall([Value(err.value)])];
        phase := Finished;
      } else if proceed {
        calls := calls + [WorkerCall(counter)];
        phase := AwaitWorker;
      } else {
        if |buffer| > 0 {
          buffer := [Null] + buffer;
        }
        calls := calls + [DoneCall(buffer)];
        phase := Finished;
      }
    }
  }

  /** A call of `doWhileAsync`: a guard that fails throws before anything is
      invoked; otherwise the run starts with the worker invoked with count 0. */
  method DoWhileAsync<V>(workerIsFunction: bool, predicateIsFunction: bool, doneIsFunction: bool)
    returns (thrown: Option<TypeError>, run: Repeater?<V>)
    ensures thrown == ArgumentCheck(workerIsFunction, predicateIsFunction, doneIsFunction)
    ensures thrown.Some? <==> run == null
    ensures run != null ==> fresh(run) && run.Valid() && run.Snapshot() == Initial()
  {
    thrown := ArgumentCheck(workerIsFunction, predicateIsFunction, doneIsFunction);
    if thrown.Some? {
      return thrown, null;
    }
    run := new Repeater();
  }
}
