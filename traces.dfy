/**
 Whole runs of `doWhileAsync` (index.mjs, line 3), driven by scripts: the
 replies the worker gives on its successive invocations and the replies the
 predicate gives on its successive checks. Each invocation is answered by the
 next unused reply of its script; the run ends when `done` is called or when the
 script of the party being awaited runs out (a callback that never fires).
 */
module Traces {
  import opened Machine

  /** Feeds the scripted replies to the continuation the run is waiting for.
      A run only adds calls to its log, and its counter never goes down. */
  function Drive<V>(st: State<V>, ws: seq<WorkerReply<V>>, ps: seq<PredicateReply<V>>): (r: State<V>)
    ensures st.calls <= r.calls
    ensures st.counter <= r.counter
    decreases |ws| + |ps|
  {
    match st.phase
    case AwaitWorker =>
      if ws == [] then st else Drive(WorkerStep(st, ws[0]), ws[1..], ps)
    case AwaitPredicate =>
      if ps == [] then st else Drive(PredicateStep(st, ps[0]), ws, ps[1..])
    case Finished => st
  }

  /** Every state a run reaches has the shape `Inv` describes. */
  lemma {:induction false} DriveInv<V>(st: State<V>, ws: seq<WorkerReply<V>>, ps: seq<PredicateReply<V>>)
    requires Inv(st)
    ensures Inv(Drive(st, ws, ps))
    decreases |ws| + |ps|
  {
    match st.phase
    case AwaitWorker =>
      if ws != [] {
        WorkerStepInv(st, ws[0]);
        DriveInv(WorkerStep(st, ws[0]), ws[1..], ps);
      }
    case AwaitPredicate =>
      if ps != [] {
        PredicateStepInv(st, ps[0]);
        DriveInv(PredicateStep(st, ps[0]), ws, ps[1..]);
      }
    case Finished =>
  }

  /** From the start, whatever the scripts: `done` is called at most once, and
      only as the last call; the predicate is asked once per counted success. */
  lemma DoneAtMostOnce<V>(ws: seq<WorkerReply<V>>, ps: seq<PredicateReply<V>>)
    ensures var r := Drive(Initial<V>(), ws, ps);
      && Tally(r.calls, Done) == (if r.phase == Finished then 1 else 0)
      && (r.phase == Finished <==> r.calls[|r.calls| - 1].DoneCall?)
      && Tally(r.calls, Predicate) == r.counter
  {
    InitialInv<V>();
    DriveInv(Initial<V>(), ws, ps);
    var r := Drive(Initial<V>(), ws, ps);
    InvTally(r);
  }

  /** A worker script that succeeds every time, passing `xs[i]` as its extra
      values on invocation i. */
  function Successes<V>(xs: seq<seq<V>>): (ws: seq<WorkerReply<V>>)
    ensures |ws| == |xs|
    ensures forall i :: 0 <= i < |xs| ==> ws[i] == WorkerReply(None, xs[i])
  {
    if xs == [] then [] else [WorkerReply(None, xs[0])] + Successes(xs[1..])
  }

  /** A predicate script that says continue `k` times. */
  function Continues<V>(k: nat): (ps: seq<PredicateReply<V>>)
    ensures |ps| == k
    ensures forall i :: 0 <= i < k ==> ps[i] == PredicateReply(None, true)
  {
    if k == 0 then [] else [PredicateReply(None, true)] + Continues(k - 1)
  }

  /** The buffer after the worker has succeeded with each of `xs` in turn,
      starting from `buffer`. */
  function Kept<V>(buffer: seq<Arg<V>>, xs: seq<seq<V>>): seq<Arg<V>>
    decreases |xs|
  {
    if xs == [] then buffer
    else Kept(if |xs[0]| > 0 then Captured(xs[0]) else buffer, xs[1..])
  }

  /** The buffer holds the extra values of the latest round that had any ... */
  lemma {:induction false} KeptIsLatestCapture<V>(buffer: seq<Arg<V>>, xs: seq<seq<V>>, i: nat)
    requires i < |xs| && |xs[i]| > 0
    requires forall j :: i < j < |xs| ==> xs[j] == []
    ensures Kept(buffer, xs) == Captured(xs[i])
    decreases i
  {
    var b := if |xs[0]| > 0 then Captured(xs[0]) else buffer;
    if i == 0 {
      KeptWithoutExtras(b, xs[1..]);
    } else {
      KeptIsLatestCapture(b, xs[1..], i - 1);
    }
  }

  /** ... and rounds without extra values leave it as it was. */
  lemma {:induction false} KeptWithoutExtras<V>(buffer: seq<Arg<V>>, xs: seq<seq<V>>)
    requires forall j :: 0 <= j < |xs| ==> xs[j] == []
    ensures Kept(buffer, xs) == buffer
  {
    if xs != [] {
      KeptWithoutExtras(buffer, xs[1..]);
    }
  }

  /** One round in which the worker succeeds with `x` and the predicate says
      continue: the counter goes up by one, the buffer takes `x` when it is not
      empty, and the log gains a predicate call and a worker call. */
  lemma OneRound<V>(st: State<V>, x: seq<V>, ws: seq<WorkerReply<V>>, ps: seq<PredicateReply<V>>)
    requires st.phase == AwaitWorker && st.calls == Rounds(st.counter)
    ensures Drive(st, [WorkerReply(None, x)] + ws, [PredicateReply(None, true)] + ps)
         == Drive(State(st.counter + 1, if |x| > 0 then Captured(x) else st.buffer, AwaitWorker, Rounds(st.counter + 1)), ws, ps)
  {
    var n := st.counter + 1;
    var ws' := [WorkerReply(None, x)] + ws;
    var ps' := [PredicateReply(None, true)] + ps;
    var st1 := WorkerStep(st, ws'[0]);
    var st2 := PredicateStep(st1, ps'[0]);
    var b := if |x| > 0 then Captured(x) else st.buffer;
    assert st1 == State(n, b, AwaitPredicate, st.calls + [PredicateCall(n)]);
    assert Rounds<V>(n) == st.calls + [PredicateCall(n), WorkerCall(n)];
    assert st2 == State(n, b, AwaitWorker, Rounds(n));
    assert ws'[1..] == ws;
    assert ps'[1..] == ps;
    assert Drive(st, ws', ps') == Drive(st1, ws, ps');
    assert Drive(st1, ws, ps') == Drive(st2, ws, ps);
  }

  /** The first reply of a success script, split off. */
  lemma SuccessesCons<V>(xs: seq<seq<V>>, ws: seq<WorkerReply<V>>)
    requires xs != []
    ensures Successes(xs) + ws == [WorkerReply(None, xs[0])] + (Successes(xs[1..]) + ws)
  {
    assert Successes(xs) == [WorkerReply(None, xs[0])] + Successes(xs[1..]);
  }

  /** The first reply of a continue script, split off. */
  lemma ContinuesCons<V>(k: nat, ps: seq<PredicateReply<V>>)
    requires k >= 1
    ensures Continues(k) + ps == [PredicateReply(None, true)] + (Continues(k - 1) + ps)
  {
    assert Continues<V>(k) == [PredicateReply(None, true)] + Continues(k - 1);
  }

  /** `|xs|` rounds in which the worker succeeds and the predicate says continue
      bring the run back to waiting for the worker, with the counter up by
      `|xs|`, the log extended by strictly alternating calls, and the buffer as
      `Kept` says. What the scripts hold after those rounds is left for later. */
  lemma {:induction false} DriveRounds<V>(st: State<V>, xs: seq<seq<V>>, ws: seq<WorkerReply<V>>, ps: seq<PredicateReply<V>>)
    requires st.phase == AwaitWorker && st.calls == Rounds(st.counter)
    ensures Drive(st, Successes(xs) + ws, Continues(|xs|) + ps)
         == Drive(State(st.counter + |xs|, Kept(st.buffer, xs), AwaitWorker, Rounds(st.counter + |xs|)), ws, ps)
    decreases |xs|
  {
    if xs == [] {
      assert Successes(xs) + ws == ws;
      assert Continues<V>(0) + ps == ps;
      assert State(st.counter + |xs|, Kept(st.buffer, xs), AwaitWorker, Rounds(st.counter + |xs|)) == st;
    } else {
      var ys := xs[1..];
      assert |ys| == |xs| - 1;
      var rest := Successes(ys) + ws;
      var ps1 := Continues(|ys|) + ps;
      SuccessesCons(xs, ws);
      ContinuesCons<V>(|xs|, ps);
      var b := if |xs[0]| > 0 then Captured(xs[0]) else st.buffer;
      var st2 := State(st.counter + 1, b, AwaitWorker, Rounds<V>(st.counter + 1));
      OneRound(st, xs[0], rest, ps1);
      DriveRounds(st2, ys, ws, ps);
      assert st2.counter + |ys| == st.counter + |xs|;
      assert Kept(b, ys) == Kept(st.buffer, xs);
    }
  }

  /** The last round of a run from the start: after `|xs| - 1` continued rounds
      the worker succeeds once more and the predicate gives `reply`. */
  lemma LastRound<V>(xs: seq<seq<V>>, reply: PredicateReply<V>, ws: seq<WorkerReply<V>>, ps: seq<PredicateReply<V>>)
    requires |xs| >= 1
    ensures Drive(Initial<V>(), Successes(xs) + ws, Continues(|xs| - 1) + [reply] + ps)
         == Drive(PredicateStep(State(|xs|, Kept([], xs), AwaitPredicate, Checking(|xs|)), reply), ws, ps)
  {
    var n := |xs| - 1;
    var front, last := xs[..n], xs[n];
    assert xs == front + [last];
    var ws' := [WorkerReply(None, last)] + ws;
    var ps' := [reply] + ps;
    assert Successes(xs) + ws == Successes(front) + ws';
    assert Continues<V>(n) + [reply] + ps == Continues(|front|) + ps';
    DriveRounds(Initial<V>(), front, ws', ps');
    var mid := State(n, Kept([], front), AwaitWorker, Rounds<V>(n));
    KeptAppend([], front, last);
    var st1 := WorkerStep(mid, ws'[0]);
    assert st1 == State(|xs|, Kept([], xs), AwaitPredicate, Checking(|xs|));
    assert ws'[1..] == ws;
    assert ps'[1..] == ps;
    assert Drive(mid, ws', ps') == Drive(st1, ws, ps');
  }

  /** Calling `done` adds one to its tally and nothing to the others'. */
  lemma DoneTally<V>(before: seq<Call<V>>, args: seq<Arg<V>>)
    ensures Tally(before + [DoneCall(args)], Worker) == Tally(before, Worker)
    ensures Tally(before + [DoneCall(args)], Predicate) == Tally(before, Predicate)
    ensures Tally(before + [DoneCall(args)], Done) == Tally(before, Done) + 1
  {
  }

  /** The predicate says continue `|xs| - 1` times and then stop: the worker
      ran `|xs|` times, the predicate `|xs|` times, in strict alternation, and
      `done` got `null` and the kept buffer, or nothing when the buffer is empty.
      Replies left in either script are never used. */
  lemma RunUntilStop<V>(xs: seq<seq<V>>, ws: seq<WorkerReply<V>>, ps: seq<PredicateReply<V>>)
    requires |xs| >= 1
    ensures var r := Drive(Initial<V>(), Successes(xs) + ws, Continues(|xs| - 1) + [PredicateReply(None, false)] + ps);
      && r.phase == Finished
      && r.counter == |xs|
      && r.calls == Checking(|xs|) + [DoneCall(Stopped(Kept([], xs)))]
      && Tally(r.calls, Worker) == |xs| && Tally(r.calls, Predicate) == |xs| && Tally(r.calls, Done) == 1
  {
    LastRound(xs, PredicateReply(None, false), ws, ps);
    CheckingTally<V>(|xs|);
    DoneTally(Checking<V>(|xs|), Stopped(Kept([], xs)));
  }

  /** The worker fails with `e` on invocation `|xs| + 1`, after `|xs|` rounds in
      which the predicate said continue: `done` gets exactly `e`, the predicate is
      not asked for that attempt, the counter stays at `|xs|`, and nothing is
      called afterwards whatever the scripts still hold. */
  lemma WorkerFailsOnRound<V>(xs: seq<seq<V>>, e: V, extras: seq<V>, ws: seq<WorkerReply<V>>, ps: seq<PredicateReply<V>>)
    ensures var r := Drive(Initial<V>(), Successes(xs) + ([WorkerReply(Some(e), extras)] + ws), Continues(|xs|) + ps);
      && r.phase == Finished
      && r.counter == |xs|
      && r.calls == Rounds(|xs|) + [DoneCall([Value(e)])]
      && Tally(r.calls, Worker) == |xs| + 1 && Tally(r.calls, Predicate) == |xs| && Tally(r.calls, Done) == 1
  {
    var ws' := [WorkerReply(Some(e), extras)] + ws;
    DriveRounds(Initial<V>(), xs, ws', ps);
    var mid := State(|xs|, Kept([], xs), AwaitWorker, Rounds<V>(|xs|));
    assert Drive(mid, ws', ps) == WorkerStep(mid, ws'[0]);
    RoundsTally<V>(|xs|);
    DoneTally(Rounds<V>(|xs|), [Value(e)]);
  }

  /** The predicate fails with `e` on check `|xs|`, after saying continue on every
      earlier check: `done` gets exactly `e` and nothing is called afterwards. */
  lemma PredicateFailsOnCheck<V>(xs: seq<seq<V>>, e: V, proceed: bool, ws: seq<WorkerReply<V>>, ps: seq<PredicateReply<V>>)
    requires |xs| >= 1
    ensures var r := Drive(Initial<V>(), Successes(xs) + ws, Continues(|xs| - 1) + [PredicateReply(Some(e), proceed)] + ps);
      && r.phase == Finished
      && r.counter == |xs|
      && r.buffer == Kept([], xs)
      && r.calls == Checking(|xs|) + [DoneCall([Value(e)])]
      && Tally(r.calls, Worker) == |xs| && Tally(r.calls, Predicate) == |xs| && Tally(r.calls, Done) == 1
  {
    LastRound(xs, PredicateReply(Some(e), proceed), ws, ps);
    CheckingTally<V>(|xs|);
    DoneTally(Checking<V>(|xs|), [Value(e)]);
  }

  lemma {:induction false} KeptAppend<V>(buffer: seq<Arg<V>>, xs: seq<seq<V>>, x: seq<V>)
    ensures Kept(buffer, xs + [x]) == (if |x| > 0 then Captured(x) else Kept(buffer, xs))
    decreases |xs|
  {
    if xs == [] {
      assert xs + [x] == [x];
    } else {
      assert (xs + [x])[1..] == xs[1..] + [x];
      KeptAppend(if |xs[0]| > 0 then Captured(xs[0]) else buffer, xs[1..], x);
    }
  }

  /** The worker calls back `next(null, x)` and the predicate `next(null, false)`:
      `done(null, x)`, after one worker and one predicate invocation. */
  lemma OneValueThenStop<V>(x: V)
    ensures Drive(Initial<V>(), [WorkerReply(None, [x])], [PredicateReply(None, false)]).calls
         == [WorkerCall(0), PredicateCall(1), DoneCall([Null, Value(x)])]
  {
    var xs := [[x]];
    RunUntilStop(xs, [], []);
    assert Successes(xs) + [] == [WorkerReply(None, [x])];
    assert Continues<V>(0) + [PredicateReply(None, false)] + [] == [PredicateReply(None, false)];
    assert Kept([], xs) == [Value(x)];
    assert Checking<V>(1) == [WorkerCall(0), PredicateCall(1)];
    assert Stopped([Value(x)]) == [Null, Value(x)];
  }

  /** The worker calls back `next(null)` and the predicate says stop:
      `done` is called with no arguments at all. */
  lemma NoValuesThenStop<V>()
    ensures Drive(Initial<V>(), [WorkerReply(None, [])], [PredicateReply(None, false)]).calls
         == [WorkerCall(0), PredicateCall(1), DoneCall([])]
  {
  }

  /** A round without extra values keeps the values of the round before:
      `next(null, a)`, continue, `next(null)`, stop gives `done(null, a)`. */
  lemma EarlierValuesKept<V>(a: V)
    ensures Drive(Initial<V>(), [WorkerReply(None, [a]), WorkerReply(None, [])],
                  [PredicateReply(None, true), PredicateReply(None, false)]).calls
         == [WorkerCall(0), PredicateCall(1), WorkerCall(1), PredicateCall(2), DoneCall([Null, Value(a)])]
  {
    var xs := [[a], []];
    RunUntilStop(xs, [], []);
    assert Successes(xs) + [] == [WorkerReply(None, [a]), WorkerReply(None, [])];
    assert Continues<V>(1) + [PredicateReply(None, false)] + [] == [PredicateReply(None, true), PredicateReply(None, false)];
    KeptIsLatestCapture([], xs, 0);
    assert Captured([a]) == [Value(a)];
    assert Rounds<V>(1) == [WorkerCall(0), PredicateCall(1), WorkerCall(1)];
    assert Checking<V>(2) == [WorkerCall(0), PredicateCall(1), WorkerCall(1), PredicateCall(2)];
    assert Stopped([Value(a)]) == [Null, Value(a)];
  }
}
