/**
 The value-level state machine behind `doWhileAsync` (index.mjs, line 3).

 Once its arguments are checked, the combinator is two closure variables, the
 invocation counter `u` and the auxiliary-argument buffer `s`, and two
 continuations: `l`, which the worker calls back, and `o`, which the predicate
 calls back. This module states what one callback does to that state and to the
 log of calls the combinator makes into `worker`, `predicate` and `done`.
 */
module Machine {

  datatype Option<+T> = None | Some(value: T)

  /** An argument the combinator passes on: the literal `null` it inserts itself,
      or a value supplied by user code (an error or a worker's extra value). */
  datatype Arg<V> = Null | Value(v: V)

  /** Which continuation the combinator is waiting for. */
  datatype Phase = AwaitWorker | AwaitPredicate | Finished

  /** A call the combinator makes into user code: `worker(count, l)`,
      `predicate(count, o)` or `done(...args)`. */
  datatype Call<V> = WorkerCall(count: nat) | PredicateCall(count: nat) | DoneCall(args: seq<Arg<V>>)

  /** How the worker called `l`: a truthy first argument is `Some(error)`;
      `extras` are the arguments after the first. */
  datatype WorkerReply<V> = WorkerReply(err: Option<V>, extras: seq<V>)

  /** How the predicate called `o`: its error slot and its continue flag. */
  datatype PredicateReply<V> = PredicateReply(err: Option<V>, proceed: bool)

  /** The closure variables of one run, its phase, and the calls made so far. */
  datatype State<V> = State(counter: nat, buffer: seq<Arg<V>>, phase: Phase, calls: seq<Call<V>>)

  /** The state right after `s=[],u=0,n.call(a,u,l)`. */
  function Initial<V>(): (r: State<V>)
    ensures Inv(r)
    ensures r.counter == 0 && r.buffer == [] && r.phase == AwaitWorker
    ensures Tally(r.calls, Worker) == 1 && Tally(r.calls, Predicate) == 0 && Tally(r.calls, Done) == 0
  {
    State(0, [], AwaitWorker, [WorkerCall(0)])
  }

  /** The fresh array `l` builds from its arguments after the first. */
  function Captured<V>(extras: seq<V>): (s: seq<Arg<V>>)
    ensures |s| == |extras|
    ensures forall k :: 0 <= k < |extras| ==> s[k] == Value(extras[k])
  {
    if extras == [] then [] else [Value(extras[0])] + Captured(extras[1..])
  }

  /** The argument list `done` gets when the predicate says stop:
      `s.length && s.unshift(null)` changes `s` in place before `i.apply(null, s)`. */
  function Stopped<V>(buffer: seq<Arg<V>>): (args: seq<Arg<V>>)
    ensures buffer == [] ==> args == []
    ensures buffer != [] ==> |args| == |buffer| + 1 && args[0] == Null && args[1..] == buffer
  {
    if |buffer| > 0 then [Null] + buffer else buffer
  }

  /** The continuation `l`: an error ends the run; otherwise the counter goes up,
      the buffer is replaced only when extra values came, and the predicate is asked. */
  function WorkerStep<V>(st: State<V>, reply: WorkerReply<V>): (r: State<V>)
    requires st.phase == AwaitWorker
    ensures r.phase == (if reply.err.Some? then Finished else AwaitPredicate)
    ensures r.counter == st.counter + (if reply.err.Some? then 0 else 1)
    ensures r.buffer == (if reply.err.None? && reply.extras != [] then Captured(reply.extras) else st.buffer)
    ensures r.calls == st.calls + [if reply.err.Some? then DoneCall([Value(reply.err.value)]) else PredicateCall(r.counter)]
  {
    match reply.err
    case Some(e) =>
      st.(phase := Finished, calls := st.calls + [DoneCall([Value(e)])])
    case None =>
      var n := st.counter + 1;
      var s := if |reply.extras| > 0 then Captured(reply.extras) else st.buffer;
      st.(counter := n, buffer := s, phase := AwaitPredicate, calls := st.calls + [PredicateCall(n)])
  }

  /** The continuation `o`: an error ends the run; a truthy flag calls the worker
      again with the current counter; a falsy flag calls `done` with the buffer. */
  function PredicateStep<V>(st: State<V>, reply: PredicateReply<V>): (r: State<V>)
    requires st.phase == AwaitPredicate
    ensures r.phase == (if reply.err.None? && reply.proceed then AwaitWorker else Finished)
    ensures r.counter == st.counter
    ensures r.buffer == (if reply.err.None? && !reply.proceed && st.buffer != [] then [Null] + st.buffer else st.buffer)
    ensures r.calls == st.calls + [if reply.err.Some? then DoneCall([Value(reply.err.value)])
                                   else if reply.proceed then WorkerCall(st.counter)
                                   else DoneCall(r.buffer)]
  {
    match reply.err
    case Some(e) =>
      st.(phase := Finished, calls := st.calls + [DoneCall([Value(e)])])
    case None =>
      if reply.proceed then
        st.(phase := AwaitWorker, calls := st.calls + [WorkerCall(st.counter)])
      else
        var s := Stopped(st.buffer);
        st.(buffer := s, phase := Finished, calls := st.calls + [DoneCall(s)])
  }

  /** The reference log of a run whose worker has succeeded `n` times and whose
      predicate has said continue each time: W(0) P(1) W(1) P(2) ... W(n). */
  function Rounds<V>(n: nat): seq<Call<V>> {
    if n == 0 then [WorkerCall(0)] else Rounds(n - 1) + [PredicateCall(n), WorkerCall(n)]
  }

  /** The reference log while the predicate is asked for the `n`-th time. */
  function Checking<V>(n: nat): seq<Call<V>>
    requires n >= 1
  {
    Rounds(n - 1) + [PredicateCall(n)]
  }

  /** The shape every reachable state has: strict alternation of worker and
      predicate with the counter as their argument, and a single `done` call,
      the last one, exactly when the run is finished. */
  ghost predicate Inv<V>(st: State<V>) {
    match st.phase
    case AwaitWorker => st.calls == Rounds(st.counter)
    case AwaitPredicate => st.counter >= 1 && st.calls == Checking(st.counter)
    case Finished =>
      && |st.calls| >= 1
      && st.calls[|st.calls| - 1].DoneCall?
      && var before := st.calls[..|st.calls| - 1];
         before == Rounds(st.counter) || (st.counter >= 1 && before == Checking(st.counter))
  }

  lemma InitialInv<V>()
    ensures Inv(Initial<V>())
    ensures Initial<V>().calls == [WorkerCall(0)]
  {
  }

  lemma WorkerStepInv<V>(st: State<V>, reply: WorkerReply<V>)
    requires st.phase == AwaitWorker && Inv(st)
    ensures Inv(WorkerStep(st, reply))
  {
  }

  lemma PredicateStepInv<V>(st: State<V>, reply: PredicateReply<V>)
    requires st.phase == AwaitPredicate && Inv(st)
    ensures Inv(PredicateStep(st, reply))
  {
  }

  /** Which party a call goes to. */
  datatype Party = Worker | Predicate | Done

  function PartyOf<V>(c: Call<V>): Party {
    match c
    case WorkerCall(_) => Worker
    case PredicateCall(_) => Predicate
    case DoneCall(_) => Done
  }

  /** How many calls of `calls` go to party `p`. */
  function Tally<V>(calls: seq<Call<V>>, p: Party): nat {
    if calls == [] then 0
    else Tally(calls[..|calls| - 1], p) + (if PartyOf(calls[|calls| - 1]) == p then 1 else 0)
  }

  lemma {:induction false} TallyAppend<V>(a: seq<Call<V>>, b: seq<Call<V>>, p: Party)
    ensures Tally(a + b, p) == Tally(a, p) + Tally(b, p)
    decreases |b|
  {
    if b != [] {
      var b' := b[..|b| - 1];
      assert (a + b)[..|a + b| - 1] == a + b';
      TallyAppend(a, b', p);
    } else {
      assert a + b == a;
    }
  }

  /** After `n` successful rounds the worker has run n + 1 times, the predicate
      n times, and `done` not at all. */
  lemma {:induction false} RoundsTally<V>(n: nat)
    ensures Tally(Rounds<V>(n), Worker) == n + 1
    ensures Tally(Rounds<V>(n), Predicate) == n
    ensures Tally(Rounds<V>(n), Done) == 0
  {
    if n > 0 {
      RoundsTally<V>(n - 1);
      var pair: seq<Call<V>> := [PredicateCall(n), WorkerCall(n)];
      assert pair[..1] == [PredicateCall(n)];
      assert pair[..1][..0] == [];
      assert Tally(pair[..1], Worker) == 0 && Tally(pair[..1], Predicate) == 1 && Tally(pair[..1], Done) == 0;
      assert Tally(pair, Worker) == 1 && Tally(pair, Predicate) == 1 && Tally(pair, Done) == 0;
      assert Rounds<V>(n) == Rounds<V>(n - 1) + pair;
      TallyAppend(Rounds<V>(n - 1), pair, Worker);
      TallyAppend(Rounds<V>(n - 1), pair, Predicate);
      TallyAppend(Rounds<V>(n - 1), pair, Done);
    }
  }

  lemma CheckingTally<V>(n: nat)
    requires n >= 1
    ensures Tally(Checking<V>(n), Worker) == n
    ensures Tally(Checking<V>(n), Predicate) == n
    ensures Tally(Checking<V>(n), Done) == 0
  {
    RoundsTally<V>(n - 1);
    forall p: Party
      ensures Tally(Checking<V>(n), p) == Tally(Rounds<V>(n - 1), p) + Tally<V>([PredicateCall(n)], p)
    {
      TallyAppend<V>(Rounds<V>(n - 1), [PredicateCall(n)], p);
    }
  }

  /** In every reachable state `done` has been called at most once, exactly when
      the run is finished; the predicate has run `counter` times; and the worker
      has run once more than that while it is awaited, and otherwise `counter`
      times, or `counter + 1` times when it was the worker that failed. */
  lemma InvTally<V>(st: State<V>)
    requires Inv(st)
    ensures Tally(st.calls, Done) == (if st.phase == Finished then 1 else 0)
    ensures Tally(st.calls, Predicate) == st.counter
    ensures st.phase == AwaitWorker ==> Tally(st.calls, Worker) == st.counter + 1
    ensures st.phase == AwaitPredicate ==> Tally(st.calls, Worker) == st.counter
    ensures st.phase == Finished ==> st.counter <= Tally(st.calls, Worker) <= st.counter + 1
  {
    match st.phase
    case AwaitWorker => RoundsTally<V>(st.counter);
    case AwaitPredicate => CheckingTally<V>(st.counter);
    case Finished =>
      var before := st.calls[..|st.calls| - 1];
      var last := st.calls[|st.calls| - 1];
      assert st.calls == before + [last];
      forall p: Party
        ensures Tally(st.calls, p) == Tally(before, p) + (if p == Done then 1 else 0)
      {
      }
      if before == Rounds(st.counter) {
        RoundsTally<V>(st.counter);
      } else {
        CheckingTally<V>(st.counter);
      }
  }
}
