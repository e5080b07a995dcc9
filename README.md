# doWhileAsync, modelled in Dafny

This project models `doWhileAsync`, the stdlib-js utility in `index.mjs`. The whole
utility is the function on line 3 (shipped minified). `doWhileAsync(worker, predicate,
done, thisArg)` calls `worker(count, next)`. When the worker calls `next` back, it
asks `predicate(count, next)`. While the predicate says continue, it calls the
worker again. When the predicate says stop, or either party reports an error, it
calls `done` once.

After its three argument guards, the function keeps two closure variables and two
continuations:

- `u` is the invocation counter.
- `s` is the buffer of the worker's extra callback arguments.
- `l` is the worker's continuation.
- `o` is the predicate's continuation.

The model has three modules:

- `Machine` (machine.dfy) holds the value-level specification.
  - `State` holds the counter, the buffer, the phase (`AwaitWorker`,
    `AwaitPredicate`, `Finished`) and the log of calls made into `worker`,
    `predicate` and `done`.
  - `WorkerStep` and `PredicateStep` say what one callback does.
  - `Inv` is the shape every reachable state has. The worker and the predicate
    strictly alternate, each gets the counter as its argument, and `done` is called
    exactly once, as the last call, exactly when the run has finished.
- `DoWhile` (repeater.dfy) holds the imperative form. `Repeater` is a class with
  `counter`, `buffer`, `phase` and `calls` fields. Its methods `WorkerDone` (the
  continuation `l`) and `PredicateDone` (the continuation `o`) update those fields
  in place. Each method is proved to perform the matching `Machine` step and to
  keep `Inv`. `Capture` is the `for` loop that fills a fresh array with `l`'s
  arguments after the first. `DoWhileAsync` runs the argument guards and then
  starts a run.
- `Traces` (traces.dfy) drives whole runs with scripts. A script is the list of
  replies the worker gives on its successive invocations, and the list the
  predicate gives on its successive checks. Its lemmas prove what whole runs
  look like: stopping after k continues, the worker failing on round m, and the
  predicate failing on check j.

The model keeps two quirks of the code:

- The buffer is replaced only when the worker passes extra arguments. A round
  without extra arguments keeps the values of an earlier round.
- On stop, `null` is prepended (`s.unshift(null)`, in place) only when the buffer
  is non-empty. With an empty buffer, `done` is called with no arguments at all.

JavaScript values are an opaque type parameter `V`. `Arg<V>` is either the literal
`null` that the combinator inserts itself or a user-supplied value. A truthy error
slot is `Some(e)`. The continue flag is a `bool`. Whether each argument is a
function is an input flag, because the check itself is imported code.

The predicate is called with the counter and its continuation only, `predicate(u, o)`;
the buffer is not passed to it.

## Model

| member | source | states |
|---|---|---|
| `DoWhile.ArgumentCheck` | index.mjs:3 | a TypeError exactly when some argument is not a function; the guards run in argument order, so the first non-function decides the position reported |
| `DoWhile.DoWhileAsync` | index.mjs:3 | a failing guard throws and no run (so no worker invocation) exists; otherwise a fresh run whose state is the initial one: counter 0, empty buffer, worker invoked with count 0 |
| `DoWhile.Capture` | index.mjs:3 | the copy loop yields exactly the callback's arguments after the first, in order, wrapped as values |
| `DoWhile.Repeater.constructor` | index.mjs:3 | `s=[],u=0`, then the first worker invocation with count 0; the invariant holds |
| `DoWhile.Repeater.WorkerDone` | index.mjs:3 | on an error: `done(error)`, counter and buffer unchanged, no predicate call; on success: counter up by exactly 1, buffer replaced by the extra arguments only when there are any, predicate invoked with the new count; keeps the invariant and equals `WorkerStep` |
| `DoWhile.Repeater.PredicateDone` | index.mjs:3 | counter never changes; on an error: `done(error)`; on continue: worker invoked with the current count, buffer unchanged; on stop: buffer gets `null` prepended in place when non-empty and `done` gets the buffer, so nothing at all when it was empty; keeps the invariant and equals `PredicateStep` |
| `Machine.Initial` | index.mjs:3 | `s=[],u=0,n.call(a,u,l)`: counter 0, empty buffer, waiting for the worker; the worker has been invoked once and nothing else; the invariant holds (see also `InitialInv`) |
| `Machine.Stopped` | index.mjs:3 | the arguments `done` gets on stop: nothing when the buffer is empty, otherwise `null` followed by the whole buffer; `RunUntilStop` shows these are the arguments of the one `done` call of a run that stops |
| `Machine.WorkerStep` | index.mjs:3 | the continuation `l`: an error finishes the run with `done(error)` and leaves counter and buffer alone; a success raises the counter by one, replaces the buffer only when extra values came, and asks the predicate with the new count; `WorkerStepInv` proves it keeps the invariant |
| `Machine.PredicateStep` | index.mjs:3 | the continuation `o`: the counter never changes; an error finishes with `done(error)`; continue invokes the worker with the current count; stop finishes with `done` given `null` and the buffer, or nothing; `PredicateStepInv` proves it keeps the invariant |
| `Machine.Captured` | index.mjs:3 | the fresh array has one element per extra argument, the k-th being the k-th extra argument |
| `Machine.InitialInv` | index.mjs:3 | the initial state satisfies the invariant and its only call is the worker with count 0 |
| `Machine.WorkerStepInv` | index.mjs:3 | the worker's continuation keeps the alternation-and-single-done invariant |
| `Machine.PredicateStepInv` | index.mjs:3 | the predicate's continuation keeps the invariant |
| `Machine.RoundsTally` | index.mjs:3 | after n continued rounds the worker was invoked n + 1 times, the predicate n times, `done` never |
| `Machine.CheckingTally` | index.mjs:3 | while the predicate is asked for the n-th time, the worker and the predicate were each invoked n times and `done` never |
| `Machine.InvTally` | index.mjs:3 | in every state satisfying the invariant, `done` was called once if the run is finished and never otherwise; the predicate was invoked `counter` times; the worker `counter + 1` times while awaited, `counter` times while the predicate is awaited |
| `Traces.Drive` | index.mjs:3 | a run driven by scripts only appends to the call log and never decreases the counter |
| `Traces.DriveInv` | index.mjs:3 | every state of a scripted run satisfies the invariant |
| `Traces.DoneAtMostOnce` | index.mjs:3 | for every pair of scripts, `done` is called at most once, exactly when the run has finished, and then as the last call; the predicate count equals the counter |
| `Traces.KeptIsLatestCapture` | index.mjs:3 | the buffer holds the extra arguments of the latest worker round that passed any |
| `Traces.KeptWithoutExtras` | index.mjs:3 | rounds without extra arguments leave the buffer as it was |
| `Traces.OneRound` | index.mjs:3 | one round of worker success with extra values `x` and predicate continue: the counter goes up by one, the buffer becomes `x` when `x` is non-empty, and the log gains the predicate call and the next worker call |
| `Traces.DriveRounds` | index.mjs:3 | k rounds of worker success and predicate continue raise the counter by k, extend the log by strictly alternating calls with the right counts, and leave the buffer that `Kept` gives: the latest capture, or the starting buffer when no round passed extra values |
| `Traces.LastRound` | index.mjs:3 | the last round from the start: after the continued rounds, one more worker success brings the run to the predicate with counter k + 1 and the kept buffer, and the predicate's reply is taken from there |
| `Traces.RunUntilStop` | index.mjs:3 | continue k times, then stop: worker and predicate each invoked k + 1 times in strict alternation, `done` once, with `null` and the kept buffer or with nothing; later script entries are never used |
| `Traces.WorkerFailsOnRound` | index.mjs:3 | the worker fails on invocation m + 1: `done` gets exactly that error, the predicate is not asked for that attempt, the counter stays m, and nothing else is called |
| `Traces.PredicateFailsOnCheck` | index.mjs:3 | the predicate fails on check j: `done` gets exactly that error after j invocations of each party, and nothing else is called |
| `Traces.OneValueThenStop` | index.mjs:3 | worker `next(null, x)`, predicate `next(null, false)`: the calls are worker(0), predicate(1), `done(null, x)` |
| `Traces.NoValuesThenStop` | index.mjs:3 | worker `next(null)`, predicate stop: `done` is called with no arguments |
| `Traces.EarlierValuesKept` | index.mjs:3 | `next(null, a)`, continue, `next(null)`, stop: `done(null, a)`, since the second round keeps the first round's buffer |

## Left out

- Whether an argument is a function: the check is imported (`assert-is-function`), so each argument's function-ness is an input flag.
- The TypeError message: it is built by the imported `string-format`, so only the rejected position is modelled.
- The `thisArg` receiver of `n.call(a, ...)`: it has no effect on the counter, the buffer or the order of calls.
- Asynchrony and scheduling: the model reacts to one callback event at a time. A callback that never fires is a script that runs out.
- Re-entrancy: the source has no guard against a continuation being called twice or out of turn. `WorkerDone` and `PredicateDone` require the phase in which their continuation is expected, so the model does not say what a second call would do.
- JavaScript truthiness: the error slot is `Option<V>` and the continue flag is `bool`.
- The values the continuations return (`return i(n)`, `void i.apply(...)`): the combinator itself never uses them.
- Exceptions thrown by `worker`, `predicate` or `done`: they propagate out of the continuation that made the call, or out of `doWhileAsync` for the first worker call. The model's calls into user code always return.
- The receiver `null` passed to `done` by `i.apply(null, s)`.
- Number precision: the counter is an unbounded `nat`, while JavaScript numbers lose integer precision above 2^53.
