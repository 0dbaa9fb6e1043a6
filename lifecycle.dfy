/** What running an operation's body produces, stated on values: the
    specification that `Operatic.OperationClass.Call` is proved against. */
module Lifecycle {
  import opened Hashes
  import opened Raising
  import opened OperaticResult

  /** One thing an operation body does to its operation. */
  datatype Step =
    | Write(key: Symbol, value: Value)            // `data[key] = value`
    | Assign(name: Symbol, value: Value)          // `data.name = value`, a generated writer
    | Finalize(status: Status, overrides: Hash)   // `success!(**overrides)` / `failure!(**overrides)`

  /** The status and payload of a finished operation. */
  datatype Outcome = Outcome(status: Status, payload: Hash)

  /** The state of an operation part-way through its body: the payload of its
      `data` object ([] while that object has not been created), and the result
      that finalizing fixed, if any. A set result also means the operation is frozen. */
  datatype Progress = Progress(data: Hash, result: Option<Outcome>)

  /** The progress of an operation that has just been constructed. */
  const Start := Progress([], None)

  /** One step, for an operation whose data class declares `accessors`. Finalizing
      merges the overrides into the data; finalizing a frozen operation raises.
      The operation's own data object is never frozen by finalizing, so writes
      after it succeed. */
  function Perform(accessors: seq<Symbol>, p: Progress, s: Step): Attempt<Progress> {
    match s
    case Write(k, v) => Ok(p.(data := Store(p.data, k, v)))
    case Assign(n, v) =>
      if n in accessors then Ok(p.(data := Store(p.data, n, v)))
      else Raised(NoMethodError(n + "="))
    case Finalize(st, kw) =>
      if p.result.Some? then Raised(FrozenError)
      else Ok(p.(result := Some(Outcome(st, StoreAll(p.data, kw)))))
  }

  /** The steps one after another; the first exception ends the run. */
  function Run(accessors: seq<Symbol>, p: Progress, steps: seq<Step>): Attempt<Progress>
    decreases |steps|
  {
    if steps == [] then Ok(p)
    else
      match Run(accessors, p, steps[..|steps| - 1])
      case Raised(e) => Raised(e)
      case Ok(q) => Perform(accessors, q, steps[|steps| - 1])
  }

  /** `call`: the result finalizing fixed, or else a `Success` over the data
      gathered; an exception from the body propagates. */
  function Execute(accessors: seq<Symbol>, steps: seq<Step>): Attempt<Outcome> {
    match Run(accessors, Start, steps)
    case Raised(e) => Raised(e)
    case Ok(p) => Ok(if p.result.Some? then p.result.value else Outcome(Success, p.data))
  }

  /** A step that neither finalizes nor calls an undeclared writer. */
  predicate Quiet(accessors: seq<Symbol>, s: Step) {
    !s.Finalize? && (s.Assign? ==> s.name in accessors)
  }

  /** The payload `data` after the writes among `steps`. */
  function Written(data: Hash, steps: seq<Step>): Hash
    decreases |steps|
  {
    if steps == [] then data
    else
      var prior := Written(data, steps[..|steps| - 1]);
      match steps[|steps| - 1]
      case Write(k, v) => Store(prior, k, v)
      case Assign(n, v) => Store(prior, n, v)
      case Finalize(_, _) => prior
  }

  /** Quiet steps only write the data and leave the result alone. */
  lemma {:induction false} RunQuiet(accessors: seq<Symbol>, p: Progress, steps: seq<Step>)
    requires forall i :: 0 <= i < |steps| ==> Quiet(accessors, steps[i])
    ensures Run(accessors, p, steps) == Ok(Progress(Written(p.data, steps), p.result))
    decreases |steps|
  {
    if steps != [] {
      RunQuiet(accessors, p, steps[..|steps| - 1]);
    }
  }

  /** Running `a + b` is running `a`, then `b` from where `a` left off. */
  lemma {:induction false} RunAppend(accessors: seq<Symbol>, p: Progress, a: seq<Step>, b: seq<Step>)
    ensures Run(accessors, p, a + b) ==
      match Run(accessors, p, a)
      case Raised(e) => Raised(e)
      case Ok(q) => Run(accessors, q, b)
    decreases |b|
  {
    if b == [] {
      assert a + b == a;
    } else {
      assert (a + b)[..|a + b| - 1] == a + b[..|b| - 1];
      RunAppend(accessors, p, a, b[..|b| - 1]);
    }
  }

  /** The run up to step `i` inclusive is the run before it, then step `i`. */
  lemma RunStep(accessors: seq<Symbol>, p: Progress, steps: seq<Step>, i: nat)
    requires i < |steps|
    ensures Run(accessors, p, steps[..i + 1]) ==
      match Run(accessors, p, steps[..i])
      case Raised(e) => Raised(e)
      case Ok(q) => Perform(accessors, q, steps[i])
  {
    assert steps[..i + 1][..i] == steps[..i];
  }

  /** Once a prefix of the steps has raised, the whole run raises the same exception. */
  lemma RaisedPrefix(accessors: seq<Symbol>, p: Progress, steps: seq<Step>, n: nat)
    requires n <= |steps| && Run(accessors, p, steps[..n]).Raised?
    ensures Run(accessors, p, steps) == Run(accessors, p, steps[..n])
  {
    RunAppend(accessors, p, steps[..n], steps[n..]);
    assert steps[..n] + steps[n..] == steps;
  }

  /** Auto-success: a body that finalizes nothing and raises nothing gives a
      `Success` over exactly the data it wrote ([] when it wrote nothing). */
  lemma AutoSuccess(accessors: seq<Symbol>, steps: seq<Step>)
    requires forall i :: 0 <= i < |steps| ==> Quiet(accessors, steps[i])
    ensures Execute(accessors, steps) == Ok(Outcome(Success, Written([], steps)))
    ensures steps == [] ==> Execute(accessors, steps) == Ok(Outcome(Success, []))
  {
    RunQuiet(accessors, Start, steps);
  }

  /** `success!(**kw)` / `failure!(**kw)`: the outcome has the status asked for and
      the data written so far merged with `kw`, `kw` winning; quiet steps after it
      change the operation's own data, not its outcome. */
  lemma FinalizeMerges(accessors: seq<Symbol>, before: seq<Step>, st: Status, kw: Hash, after: seq<Step>)
    requires forall i :: 0 <= i < |before| ==> Quiet(accessors, before[i])
    requires forall i :: 0 <= i < |after| ==> Quiet(accessors, after[i])
    ensures Execute(accessors, before + [Finalize(st, kw)] + after)
         == Ok(Outcome(st, StoreAll(Written([], before), kw)))
  {
    var fin := Progress(Written([], before), Some(Outcome(st, StoreAll(Written([], before), kw))));
    RunQuiet(accessors, Start, before);
    RunAppend(accessors, Start, before, [Finalize(st, kw)]);
    assert Run(accessors, Start, before + [Finalize(st, kw)]) == Ok(fin) by {
      assert Run(accessors, fin.(result := None), [Finalize(st, kw)]) == Ok(fin) by {
        assert [Finalize(st, kw)][..0] == [];
      }
    }
    RunQuiet(accessors, fin, after);
    RunAppend(accessors, Start, before + [Finalize(st, kw)], after);
  }

  /** Each key of the finalized payload reads from the overrides when they hold
      it, and from the data written before finalizing otherwise. */
  lemma FinalizeOverridesWin(accessors: seq<Symbol>, before: seq<Step>, st: Status, kw: Hash, k: Symbol)
    requires forall i :: 0 <= i < |before| ==> Quiet(accessors, before[i])
    ensures Execute(accessors, before + [Finalize(st, kw)]).Ok?
    ensures var o := Execute(accessors, before + [Finalize(st, kw)]).value;
      o.status == st &&
      Fetch(o.payload, k) == if k in Keys(kw) then Fetch(kw, k) else Fetch(Written([], before), k)
  {
    FinalizeMerges(accessors, before, st, kw, []);
    assert before + [Finalize(st, kw)] + [] == before + [Finalize(st, kw)];
    FetchStoreAll(Written([], before), kw, k);
  }

  /** The writers among `steps` are all declared by the data class. */
  predicate WritersDeclared(accessors: seq<Symbol>, steps: seq<Step>) {
    forall k :: 0 <= k < |steps| ==> (steps[k].Assign? ==> steps[k].name in accessors)
  }

  /** A run that has finalized stays finalized; the only exception a run with no
      undeclared writer can raise is FrozenError. */
  lemma {:induction false} RunKeepsResult(accessors: seq<Symbol>, p: Progress, steps: seq<Step>)
    ensures (Run(accessors, p, steps).Ok? && p.result.Some?) ==> Run(accessors, p, steps).value.result.Some?
    ensures (WritersDeclared(accessors, steps) && Run(accessors, p, steps).Raised?) ==>
      Run(accessors, p, steps).error == FrozenError
    decreases |steps|
  {
    if steps != [] {
      var prefix := steps[..|steps| - 1];
      assert WritersDeclared(accessors, steps) ==> WritersDeclared(accessors, prefix);
      RunKeepsResult(accessors, p, prefix);
    }
  }

  /** A run from the start whose steps finalize somewhere is frozen at the end, or has raised. */
  lemma FinalizedBy(accessors: seq<Symbol>, steps: seq<Step>, i: nat)
    requires i < |steps| && steps[i].Finalize?
    ensures Run(accessors, Start, steps).Ok? ==> Run(accessors, Start, steps).value.result.Some?
  {
    var upToI := steps[..i + 1];
    assert upToI[..i] == steps[..i];
    RunAppend(accessors, Start, upToI, steps[i + 1..]);
    assert upToI + steps[i + 1..] == steps;
    var runI := Run(accessors, Start, upToI);
    if runI.Ok? {
      RunKeepsResult(accessors, runI.value, steps[i + 1..]);
    }
  }

  /** Finalizing twice, in any order of `success!` and `failure!`, raises; when
      every writer called before the second finalize is declared, it raises FrozenError. */
  lemma SecondFinalizeRaises(accessors: seq<Symbol>, steps: seq<Step>, i: nat, j: nat)
    requires i < j < |steps| && steps[i].Finalize? && steps[j].Finalize?
    ensures Execute(accessors, steps).Raised?
    ensures WritersDeclared(accessors, steps[..j]) ==> Execute(accessors, steps) == Raised(FrozenError)
  {
    var before := steps[..j];
    assert before[i] == steps[i];
    FinalizedBy(accessors, before, i);
    RunStep(accessors, Start, steps, j);
    RaisedPrefix(accessors, Start, steps, j + 1);
    if WritersDeclared(accessors, before) {
      RunKeepsResult(accessors, Start, before);
    }
  }
}
