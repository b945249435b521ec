/** `Pipe` (modules/pipe.py): an immutable builder that records operator
    stages and replays them, in the order they were added, on a base
    `Stream` or, with `asynchronous=True`, on a base `Riverbed`. Each
    builder returns a new Pipe; a Pipe is a value here, so the receiver can
    never change. */
module Pipes {
  import opened Values
  import Chunks
  import opened Flow

  /** Which engine a Pipe is replayed on. */
  datatype Mode = Sync | Async

  /** The argument of `through`: a plain callable, or a Pipe, which the
      engines detect with `isinstance(action, CallableStream)`. */
  datatype Action = Direct(f: Fn) | Nested(p: Pipe)

  /** One recorded operator call. */
  datatype Stage =
    | Through(a: Action)
    | ThroughMapOnChunk(a: Action)
    | Filter(c: Fn)
    | Chunk(n: int)
    | Fork(prongs: seq<Fn>)
    | Dam(d: Fn)
    | Meter(seconds: real)

  datatype Pipe = Pipe(stages: seq<Stage>) {

    /** The builders: each returns a Pipe that replays this one and then the
        new stage. */
    function Then(st: Stage): (r: Pipe)
      ensures |r.stages| == |stages| + 1 && r.stages[..|stages|] == stages
      ensures forall m, xs :: Run(r, m, xs) == Continue(Run(this, m, xs), st, m)
    {
      RunThen(this, st);
      Pipe(stages + [st])
    }

    function Through(a: Action): Pipe
    {
      Then(Stage.Through(a))
    }

    function ThroughMapOnChunk(a: Action): Pipe
    {
      Then(Stage.ThroughMapOnChunk(a))
    }

    function Filter(c: Fn): Pipe
    {
      Then(Stage.Filter(c))
    }

    function Chunk(n: int): Pipe
    {
      Then(Stage.Chunk(n))
    }

    /** `fork(condition, action, *args)`: the flattened prong list. */
    function Fork(condition: Fn, action: Fn, args: seq<Fn>): Pipe
    {
      Then(Stage.Fork([condition, action] + args))
    }

    function Dam(d: Fn): Pipe
    {
      Then(Stage.Dam(d))
    }

    function Meter(seconds: real): Pipe
    {
      Then(Stage.Meter(seconds))
    }
  }

  /** `Pipe()`: the empty composition. */
  function Empty(): Pipe
  {
    Pipe([])
  }

  /** Applying one stage to the items of a Stream (Sync) or a Riverbed
      (Async). A stage the engine has no operator for raises
      `AttributeError`: Stream has no `dam` or `meter`, Riverbed has no
      `chunk` or `through_map_on_chunk`. A nested Pipe is replayed on the
      items in the same mode. */
  function Step(st: Stage, m: Mode, xs: seq<Value>): Result<seq<Value>>
    decreases st, 0
  {
    match st
    case Through(Direct(f)) => Ok(Chunks.MapElems(f, xs))
    case Through(Nested(q)) => Run(q, m, xs)
    case ThroughMapOnChunk(a) =>
      if m == Async then Err(AttributeError("through_map_on_chunk"))
      else (match a
            case Direct(f) => Ok(MapOnChunks(f, xs))
            case Nested(q) => Run(q, m, xs))
    case Filter(c) => Ok(Keep(c, xs))
    case Chunk(n) =>
      if m == Async then Err(AttributeError("chunk")) else Ok(Chunked(n, xs))
    case Fork(prongs) => Ok(ForkAll(prongs, xs))
    case Dam(d) =>
      if m == Sync then Err(AttributeError("dam")) else Ok(Chunks.MapElems(d, xs))
    case Meter(_) =>
      if m == Sync then Err(AttributeError("meter")) else Ok(xs)
  }

  /** Continue a replay with one more stage, unless it has already failed. */
  function Continue(r: Result<seq<Value>>, st: Stage, m: Mode): Result<seq<Value>>
    decreases st, 1
  {
    match r
    case Err(e) => Err(e)
    case Ok(ys) => Step(st, m, ys)
  }

  /** Replaying the first k stages of `p`. */
  function RunPrefix(p: Pipe, k: nat, m: Mode, xs: seq<Value>): Result<seq<Value>>
    requires k <= |p.stages|
    decreases p, k
  {
    if k == 0 then Ok(xs)
    else Continue(RunPrefix(p, k - 1, m, xs), p.stages[k - 1], m)
  }

  /** Replaying a whole Pipe on the items of a base Stream or Riverbed. */
  function Run(p: Pipe, m: Mode, xs: seq<Value>): Result<seq<Value>>
    decreases p, |p.stages| + 1
  {
    RunPrefix(p, |p.stages|, m, xs)
  }

  /** `p(*args, asynchronous=a)`: the base Stream or Riverbed is built from
      the arguments, then every stage is replayed on it. */
  function Call(p: Pipe, args: seq<Value>, asynchronous: bool): Result<seq<Value>>
  {
    Run(p, if asynchronous then Async else Sync, Normalise(args))
  }

  /** Two Pipes that agree on their first k stages replay them alike. */
  lemma {:induction false} PrefixAgree(p: Pipe, q: Pipe, k: nat, m: Mode, xs: seq<Value>)
    requires k <= |p.stages| && k <= |q.stages| && p.stages[..k] == q.stages[..k]
    ensures RunPrefix(p, k, m, xs) == RunPrefix(q, k, m, xs)
  {
    if k > 0 {
      assert p.stages[..k - 1] == q.stages[..k - 1];
      assert p.stages[k - 1] == p.stages[..k][k - 1];
      PrefixAgree(p, q, k - 1, m, xs);
    }
  }

  /** Adding a stage: the new Pipe replays the receiver, then the stage. */
  lemma RunThen(p: Pipe, st: Stage)
    ensures forall m, xs :: Run(Pipe(p.stages + [st]), m, xs) == Continue(Run(p, m, xs), st, m)
  {
    var q := Pipe(p.stages + [st]);
    forall m, xs ensures Run(q, m, xs) == Continue(Run(p, m, xs), st, m) {
      assert q.stages[..|p.stages|] == p.stages[..|p.stages|];
      PrefixAgree(p, q, |p.stages|, m, xs);
    }
  }

  /** `Pipe()` is the identity: called with args it yields the base Stream
      of those args unchanged. */
  lemma EmptyIsIdentity(args: seq<Value>, asynchronous: bool)
    ensures Call(Empty(), args, asynchronous) == Ok(Normalise(args))
  {
  }

  /** Stages replay in the order they were added:
      `Pipe().through(f).through(g)` on S is `S.through(f).through(g)`. */
  lemma ThroughThenThrough(f: Fn, g: Fn, m: Mode, xs: seq<Value>)
    ensures Run(Empty().Through(Direct(f)).Through(Direct(g)), m, xs) ==
            Ok(Chunks.MapElems(g, Chunks.MapElems(f, xs)))
  {
    var once := Empty().Through(Direct(f));
    assert Run(Empty(), m, xs) == Ok(xs);
    assert Run(once, m, xs) == Continue(Ok(xs), Stage.Through(Direct(f)), m);
    assert Run(once.Through(Direct(g)), m, xs) ==
           Continue(Run(once, m, xs), Stage.Through(Direct(g)), m);
  }

  /** Once a replay has failed, later stages cannot rescue it. */
  lemma {:induction false} FailureSticks(p: Pipe, i: nat, k: nat, m: Mode, xs: seq<Value>)
    requires i <= k <= |p.stages| && RunPrefix(p, i, m, xs).Err?
    ensures RunPrefix(p, k, m, xs) == RunPrefix(p, i, m, xs)
    decreases k - i
  {
    if i < k {
      FailureSticks(p, i, k - 1, m, xs);
    }
  }

  /** One more stage of a replay that has succeeded so far: the prefix now
      ends in that stage's outcome, and when the stage fails, the whole
      replay fails with the same error. */
  lemma ReplayStep(p: Pipe, k: nat, m: Mode, xs: seq<Value>, ys: seq<Value>)
    requires k < |p.stages| && RunPrefix(p, k, m, xs) == Ok(ys)
    ensures RunPrefix(p, k + 1, m, xs) == Step(p.stages[k], m, ys)
    ensures Step(p.stages[k], m, ys).Err? ==> Run(p, m, xs) == Step(p.stages[k], m, ys)
  {
    if Step(p.stages[k], m, ys).Err? {
      FailureSticks(p, k + 1, |p.stages|, m, xs);
    }
  }

  /** A stage the engine of mode m provides (recursively, for nested
      Pipes). */
  predicate StageFits(st: Stage, m: Mode)
    decreases st
  {
    match st
    case Through(Direct(_)) => true
    case Through(Nested(q)) => Fits(q, m)
    case ThroughMapOnChunk(a) => m == Sync && (a.Nested? ==> Fits(a.p, m))
    case Filter(_) => true
    case Chunk(_) => m == Sync
    case Fork(_) => true
    case Dam(_) => m == Async
    case Meter(_) => m == Async
  }

  /** Every stage of the Pipe, at every nesting depth, exists on the engine
      of mode m. */
  predicate Fits(p: Pipe, m: Mode)
    decreases p
  {
    forall i :: 0 <= i < |p.stages| ==> StageFits(p.stages[i], m)
  }

  lemma {:induction false} StepOk(st: Stage, m: Mode, xs: seq<Value>)
    ensures Step(st, m, xs).Ok? <==> StageFits(st, m)
    decreases st, 0
  {
    match st
    case Through(Direct(_)) =>
    case Through(Nested(q)) => RunOk(q, m, xs);
    case ThroughMapOnChunk(a) =>
      if m == Sync && a.Nested? {
        RunOk(a.p, m, xs);
      }
    case Filter(_) =>
    case Chunk(_) =>
    case Fork(_) =>
    case Dam(_) =>
    case Meter(_) =>
  }

  lemma {:induction false} RunPrefixOk(p: Pipe, k: nat, m: Mode, xs: seq<Value>)
    requires k <= |p.stages|
    ensures RunPrefix(p, k, m, xs).Ok? <==>
            forall i :: 0 <= i < k ==> StageFits(p.stages[i], m)
    decreases p, k
  {
    if k > 0 {
      RunPrefixOk(p, k - 1, m, xs);
      var r := RunPrefix(p, k - 1, m, xs);
      if r.Ok? {
        StepOk(p.stages[k - 1], m, r.value);
      }
    }
  }

  /** A replay fails exactly when some stage, at any nesting depth, is an
      operator the engine of that mode does not have: running a Pipe with
      `dam` or `meter` synchronously fails, and so does running one with
      `chunk` or `through_map_on_chunk` asynchronously. */
  lemma RunOk(p: Pipe, m: Mode, xs: seq<Value>)
    ensures Run(p, m, xs).Ok? <==> Fits(p, m)
    decreases p, |p.stages| + 1
  {
    RunPrefixOk(p, |p.stages|, m, xs);
  }

  /** A Pipe with `dam` or `meter` fails when run synchronously. */
  lemma AsyncOnlyFailsSync(p: Pipe, i: nat, xs: seq<Value>)
    requires i < |p.stages| && (p.stages[i].Dam? || p.stages[i].Meter?)
    ensures Run(p, Sync, xs).Err?
  {
    RunOk(p, Sync, xs);
    assert !StageFits(p.stages[i], Sync);
  }

  /** A Pipe with `chunk` or `through_map_on_chunk` fails when run
      asynchronously. */
  lemma SyncOnlyFailsAsync(p: Pipe, i: nat, xs: seq<Value>)
    requires i < |p.stages| && (p.stages[i].Chunk? || p.stages[i].ThroughMapOnChunk?)
    ensures Run(p, Async, xs).Err?
  {
    RunOk(p, Async, xs);
    assert !StageFits(p.stages[i], Async);
  }
}
