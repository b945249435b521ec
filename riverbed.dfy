/** `Riverbed` (modules/riverbed.py): the asynchronous Stream. Each operator
    wraps the receiver in a new async generator, so, as with Stream, a
    derived Riverbed shares its upstream's cursor. One `await
    r.__anext__()` is one pull; the event loop, and the sleeping `meter`
    adds, do not change which items come out or in what order, so a pull
    is modelled as a sequential step. */
module Riverbeds {
  import opened Values
  import Chunks
  import opened Flow
  import opened Pipes

  /** The async generator behind a Riverbed. */
  datatype Kind =
    | Source                // `to_async_generator(xs)` over a list of values
    | View                  // `async_to_async_generator(r)` over a Riverbed r
    | Mapped(f: Fn)         // `through(f)`, i.e. `amap(f, self)`
    | Filtered(c: Fn)       // `filter(c)`, i.e. `afilter(c, self)`
    | Forker(prongs: seq<Fn>) // `fork(...)`, i.e. `__forker(...)`
    | Dammed(d: Fn)         // `dam(d)`, i.e. `async_amap(d, self)`
    | Metered(seconds: real) // `meter(t)`: the same items, each after a sleep

  class Riverbed {
    const kind: Kind
    const up: Riverbed?
    const items: seq<Value>
    var pos: nat
    ghost const Repr: set<object>

    ghost predicate Valid()
      reads this, Repr
      decreases Repr
    {
      this in Repr &&
      (kind.Source? ==> up == null && pos <= |items|) &&
      (!kind.Source? ==>
         up != null && up in Repr && up.Repr <= Repr && this !in up.Repr && up.Valid())
    }

    /** The items this Riverbed would still yield if awaited to exhaustion. */
    ghost function Remaining(): seq<Value>
      reads this, Repr
      requires Valid()
      decreases Repr
    {
      match kind
      case Source => items[pos..]
      case View => up.Remaining()
      case Mapped(f) => Chunks.MapElems(f, up.Remaining())
      case Filtered(c) => Keep(c, up.Remaining())
      case Forker(prongs) => ForkAll(prongs, up.Remaining())
      case Dammed(d) => Chunks.MapElems(d, up.Remaining())
      case Metered(_) => up.Remaining()
    }

    /** `Riverbed(*args)` over plain values: a single (synchronous)
        iterable argument is unpacked, anything else becomes the items. */
    constructor (args: seq<Value>)
      ensures Valid() && fresh(Repr)
      ensures Remaining() == Normalise(args)
    {
      kind := Source;
      up := null;
      items := Normalise(args);
      pos := 0;
      Repr := {this};
    }

    /** `Riverbed(g)` where the async generator g pulls from `r`; with
        `k == View` this is also `Riverbed(r)` for a Riverbed r, an async
        iterable. */
    constructor Derived(k: Kind, r: Riverbed)
      requires r.Valid() && !k.Source?
      ensures Valid() && Repr == {this} + r.Repr
      ensures kind == k && up == r
    {
      kind := k;
      up := r;
      items := [];
      pos := 0;
      Repr := {this} + r.Repr;
    }

    /** `await r.__anext__()`: the first remaining item, or `None` for
        `StopAsyncIteration`. */
    method Next() returns (r: Option<Value>)
      requires Valid()
      modifies Repr
      ensures Valid()
      ensures Advanced(old(Remaining()), r, Remaining())
      ensures !kind.Source? ==> up.Valid() && Suffix(up.Remaining(), old(up.Remaining()))
      ensures !kind.Source? && !kind.Filtered? ==> up.Remaining() == Drop(old(up.Remaining()), 1)
      decreases Repr, 1
    {
      match kind {
        case Source => r := NextSource();
        case View => r := up.Pull();
        case Mapped(f) => r := NextMapped(f);
        case Filtered(c) => r := NextFiltered(c);
        case Forker(prongs) => r := NextForked(prongs);
        case Dammed(d) => r := NextMapped(d);
        case Metered(_) => r := up.Pull();
      }
    }

    /** `await r.__anext__()` as the derived generators see their upstream:
        the one step, without what it does further up. */
    method Pull() returns (r: Option<Value>)
      requires Valid()
      modifies Repr
      ensures Valid()
      ensures Advanced(old(Remaining()), r, Remaining())
      decreases Repr, 2
    {
      r := Next();
    }

    /** A pull of `to_async_generator(xs)`: the item under the cursor. */
    method NextSource() returns (r: Option<Value>)
      requires Valid() && kind == Source
      modifies Repr
      ensures Valid()
      ensures Advanced(old(Remaining()), r, Remaining())
    {
      if pos < |items| {
        r := Some(items[pos]);
        pos := pos + 1;
      } else {
        r := None;
      }
    }

    /** A pull of `amap(f, self)`, or of `async_amap(f, self)` where `f`
        stands for the awaited result of the coroutine function. */
    method NextMapped(f: Fn) returns (r: Option<Value>)
      requires Valid() && (kind == Mapped(f) || kind == Dammed(f))
      modifies Repr
      ensures Valid()
      ensures Advanced(old(Remaining()), r, Remaining())
      ensures up.Valid() && up.Remaining() == Drop(old(up.Remaining()), 1)
      decreases Repr, 0
    {
      var x := up.Pull();
      r := if x.Some? then Some(f(x.value)) else None;
    }

    /** A pull of `afilter(c, self)`. */
    method NextFiltered(c: Fn) returns (r: Option<Value>)
      requires Valid() && kind == Filtered(c)
      modifies Repr
      ensures Valid()
      ensures Advanced(old(Remaining()), r, Remaining())
      ensures up.Valid() && Suffix(up.Remaining(), old(up.Remaining()))
      decreases Repr, 0
    {
      r := up.NextKept(c);
    }

    /** Items are awaited until one satisfies the condition: the result is
        the first item `Keep` would still give, and every item before it is
        consumed. */
    method NextKept(c: Fn) returns (r: Option<Value>)
      requires Valid()
      modifies Repr
      ensures Valid()
      ensures Advanced(Keep(c, old(Remaining())), r, Keep(c, Remaining()))
      ensures Suffix(Remaining(), old(Remaining()))
      decreases Repr, 3
    {
      ghost var all := Remaining();
      r := Pull();
      KeptStart(c, all, r, Remaining());
      while r.Some? && !Truthy(c(r.value))
        invariant Valid()
        invariant KeptSoFar(c, all, r, Remaining()) && Suffix(Remaining(), all)
        decreases |Remaining()| + if r.Some? then 1 else 0
      {
        ghost var before, x := Remaining(), r.value;
        r := Pull();
        KeptStep(c, all, x, before, r, Remaining());
      }
      if r.Some? {
        KeptFound(c, all, r.value, Remaining());
      }
    }

    /** A pull of the asynchronous `__forker`: the upstream item through the
        first prong whose condition holds. */
    method NextForked(prongs: seq<Fn>) returns (r: Option<Value>)
      requires Valid() && kind == Forker(prongs)
      modifies Repr
      ensures Valid()
      ensures Advanced(old(Remaining()), r, Remaining())
      ensures up.Valid() && up.Remaining() == Drop(old(up.Remaining()), 1)
      decreases Repr, 0
    {
      var x := up.Pull();
      if x.Some? {
        var y := SelectProng(prongs, x.value);
        r := Some(y);
      } else {
        r := None;
      }
    }

    /** `await take(n)`: awaits until n items were taken (at least one) or
        the Riverbed is exhausted. */
    method Take(n: int) returns (acc: seq<Value>)
      requires Valid()
      modifies Repr
      ensures Valid()
      ensures acc == Flow.Take(n, old(Remaining()))
      ensures Remaining() == old(Remaining())[|acc|..]
      ensures !kind.Source? ==> up.Valid() && Suffix(up.Remaining(), old(up.Remaining()))
    {
      ghost var all := Remaining();
      acc := [];
      var cnt := 0;
      while true
        invariant Valid()
        invariant all == acc + Remaining()
        invariant cnt == |acc| < Quota(n)
        invariant !kind.Source? ==> up.Valid() && Suffix(up.Remaining(), old(up.Remaining()))
        decreases |Remaining()|
      {
        ghost var before := Remaining();
        ghost var ub := if kind.Source? then [] else up.Remaining();
        var x := Next();
        if !kind.Source? {
          SuffixTrans(up.Remaining(), ub, old(up.Remaining()));
        }
        if x.None? {
          assert acc == all;
          return;
        }
        Flow.Pulled(all, acc, before, x.value, Remaining());
        acc := acc + [x.value];
        cnt := cnt + 1;
        if cnt >= n {
          Flow.TakeReached(n, all, acc, Remaining());
          return;
        }
      }
    }

    /** `through(action)`: a plain callable maps every item; a Pipe is
        replayed asynchronously on a Riverbed over this one's generator. */
    method Through(a: Action) returns (r: Result<Riverbed>)
      requires Valid()
      ensures Delivers(r, Step(Stage.Through(a), Async, Remaining()))
      ensures r.Ok? ==> fresh(r.value.Repr - Repr)
      ensures a.Direct? ==> r.Ok? && r.value.kind == Mapped(a.f) && r.value.up == this
      decreases a
    {
      if a.Direct? {
        var s := new Riverbed.Derived(Mapped(a.f), this);
        r := Ok(s);
      } else {
        var v := new Riverbed.Derived(View, this);
        r := v.Replay(a.p);
      }
    }

    /** `filter(condition)`. */
    method Filter(c: Fn) returns (r: Riverbed)
      requires Valid()
      ensures r.Valid() && fresh(r.Repr - Repr)
      ensures r.Remaining() == Keep(c, Remaining())
      ensures r.kind == Filtered(c) && r.up == this
    {
      r := new Riverbed.Derived(Filtered(c), this);
    }

    /** `fork(condition, action, *args)`. */
    method Fork(condition: Fn, action: Fn, args: seq<Fn>) returns (r: Riverbed)
      requires Valid()
      ensures r.Valid() && fresh(r.Repr - Repr)
      ensures r.Remaining() == ForkAll([condition, action] + args, Remaining())
      ensures r.kind == Forker([condition, action] + args) && r.up == this
    {
      r := ForkProngs([condition, action] + args);
    }

    /** The fork over an already flattened prong list. */
    method ForkProngs(prongs: seq<Fn>) returns (r: Riverbed)
      requires Valid()
      ensures r.Valid() && fresh(r.Repr - Repr)
      ensures r.Remaining() == ForkAll(prongs, Remaining())
      ensures r.kind == Forker(prongs) && r.up == this
    {
      r := new Riverbed.Derived(Forker(prongs), this);
    }

    /** `dam(action)`: every item through an awaited action. */
    method Dam(d: Fn) returns (r: Riverbed)
      requires Valid()
      ensures r.Valid() && fresh(r.Repr - Repr)
      ensures r.Remaining() == Chunks.MapElems(d, Remaining())
      ensures r.kind == Dammed(d) && r.up == this
    {
      r := new Riverbed.Derived(Dammed(d), this);
    }

    /** `meter(time)`: the same items, in the same order. */
    method Meter(seconds: real) returns (r: Riverbed)
      requires Valid()
      ensures r.Valid() && fresh(r.Repr - Repr)
      ensures r.Remaining() == Remaining()
      ensures r.kind == Metered(seconds) && r.up == this
    {
      r := new Riverbed.Derived(Metered(seconds), this);
    }

    /** One stage of a Pipe replayed on this Riverbed: the operator of that
        name, or `AttributeError` for the synchronous-only `chunk` and
        `through_map_on_chunk`. */
    method Apply(st: Stage) returns (r: Result<Riverbed>)
      requires Valid()
      ensures Delivers(r, Step(st, Async, Remaining()))
      ensures r.Ok? ==> fresh(r.value.Repr - Repr)
      decreases st
    {
      match st {
        case Through(a) =>
          r := Through(a);
        case ThroughMapOnChunk(_) =>
          r := Err(AttributeError("through_map_on_chunk"));
        case Filter(c) =>
          var s := Filter(c);
          r := Ok(s);
        case Chunk(_) =>
          r := Err(AttributeError("chunk"));
        case Fork(prongs) =>
          var s := ForkProngs(prongs);
          r := Ok(s);
        case Dam(d) =>
          var s := Dam(d);
          r := Ok(s);
        case Meter(t) =>
          var s := Meter(t);
          r := Ok(s);
      }
    }

    /** Every stage of a Pipe replayed on this Riverbed, in the order the
        stages were added; the first missing operator stops the replay. */
    method Replay(p: Pipe) returns (r: Result<Riverbed>)
      requires Valid()
      ensures Delivers(r, Run(p, Async, Remaining()))
      ensures r.Ok? ==> fresh(r.value.Repr - Repr)
      decreases p
    {
      ghost var xs := Remaining();
      var cur := this;
      var i := 0;
      while i < |p.stages|
        invariant i <= |p.stages|
        invariant cur.Valid() && fresh(cur.Repr - Repr)
        invariant RunPrefix(p, i, Async, xs) == Ok(cur.Remaining())
      {
        ghost var ys := cur.Remaining();
        var next := cur.Apply(p.stages[i]);
        ReplayStep(p, i, Async, xs, ys);
        if next.Err? {
          return Err(next.error);
        }
        cur := next.value;
        i := i + 1;
      }
      assert Run(p, Async, xs) == Ok(cur.Remaining());
      r := Ok(cur);
    }
  }

  /** A builder's outcome: the error the model predicts, or a valid
      Riverbed that yields exactly the predicted items. */
  ghost predicate Delivers(r: Result<Riverbed>, want: Result<seq<Value>>)
    reads if r.Ok? then {r.value} + r.value.Repr else {}
  {
    match want
    case Err(e) => r == Err(e)
    case Ok(ys) => r.Ok? && r.value.Valid() && r.value.Remaining() == ys
  }
}
