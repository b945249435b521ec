/** `Stream` (modules/stream.py): a lazy, single-pass sequence of items.
    Every operator returns a new Stream whose generator pulls from the
    receiver's generator, so a derived Stream shares its upstream's cursor:
    pulling either one consumes the same items. The model keeps that graph
    of objects: each Stream knows how it produces its items (`kind`), whom
    it pulls from (`up`, and `other` for `+`), and the one piece of state a
    pull changes (the cursor of a source, the finished flag of a chunker).
    `Remaining()` is what a Stream would still yield; each method is proved
    against it. */
module Streams {
  import opened Values
  import Chunks
  import opened Flow
  import opened Pipes

  /** The generator behind a Stream. */
  datatype Kind =
    | Source            // `(i for i in xs)` over a list of values
    | View              // `(i for i in s)` over another Stream s
    | Mapped(f: Fn)     // `through(f)`
    | OnChunks(f: Fn)   // `through_map_on_chunk(f)`
    | Filtered(c: Fn)   // `filter(c)`
    | Chunker(n: int)   // `chunk(n)`, i.e. `__chunker(n)`
    | Forker(prongs: seq<Fn>) // `fork(...)`, i.e. `__forker(...)`
    | Chain             // `self + other`, i.e. `chain(self, other)`

  class Stream {
    const kind: Kind
    const up: Stream?
    const other: Stream?
    const items: seq<Value>
    var pos: nat
    /** Set once a chunker has yielded its trailing Chunk and returned. */
    var ended: bool
    ghost const Repr: set<object>

    ghost predicate Valid()
      reads this, Repr
      decreases Repr
    {
      this in Repr &&
      (kind.Source? ==> up == null && other == null && pos <= |items|) &&
      (!kind.Source? ==>
         up != null && up in Repr && up.Repr <= Repr && this !in up.Repr && up.Valid()) &&
      (kind.Chain? ==>
         other != null && other in Repr && other.Repr <= Repr && this !in other.Repr &&
         up.Repr !! other.Repr && other.Valid())
    }

    /** The items this Stream would still yield if pulled to exhaustion. */
    ghost function Remaining(): seq<Value>
      reads this, Repr
      requires Valid()
      decreases Repr
    {
      match kind
      case Source => items[pos..]
      case View => up.Remaining()
      case Mapped(f) => Chunks.MapElems(f, up.Remaining())
      case OnChunks(f) => MapOnChunks(f, up.Remaining())
      case Filtered(c) => Keep(c, up.Remaining())
      case Chunker(n) => if ended then [] else Chunked(n, up.Remaining())
      case Forker(prongs) => ForkAll(prongs, up.Remaining())
      case Chain => up.Remaining() + other.Remaining()
    }

    /** What the upstream would still yield (nothing, for a source). */
    ghost function UpItems(): seq<Value>
      reads this, Repr
      requires Valid()
    {
      if kind.Source? then [] else up.Remaining()
    }

    /** What the right operand of `+` would still yield (nothing, for any
        other Stream). */
    ghost function OtherItems(): seq<Value>
      reads this, Repr
      requires Valid()
    {
      if kind.Chain? then other.Remaining() else []
    }

    /** Pulling from a Stream consumes its upstreams' items too: what they
        have left is a suffix of what they had (`ub`, `ob`). */
    ghost predicate Consumed(ub: seq<Value>, ob: seq<Value>)
      reads this, Repr
      requires Valid()
    {
      Suffix(UpItems(), ub) && Suffix(OtherItems(), ob)
    }

    lemma ConsumedTrans(ub: seq<Value>, ob: seq<Value>, ub0: seq<Value>, ob0: seq<Value>)
      requires Valid() && Consumed(ub, ob) && Suffix(ub, ub0) && Suffix(ob, ob0)
      ensures Consumed(ub0, ob0)
    {
      SuffixTrans(UpItems(), ub, ub0);
      SuffixTrans(OtherItems(), ob, ob0);
    }

    /** What one pull leaves of the upstreams: a one-for-one generator
        consumes exactly one item, a filter some items up to the one it
        yields, a chunker a batch, and `a + b` one item of `a` while `a`
        has one, then one of `b`. */
    ghost predicate UpstreamAfter(ub: seq<Value>, ob: seq<Value>, wasEnded: bool)
      reads this, Repr
      requires Valid()
    {
      match kind
      case Source => true
      case Filtered(_) => Suffix(UpItems(), ub)
      case Chunker(n) => UpItems() == ChunkerLeaves(n, wasEnded, ub)
      case Chain => ChainAdvanced(ub, ob, UpItems(), OtherItems())
      case _ => UpItems() == Drop(ub, 1)
    }

    /** `Stream(*args)` over plain values: a single iterable argument is
        unpacked, anything else becomes the items themselves. */
    constructor (args: seq<Value>)
      ensures Valid() && fresh(Repr)
      ensures Remaining() == Normalise(args)
    {
      kind := Source;
      up := null;
      other := null;
      items := Normalise(args);
      pos := 0;
      ended := false;
      Repr := {this};
    }

    /** `Stream(g)` where the generator g pulls from the Stream s. */
    constructor Derived(k: Kind, s: Stream)
      requires s.Valid() && !k.Source? && !k.Chain?
      ensures Valid() && Repr == {this} + s.Repr
      ensures kind == k && up == s && !ended
    {
      kind := k;
      up := s;
      other := null;
      items := [];
      pos := 0;
      ended := false;
      Repr := {this} + s.Repr;
    }

    /** `Stream(chain(a, b))`. */
    constructor Concat(a: Stream, b: Stream)
      requires a.Valid() && b.Valid() && a.Repr !! b.Repr
      ensures Valid() && Repr == {this} + a.Repr + b.Repr
      ensures Remaining() == a.Remaining() + b.Remaining()
      ensures kind == Chain && up == a && other == b
    {
      kind := Chain;
      up := a;
      other := b;
      items := [];
      pos := 0;
      ended := false;
      Repr := {this} + a.Repr + b.Repr;
      new;
      ChainParts();
    }

    /** `next(s)`: the first remaining item, or `None` for `StopIteration`;
        either way the rest is what remains. */
    method Next() returns (r: Option<Value>)
      requires Valid()
      modifies Repr
      ensures Valid()
      ensures Advanced(old(Remaining()), r, Remaining())
      ensures Consumed(old(UpItems()), old(OtherItems()))
      ensures UpstreamAfter(old(UpItems()), old(OtherItems()), old(ended))
      decreases Repr, 1
    {
      match kind {
        case Source => r := NextSource();
        case View => r := up.Pull();
        case Mapped(f) => r := NextMapped(f);
        case OnChunks(f) => r := NextOnChunks(f);
        case Filtered(c) => r := NextFiltered(c);
        case Chunker(n) => r := NextChunk(n);
        case Forker(prongs) => r := NextForked(prongs);
        case Chain => r := NextChained();
      }
    }

    /** `next(s)` as the derived generators see their upstream: the one
        step, without what it does further up. */
    method Pull() returns (r: Option<Value>)
      requires Valid()
      modifies Repr
      ensures Valid()
      ensures Advanced(old(Remaining()), r, Remaining())
      decreases Repr, 2
    {
      r := Next();
    }

    /** A pull of `(i for i in xs)`: the item under the cursor. */
    method NextSource() returns (r: Option<Value>)
      requires Valid() && kind == Source
      modifies Repr
      ensures Valid()
      ensures Advanced(old(Remaining()), r, Remaining())
    {
      if pos < |items| {
        r := Some(items[pos]);
        pos := pos + 1;
      } else {
        r := None;
      }
    }

    /** A pull of `(action(item) for item in self)`. */
    method NextMapped(f: Fn) returns (r: Option<Value>)
      requires Valid() && kind == Mapped(f)
      modifies Repr
      ensures Valid()
      ensures Advanced(old(Remaining()), r, Remaining())
      ensures up.Valid() && up.Remaining() == Drop(old(up.Remaining()), 1)
      decreases Repr, 0
    {
      var x := up.Pull();
      r := if x.Some? then Some(f(x.value)) else None;
    }

    /** A pull of `(item.map(action) if isinstance(item, Chunk) else item
        for item in self)`. */
    method NextOnChunks(f: Fn) returns (r: Option<Value>)
      requires Valid() && kind == OnChunks(f)
      modifies Repr
      ensures Valid()
      ensures Advanced(old(Remaining()), r, Remaining())
      ensures up.Valid() && up.Remaining() == Drop(old(up.Remaining()), 1)
      decreases Repr, 0
    {
      var x := up.Pull();
      r := if x.Some? then Some(OnChunk(f)(x.value)) else None;
    }

    /** A pull of `__forker`: the upstream item through the first prong
        whose condition holds. */
    method NextForked(prongs: seq<Fn>) returns (r: Option<Value>)
      requires Valid() && kind == Forker(prongs)
      modifies Repr
      ensures Valid()
      ensures Advanced(old(Remaining()), r, Remaining())
      ensures up.Valid() && up.Remaining() == Drop(old(up.Remaining()), 1)
      decreases Repr, 0
    {
      var x := up.Pull();
      if x.Some? {
        var y := SelectProng(prongs, x.value);
        r := Some(y);
      } else {
        r := None;
      }
    }

    /** A pull of `chain(self, other)`: the left operand until it is
        exhausted, then the right one. */
    method NextChained() returns (r: Option<Value>)
      requires Valid() && kind == Chain
      modifies Repr
      ensures Valid()
      ensures Advanced(old(Remaining()), r, Remaining())
      ensures up.Valid() && other.Valid()
      ensures ChainAdvanced(old(up.Remaining()), old(other.Remaining()), up.Remaining(), other.Remaining())
      decreases Repr, 0
    {
      ghost var a := up.Remaining();
      ghost var b := other.Remaining();
      assert Remaining() == a + b;
      r := up.Pull();
      assert other.Valid() && other.Remaining() == b;
      if r.None? {
        assert a == [];
        ghost var u := up.Remaining();
        r := other.Pull();
        assert up.Valid() && up.Remaining() == u == [];
        AdvancedDrops(b, r, other.Remaining());
        assert ChainAdvanced(a, b, [], other.Remaining());
      } else {
        ChainHead(a, b);
        assert ChainAdvanced(a, b, a[1..], b);
      }
      ChainParts();
    }

    /** A sum Stream is valid, and yields its operands' items, whenever its
        operands are valid: a pull from one operand leaves it so. */
    lemma ChainParts()
      requires kind == Chain && up != null && other != null
      requires this in Repr && up in Repr && other in Repr
      requires up.Repr <= Repr && other.Repr <= Repr && this !in up.Repr && this !in other.Repr
      requires up.Repr !! other.Repr && up.Valid() && other.Valid()
      ensures Valid() && Remaining() == up.Remaining() + other.Remaining()
    {
    }

    /** A pull of `(item for item in self if condition(item))`. */
    method NextFiltered(c: Fn) returns (r: Option<Value>)
      requires Valid() && kind == Filtered(c)
      modifies Repr
      ensures Valid()
      ensures Advanced(old(Remaining()), r, Remaining())
      ensures up.Valid() && Suffix(up.Remaining(), old(up.Remaining()))
      decreases Repr, 0
    {
      r := up.NextKept(c);
    }

    /** Items are pulled until one satisfies the condition: the result is
        the first item `Keep` would still give, and every item before it is
        consumed. */
    method NextKept(c: Fn) returns (r: Option<Value>)
      requires Valid()
      modifies Repr
      ensures Valid()
      ensures Advanced(Keep(c, old(Remaining())), r, Keep(c, Remaining()))
      ensures Suffix(Remaining(), old(Remaining()))
      decreases Repr, 3
    {
      ghost var all := Remaining();
      r := Pull();
      KeptStart(c, all, r, Remaining());
      while r.Some? && !Truthy(c(r.value))
        invariant Valid()
        invariant KeptSoFar(c, all, r, Remaining()) && Suffix(Remaining(), all)
        decreases |Remaining()| + if r.Some? then 1 else 0
      {
        ghost var before, x := Remaining(), r.value;
        r := Pull();
        KeptStep(c, all, x, before, r, Remaining());
      }
      if r.Some? {
        KeptFound(c, all, r.value, Remaining());
      }
    }

    /** A pull of `__chunker(n)`: items are gathered until there are n of
        them (at least one, whatever n is), or until the upstream is
        exhausted, which yields the gathered items as the trailing Chunk
        and finishes the generator. */
    method NextChunk(n: int) returns (r: Option<Value>)
      requires Valid() && kind == Chunker(n)
      modifies Repr
      ensures Valid()
      ensures Advanced(old(Remaining()), r, Remaining())
      ensures up.Valid() && up.Remaining() == ChunkerLeaves(n, old(ended), old(up.Remaining()))
      decreases Repr, 0
    {
      if ended {
        return None;
      }
      var acc: seq<Value> := [];
      var cnt := 0;
      while true
        invariant Valid() && !ended
        invariant old(up.Remaining()) == acc + up.Remaining()
        invariant cnt == |acc| < Quota(n)
        decreases |up.Remaining()|
      {
        ghost var before := up.Remaining();
        var x := up.Pull();
        if x.None? {
          ended := true;
          assert acc == old(up.Remaining());
          ChunkedShort(n, acc);
          assert up.Remaining() == Drop(old(up.Remaining()), Quota(n));
          return Some(Chunks.Of(acc));
        }
        Flow.Pulled(old(up.Remaining()), acc, before, x.value, up.Remaining());
        acc := acc + [x.value];
        cnt := cnt + 1;
        if cnt >= n {
          assert old(up.Remaining()) == acc + up.Remaining();
          assert |acc| == Quota(n);
          ChunkedFull(n, acc, up.Remaining());
          assert up.Remaining() == old(up.Remaining())[Quota(n)..];
          return Some(Chunks.Of(acc));
        }
      }
    }

    /** One `next()` as the draining loops make it: whatever the upstreams
        had already given up since `u0`, `o0` stays given up. */
    method Advance(ghost u0: seq<Value>, ghost o0: seq<Value>) returns (r: Option<Value>)
      requires Valid() && Consumed(u0, o0)
      modifies Repr
      ensures Valid()
      ensures Advanced(old(Remaining()), r, Remaining())
      ensures Consumed(u0, o0)
    {
      ghost var ub, ob := UpItems(), OtherItems();
      r := Next();
      ConsumedTrans(ub, ob, u0, o0);
    }

    /** `take(n)`: pulls until n items were taken (at least one, as the
        count is tested only after an append) or the Stream is exhausted. */
    method Take(n: int) returns (acc: seq<Value>)
      requires Valid()
      modifies Repr
      ensures Valid()
      ensures acc == Flow.Take(n, old(Remaining()))
      ensures Remaining() == old(Remaining())[|acc|..]
      ensures Consumed(old(UpItems()), old(OtherItems()))
    {
      ghost var all := Remaining();
      ghost var u0, o0 := UpItems(), OtherItems();
      acc := [];
      var cnt := 0;
      while true
        invariant Valid()
        invariant all == acc + Remaining()
        invariant cnt == |acc| < Quota(n)
        invariant Consumed(u0, o0)
        decreases |Remaining()|
      {
        ghost var before := Remaining();
        var x := Advance(u0, o0);
        if x.None? {
          assert acc == all;
          return;
        }
        Flow.Pulled(all, acc, before, x.value, Remaining());
        acc := acc + [x.value];
        cnt := cnt + 1;
        if cnt >= n {
          Flow.TakeReached(n, all, acc, Remaining());
          return;
        }
      }
    }

    /** `to_list()`: every remaining item, leaving the Stream exhausted. */
    method ToList() returns (xs: seq<Value>)
      requires Valid()
      modifies Repr
      ensures Valid()
      ensures xs == old(Remaining()) && Remaining() == []
      ensures Consumed(old(UpItems()), old(OtherItems()))
    {
      ghost var u0, o0 := UpItems(), OtherItems();
      xs := [];
      while true
        invariant Valid()
        invariant old(Remaining()) == xs + Remaining()
        invariant Consumed(u0, o0)
        decreases |Remaining()|
      {
        ghost var before := Remaining();
        var x := Advance(u0, o0);
        if x.None? {
          assert xs == old(Remaining());
          return;
        }
        Flow.Pulled(old(Remaining()), xs, before, x.value, Remaining());
        xs := xs + [x.value];
      }
    }

    /** `drain()`: pulls every remaining item and discards it. */
    method Drain()
      requires Valid()
      modifies Repr
      ensures Valid() && Remaining() == []
      ensures Consumed(old(UpItems()), old(OtherItems()))
    {
      ghost var u0, o0 := UpItems(), OtherItems();
      while true
        invariant Valid()
        invariant Consumed(u0, o0)
        decreases |Remaining()|
      {
        var x := Advance(u0, o0);
        if x.None? {
          return;
        }
      }
    }

    /** `through(action)`: a plain callable maps every item; a Pipe is
        replayed on a Stream over this one's generator. */
    method Through(a: Action) returns (r: Result<Stream>)
      requires Valid()
      ensures Delivers(r, Step(Stage.Through(a), Sync, Remaining()))
      ensures r.Ok? ==> fresh(r.value.Repr - Repr)
      ensures a.Direct? ==> r.Ok? && r.value.kind == Mapped(a.f) && r.value.up == this
      decreases a
    {
      if a.Direct? {
        var s := new Stream.Derived(Mapped(a.f), this);
        r := Ok(s);
      } else {
        var v := new Stream.Derived(View, this);
        r := v.Replay(a.p);
      }
    }

    /** `through_map_on_chunk(action)`: a plain callable is mapped inside
        every Chunk item, other items pass unchanged; a Pipe is handled as
        by `through`. */
    method ThroughMapOnChunk(a: Action) returns (r: Result<Stream>)
      requires Valid()
      ensures Delivers(r, Step(Stage.ThroughMapOnChunk(a), Sync, Remaining()))
      ensures r.Ok? ==> fresh(r.value.Repr - Repr)
      ensures a.Direct? ==> r.Ok? && r.value.kind == OnChunks(a.f) && r.value.up == this
      decreases a
    {
      if a.Direct? {
        var s := new Stream.Derived(OnChunks(a.f), this);
        r := Ok(s);
      } else {
        var v := new Stream.Derived(View, this);
        r := v.Replay(a.p);
      }
    }

    /** `filter(condition)`. */
    method Filter(c: Fn) returns (r: Stream)
      requires Valid()
      ensures r.Valid() && fresh(r.Repr - Repr)
      ensures r.Remaining() == Keep(c, Remaining())
      ensures r.kind == Filtered(c) && r.up == this
    {
      r := new Stream.Derived(Filtered(c), this);
    }

    /** `chunk(n)`. */
    method Chunk(n: int) returns (r: Stream)
      requires Valid()
      ensures r.Valid() && fresh(r.Repr - Repr)
      ensures r.Remaining() == Chunked(n, Remaining())
      ensures r.kind == Chunker(n) && r.up == this
    {
      r := new Stream.Derived(Chunker(n), this);
    }

    /** `fork(condition, action, *args)`. */
    method Fork(condition: Fn, action: Fn, args: seq<Fn>) returns (r: Stream)
      requires Valid()
      ensures r.Valid() && fresh(r.Repr - Repr)
      ensures r.Remaining() == ForkAll([condition, action] + args, Remaining())
      ensures r.kind == Forker([condition, action] + args) && r.up == this
    {
      r := ForkProngs([condition, action] + args);
    }

    /** The fork over an already flattened prong list. */
    method ForkProngs(prongs: seq<Fn>) returns (r: Stream)
      requires Valid()
      ensures r.Valid() && fresh(r.Repr - Repr)
      ensures r.Remaining() == ForkAll(prongs, Remaining())
      ensures r.kind == Forker(prongs) && r.up == this
    {
      r := new Stream.Derived(Forker(prongs), this);
    }

    /** `self + that`: this Stream's items, then that one's. */
    method Plus(that: Stream) returns (r: Stream)
      requires Valid() && that.Valid() && Repr !! that.Repr
      ensures r.Valid() && fresh(r.Repr - Repr - that.Repr)
      ensures r.Remaining() == Remaining() + that.Remaining()
      ensures r.kind == Chain && r.up == this && r.other == that
    {
      r := new Stream.Concat(this, that);
    }

    /** One stage of a Pipe replayed on this Stream: the operator of that
        name, or `AttributeError` for the asynchronous-only `dam` and
        `meter`. */
    method Apply(st: Stage) returns (r: Result<Stream>)
      requires Valid()
      ensures Delivers(r, Step(st, Sync, Remaining()))
      ensures r.Ok? ==> fresh(r.value.Repr - Repr)
      decreases st
    {
      match st {
        case Through(a) =>
          r := Through(a);
        case ThroughMapOnChunk(a) =>
          r := ThroughMapOnChunk(a);
        case Filter(c) =>
          var s := Filter(c);
          r := Ok(s);
        case Chunk(n) =>
          var s := Chunk(n);
          r := Ok(s);
        case Fork(prongs) =>
          var s := ForkProngs(prongs);
          r := Ok(s);
        case Dam(_) =>
          r := Err(AttributeError("dam"));
        case Meter(_) =>
          r := Err(AttributeError("meter"));
      }
    }

    /** Every stage of a Pipe replayed on this Stream, in the order the
        stages were added; the first missing operator stops the replay. */
    method Replay(p: Pipe) returns (r: Result<Stream>)
      requires Valid()
      ensures Delivers(r, Run(p, Sync, Remaining()))
      ensures r.Ok? ==> fresh(r.value.Repr - Repr)
      decreases p
    {
      ghost var xs := Remaining();
      var cur := this;
      var i := 0;
      while i < |p.stages|
        invariant i <= |p.stages|
        invariant cur.Valid() && fresh(cur.Repr - Repr)
        invariant RunPrefix(p, i, Sync, xs) == Ok(cur.Remaining())
      {
        ghost var ys := cur.Remaining();
        var next := cur.Apply(p.stages[i]);
        ReplayStep(p, i, Sync, xs, ys);
        if next.Err? {
          assert Run(p, Sync, xs) == Err(next.error);
          return Err(next.error);
        }
        cur := next.value;
        i := i + 1;
      }
      assert Run(p, Sync, xs) == Ok(cur.Remaining());
      r := Ok(cur);
    }
  }

  /** One pull of `a + b` as seen by the operands: the left one gives up its
      first item while it has one, and only then the right one does. */
  predicate ChainAdvanced(a: seq<Value>, b: seq<Value>, a2: seq<Value>, b2: seq<Value>)
  {
    if a != [] then a2 == a[1..] && b2 == b else a2 == [] && b2 == Drop(b, 1)
  }

  /** Pulling from `a + b` pulls from `a` while it lasts. */
  lemma ChainHead(a: seq<Value>, b: seq<Value>)
    requires a != []
    ensures (a + b)[0] == a[0] && (a + b)[1..] == a[1..] + b
  {
  }

  /** A derived Stream shares its upstream's generator: after
      `b = a.filter(lambda x: 1)`, pulling `b` consumes `a`'s items, so `a`
      goes on after the item `b` yielded rather than from its own start. */
  method SharedCursor() returns (fromB: Option<Value>, fromA: Option<Value>)
    ensures fromB == Some(Item(1)) && fromA == Some(Item(2))
  {
    var xs := [Item(1), Item(2), Item(3)];
    var always: Fn := (v: Value) => Item(1);
    var a := new Stream(xs);
    var b := a.Filter(always);
    KeepAll(always, xs);
    assert b.Remaining() == xs;
    fromB := b.Next();
    assert fromB == Some(xs[0]) && b.Remaining() == xs[1..];
    KeepAll(always, a.Remaining());
    assert a.Remaining() == xs[1..];
    fromA := a.Next();
  }

  /** A builder's outcome: the error the model predicts, or a valid Stream
      that yields exactly the predicted items. */
  ghost predicate Delivers(r: Result<Stream>, want: Result<seq<Value>>)
    reads if r.Ok? then {r.value} + r.value.Repr else {}
  {
    match want
    case Err(e) => r == Err(e)
    case Ok(ys) => r.Ok? && r.value.Valid() && r.value.Remaining() == ys
  }
}
