/** The legacy engine of src/stream.py. A `Pipe` holds a Python list of
    actions; `through` makes a shallow copy, so the copy and the receiver
    hold the same list and the append extends both. A `Stream` holds a
    source iterator and a Pipe that it applies to each item at the moment
    the item is pulled; its `through` also copies shallowly, so every copy
    of a Stream sees every action appended through any of them. */
module LegacyStreams {
  import opened Values
  import Chunks
  import opened Flow

  /** A value after every action of the list, left to right: the fold that
      `__execute` runs. The leading `lambda x: x` of the Python list is
      left implicit. */
  function Applied(fs: seq<Fn>, x: Value): Value
    decreases |fs|
  {
    if fs == [] then x else fs[|fs| - 1](Applied(fs[..|fs| - 1], x))
  }

  /** Actions compose in order: running `fs + gs` is running `fs`, then
      `gs` on the result. */
  lemma {:induction false} AppliedAppend(fs: seq<Fn>, gs: seq<Fn>, x: Value)
    ensures Applied(fs + gs, x) == Applied(gs, Applied(fs, x))
    decreases |gs|
  {
    if gs == [] {
      assert fs + gs == fs;
    } else {
      var last := |gs| - 1;
      assert (fs + gs)[..|fs + gs| - 1] == fs + gs[..last];
      AppliedAppend(fs, gs[..last], x);
    }
  }

  /** `Pipe(f1, ..., fk)(x)` is `fk(...f1(x))`; `Pipe()` is the identity. */
  lemma AppliedInOrder(f: Fn, g: Fn, x: Value)
    ensures Applied([], x) == x
    ensures Applied([f, g], x) == g(f(x))
  {
    assert [f, g][..1] == [f];
    assert [f][..0] == [];
  }

  /** What iterating yields: the Pipe's result for each source item, in
      order. */
  function Outputs(fs: seq<Fn>, s: seq<Value>): (r: seq<Value>)
    ensures |r| == |s|
  {
    if s == [] then [] else [Applied(fs, s[0])] + Outputs(fs, s[1..])
  }

  /** The i-th output is the Pipe's result for the i-th source item: order
      and count are preserved. */
  lemma {:induction false} OutputsAt(fs: seq<Fn>, s: seq<Value>, i: nat)
    requires i < |s|
    ensures Outputs(fs, s)[i] == Applied(fs, s[i])
    decreases i
  {
    if i > 0 {
      OutputsAt(fs, s[1..], i - 1);
    }
  }

  /** A Pipe with no actions yields its source unchanged. */
  lemma OutputsNone(s: seq<Value>)
    ensures Outputs([], s) == s
  {
    forall i | 0 <= i < |s|
      ensures Outputs([], s)[i] == s[i]
    {
      OutputsAt([], s, i);
    }
  }

  /** Appending one action to a Pipe maps that action over everything it
      yields. */
  lemma OutputsThen(fs: seq<Fn>, f: Fn, s: seq<Value>)
    ensures Outputs(fs + [f], s) == Chunks.MapElems(f, Outputs(fs, s))
  {
    forall i | 0 <= i < |s|
      ensures Outputs(fs + [f], s)[i] == Chunks.MapElems(f, Outputs(fs, s))[i]
    {
      AppliedAppend(fs, [f], s[i]);
      OutputsAt(fs + [f], s, i);
      OutputsAt(fs, s, i);
      assert [f][..0] == [];
    }
  }

  /** A legacy chunk is a plain list. */
  function AsList(v: Value): Value
  {
    if v.ChunkV? then ListV(v.elems) else v
  }

  /** What the legacy `chunk(n)` yields: the batches of `Chunked`, as
      lists. */
  function Lists(n: int, s: seq<Value>): (r: seq<Value>)
    ensures |r| == |Chunked(n, s)|
  {
    Chunks.MapElems(AsList, Chunked(n, s))
  }

  /** The k-th list holds the items of the k-th batch. */
  lemma ListsAt(n: int, s: seq<Value>, k: nat)
    requires k < |Lists(n, s)|
    ensures Chunked(n, s)[k].ChunkV? && Lists(n, s)[k] == ListV(Chunked(n, s)[k].elems)
  {
    ChunkedAreChunks(n, s, k);
  }

  /** The legacy chunker's sizes: floor(L / w) full lists of width w, then
      one trailing list of L mod w items, w the batch width; together they
      hold the source in order. */
  lemma ListsSizes(n: int, s: seq<Value>)
    ensures |Lists(n, s)| == |s| / Quota(n) + 1
    ensures forall k :: 0 <= k < |s| / Quota(n) ==>
              Lists(n, s)[k].ListV? && |Lists(n, s)[k].elems| == Quota(n)
    ensures Lists(n, s)[|s| / Quota(n)].ListV? &&
            |Lists(n, s)[|s| / Quota(n)].elems| == |s| % Quota(n)
  {
    ChunkedSizes(n, s);
    forall k | 0 <= k <= |s| / Quota(n)
      ensures Lists(n, s)[k] == ListV(Chunked(n, s)[k].elems)
    {
      ListsAt(n, s, k);
    }
  }

  /** The Python list of actions, shared by shallow copies. */
  class ActionList {
    var fns: seq<Fn>

    constructor (fs: seq<Fn>)
      ensures fns == fs
    {
      fns := fs;
    }
  }

  class Pipe {
    const actions: ActionList

    /** `Pipe(*args)`: the identity, then the given actions. */
    constructor (fs: seq<Fn>)
      ensures fresh(actions) && actions.fns == fs
    {
      actions := new ActionList(fs);
    }

    /** `copy.copy(pipe)`: a new Pipe over the same list. */
    constructor Copy(p: Pipe)
      ensures actions == p.actions
    {
      actions := p.actions;
    }

    /** `through(action)`: the returned copy shares the list, and the
        append is seen through the receiver as well. */
    method Through(f: Fn) returns (dup: Pipe)
      modifies actions
      ensures fresh(dup) && dup.actions == actions
      ensures actions.fns == old(actions.fns) + [f]
    {
      dup := new Pipe.Copy(this);
      dup.actions.fns := dup.actions.fns + [f];
    }

    /** `pipe(*args)`: the identity applied to the arguments (a one-argument
        lambda, so any other count raises `TypeError`), then each action in
        turn. */
    method Call(args: seq<Value>) returns (r: Result<Value>)
      ensures |args| != 1 ==> r == Err(TypeError)
      ensures |args| == 1 ==> r == Ok(Applied(actions.fns, args[0]))
    {
      if |args| != 1 {
        return Err(TypeError);
      }
      var fs := actions.fns;
      var value := args[0];
      var i := 0;
      while i < |fs|
        invariant i <= |fs|
        invariant value == Applied(fs[..i], args[0])
      {
        assert fs[..i + 1][..i] == fs[..i];
        value := fs[i](value);
        i := i + 1;
      }
      assert fs[..i] == fs;
      r := Ok(value);
    }
  }

  /** The iterator a legacy Stream reads: a list iterator, or the
      `__chunker(n)` generator over another Stream. */
  class Source {
    const items: seq<Value>
    const up: Stream?
    const n: int
    var pos: nat
    /** Set once the chunker has yielded its trailing list. */
    var ended: bool
    ghost const Repr: set<object>

    ghost predicate Valid()
      reads this, Repr
      decreases Repr, 0
    {
      this in Repr &&
      (up == null ==> pos <= |items|) &&
      (up != null ==> up in Repr && up.Repr <= Repr && this !in up.Repr && up.Valid())
    }

    ghost function Remaining(): seq<Value>
      reads this, Repr
      requires Valid()
      decreases Repr, 0
    {
      if up == null then items[pos..]
      else if ended then []
      else Lists(n, up.Remaining())
    }

    /** What the Stream a chunker reads would still yield (nothing, for a
        list iterator). */
    ghost function UpItems(): seq<Value>
      reads this, Repr
      requires Valid()
    {
      if up == null then [] else up.Remaining()
    }

    /** `iter(xs)`. */
    constructor Over(xs: seq<Value>)
      ensures Valid() && Repr == {this} && Remaining() == xs
    {
      items := xs;
      up := null;
      n := 0;
      pos := 0;
      ended := false;
      Repr := {this};
    }

    /** `s.__chunker(n)`. */
    constructor Chunker(n: int, s: Stream)
      requires s.Valid()
      ensures Valid() && Repr == {this} + s.Repr
      ensures Remaining() == Lists(n, s.Remaining())
      ensures up == s && this.n == n && !ended
    {
      items := [];
      up := s;
      this.n := n;
      pos := 0;
      ended := false;
      Repr := {this} + s.Repr;
    }

    /** One pull of the iterator. */
    method Next() returns (r: Option<Value>)
      requires Valid()
      modifies Repr
      ensures Valid()
      ensures Advanced(old(Remaining()), r, Remaining())
      ensures UpItems() == ChunkerLeaves(n, old(ended), old(UpItems()))
      decreases Repr, 1
    {
      if up == null {
        if pos < |items| {
          r := Some(items[pos]);
          pos := pos + 1;
        } else {
          r := None;
        }
      } else {
        r := NextList();
      }
    }

    /** One pull of `__chunker(n)`: pipe outputs are gathered until there
        are n of them (at least one), or until the Stream is exhausted,
        which yields the gathered list and finishes the generator. */
    method NextList() returns (r: Option<Value>)
      requires Valid() && up != null
      modifies Repr
      ensures Valid()
      ensures Advanced(old(Remaining()), r, Remaining())
      ensures up.Valid() && up.Remaining() == ChunkerLeaves(n, old(ended), old(up.Remaining()))
      decreases Repr, 0
    {
      if ended {
        return None;
      }
      var acc: seq<Value> := [];
      var cnt := 0;
      while true
        invariant Valid() && !ended
        invariant old(up.Remaining()) == acc + up.Remaining()
        invariant cnt == |acc| < Quota(n)
        decreases |up.Remaining()|
      {
        ghost var before := up.Remaining();
        var x := up.Pull();
        if x.None? {
          ended := true;
          assert acc == old(up.Remaining());
          assert up.Remaining() == ChunkerLeaves(n, false, acc);
          ChunkedShort(n, acc);
          return Some(ListV(acc));
        }
        Flow.Pulled(old(up.Remaining()), acc, before, x.value, up.Remaining());
        acc := acc + [x.value];
        cnt := cnt + 1;
        if cnt >= n {
          assert old(up.Remaining()) == acc + up.Remaining();
          assert |acc| == Quota(n);
          assert up.Remaining() == old(up.Remaining())[Quota(n)..];
          ChunkedFull(n, acc, up.Remaining());
          MapElemsTail(AsList, Chunked(n, old(up.Remaining())));
          return Some(ListV(acc));
        }
      }
    }
  }

  class Stream {
    const source: Source
    const pipe: Pipe
    ghost const Repr: set<object>

    ghost predicate Valid()
      reads this, Repr
      decreases Repr, 1
    {
      this in Repr && source in Repr && pipe in Repr && pipe.actions in Repr &&
      source.Repr <= Repr && this !in source.Repr &&
      pipe !in source.Repr && pipe.actions !in source.Repr &&
      source.Valid()
    }

    /** The Pipe's output for every item the source still holds, under the
        actions the Pipe holds now. */
    ghost function Remaining(): seq<Value>
      reads this, Repr
      requires Valid()
      decreases Repr, 1
    {
      Outputs(pipe.actions.fns, source.Remaining())
    }

    /** `Stream(iter(xs))`: a fresh Pipe with no actions. */
    constructor (xs: seq<Value>)
      ensures Valid() && fresh(Repr) && Remaining() == xs
    {
      var src := new Source.Over(xs);
      var p := new Pipe([]);
      source := src;
      pipe := p;
      Repr := {this, src, p, p.actions};
      new;
      OutputsNone(xs);
    }

    /** `Stream(g)` over an existing iterator, with a fresh Pipe. */
    constructor Reading(src: Source)
      requires src.Valid()
      ensures Valid() && source == src && Repr == {this, pipe, pipe.actions} + src.Repr
      ensures fresh(pipe) && fresh(pipe.actions) && pipe.actions.fns == []
      ensures Remaining() == src.Remaining()
    {
      var p := new Pipe([]);
      source := src;
      pipe := p;
      Repr := {this, p, p.actions} + src.Repr;
      new;
      OutputsNone(src.Remaining());
    }

    /** `copy.copy(stream)`: the same source and the same Pipe. */
    constructor Copy(s: Stream)
      requires s.Valid()
      ensures source == s.source && pipe == s.pipe && Repr == {this} + s.Repr
      ensures Valid() && Remaining() == s.Remaining()
    {
      source := s.source;
      pipe := s.pipe;
      Repr := {this} + s.Repr;
    }

    /** One step of `__iter__`: the next source item through the Pipe. */
    method Next() returns (r: Option<Value>)
      requires Valid()
      modifies Repr
      ensures Valid()
      ensures Advanced(old(Remaining()), r, Remaining())
      ensures pipe.actions.fns == old(pipe.actions.fns)
      ensures source.UpItems() == ChunkerLeaves(source.n, old(source.ended), old(source.UpItems()))
      decreases Repr, 2
    {
      var x := source.Next();
      r := if x.Some? then Some(Applied(pipe.actions.fns, x.value)) else None;
    }

    /** `next(s)` as the chunker sees the Stream it reads: the one step,
        without what it does to the Stream's own source. */
    method Pull() returns (r: Option<Value>)
      requires Valid()
      modifies Repr
      ensures Valid()
      ensures Advanced(old(Remaining()), r, Remaining())
      decreases Repr, 3
    {
      r := Next();
    }

    /** `through(action)`: the copy shares the Pipe, whose list gets the
        action appended, so the receiver and every other holder of that
        Pipe now apply it too; the Pipe returned by the append is
        discarded. */
    method Through(f: Fn) returns (dup: Stream)
      requires Valid()
      modifies pipe.actions
      ensures Valid() && dup.Valid() && fresh(dup)
      ensures dup.source == source && dup.pipe == pipe
      ensures pipe.actions.fns == old(pipe.actions.fns) + [f]
      ensures Remaining() == Chunks.MapElems(f, old(Remaining()))
      ensures dup.Remaining() == Remaining()
    {
      dup := new Stream.Copy(this);
      var _ := dup.pipe.Through(f);
      OutputsThen(old(pipe.actions.fns), f, source.Remaining());
    }

    /** `chunk(n)`: a new Stream, with a fresh Pipe, reading the chunker
        over this one. */
    method Chunk(n: int) returns (r: Stream)
      requires Valid()
      ensures r.Valid() && fresh(r.Repr - Repr)
      ensures r.Remaining() == Lists(n, Remaining())
      ensures r.source.up == this && r.source.n == n
    {
      var g := new Source.Chunker(n, this);
      r := new Stream.Reading(g);
    }

    /** `take(n)`: at least one item, at most n (or 1 for n < 1), in
        order. */
    method Take(n: int) returns (acc: seq<Value>)
      requires Valid()
      modifies Repr
      ensures Valid()
      ensures acc == Flow.Take(n, old(Remaining()))
      ensures Remaining() == old(Remaining())[|acc|..]
      ensures pipe.actions.fns == old(pipe.actions.fns)
      ensures Suffix(source.UpItems(), old(source.UpItems()))
    {
      ghost var all := Remaining();
      acc := [];
      var cnt := 0;
      while true
        invariant Valid()
        invariant all == acc + Remaining()
        invariant cnt == |acc| < Quota(n)
        invariant pipe.actions.fns == old(pipe.actions.fns)
        invariant Suffix(source.UpItems(), old(source.UpItems()))
        decreases |Remaining()|
      {
        ghost var before := Remaining();
        ghost var ub := source.UpItems();
        var x := Next();
        SuffixTrans(source.UpItems(), ub, old(source.UpItems()));
        if x.None? {
          assert acc == all;
          return;
        }
        Flow.Pulled(all, acc, before, x.value, Remaining());
        acc := acc + [x.value];
        cnt := cnt + 1;
        if cnt >= n {
          Flow.TakeReached(n, all, acc, Remaining());
          return;
        }
      }
    }

    method Compile() returns (xs: seq<Value>)
      requires Valid()
      modifies Repr
      ensures Valid()
      ensures xs == old(Remaining()) && Remaining() == []
      ensures pipe.actions.fns == old(pipe.actions.fns)
      ensures Suffix(source.UpItems(), old(source.UpItems()))
    {
      xs := [];
      while true
        invariant Valid()
        invariant old(Remaining()) == xs + Remaining()
        invariant pipe.actions.fns == old(pipe.actions.fns)
        invariant Suffix(source.UpItems(), old(source.UpItems()))
        decreases |Remaining()|
      {
        ghost var before := Remaining();
        ghost var ub := source.UpItems();
        var x := Next();
        SuffixTrans(source.UpItems(), ub, old(source.UpItems()));
        if x.None? {
          assert xs == old(Remaining());
          return;
        }
        Flow.Pulled(old(Remaining()), xs, before, x.value, Remaining());
        xs := xs + [x.value];
      }
    }

    /** `drain()`: compiles and drops the result. */
    method Drain()
      requires Valid()
      modifies Repr
      ensures Valid() && Remaining() == []
      ensures pipe.actions.fns == old(pipe.actions.fns)
      ensures Suffix(source.UpItems(), old(source.UpItems()))
    {
      var _ := Compile();
    }
  }

  /** The legacy chunker reads the Stream itself: after `c = s.chunk(2)`
      on a Stream over 1, 2, 3, the first list pulled from `c` is
      `[1, 2]`, and `s` then goes on with 3. */
  method ChunkConsumes() returns (fromC: Option<Value>, fromS: Option<Value>)
    ensures fromC == Some(ListV([Item(1), Item(2)])) && fromS == Some(Item(3))
  {
    var xs := [Item(1), Item(2), Item(3)];
    var s := new Stream(xs);
    var c := s.Chunk(2);
    ChunkedFull(2, xs[..2], xs[2..]);
    assert xs[..2] + xs[2..] == xs;
    ListsAt(2, xs, 0);
    OutputsNone(Lists(2, xs));
    assert c.Remaining()[0] == ListV([Item(1), Item(2)]);
    fromC := c.Next();
    assert s.Remaining() == ChunkerLeaves(2, false, xs) == [Item(3)];
    fromS := s.Next();
  }
}
