/** `Proc` (src/proc.py): a source iterator and a legacy Pipe applied to
    each item as it is pulled. Its Pipe class is the same code as the one in
    src/stream.py, so the model reuses `LegacyStreams.Pipe`; like the legacy
    Stream, `through` copies shallowly and extends the shared Pipe. */
module Procs {
  import opened Values
  import Chunks
  import Flow
  import opened LegacyStreams

  class Proc {
    const source: Source
    const pipe: Pipe
    ghost const Repr: set<object>

    ghost predicate Valid()
      reads this, Repr
    {
      this in Repr && source in Repr && pipe in Repr && pipe.actions in Repr &&
      source.Repr <= Repr && this !in source.Repr &&
      pipe !in source.Repr && pipe.actions !in source.Repr &&
      source.Valid()
    }

    /** The Pipe's output for every item the source still holds. */
    ghost function Remaining(): seq<Value>
      reads this, Repr
      requires Valid()
    {
      Outputs(pipe.actions.fns, source.Remaining())
    }

    /** `Proc(source)` over an iterator, with a fresh Pipe. */
    constructor (src: Source)
      requires src.Valid()
      ensures Valid() && source == src && Repr == {this, pipe, pipe.actions} + src.Repr
      ensures fresh(pipe) && fresh(pipe.actions)
      ensures Remaining() == src.Remaining()
    {
      var p := new Pipe([]);
      source := src;
      pipe := p;
      Repr := {this, p, p.actions} + src.Repr;
      new;
      OutputsNone(src.Remaining());
    }

    /** `copy.copy(proc)`: the same source and the same Pipe. */
    constructor Copy(q: Proc)
      requires q.Valid()
      ensures source == q.source && pipe == q.pipe && Repr == {this} + q.Repr
      ensures Valid() && Remaining() == q.Remaining()
    {
      source := q.source;
      pipe := q.pipe;
      Repr := {this} + q.Repr;
    }

    /** `through(action)`: the copy shares the Pipe, whose list gets the
        action appended, so the original Proc applies it too. */
    method Through(f: Fn) returns (dup: Proc)
      requires Valid()
      modifies pipe.actions
      ensures Valid() && dup.Valid() && fresh(dup)
      ensures dup.source == source && dup.pipe == pipe
      ensures pipe.actions.fns == old(pipe.actions.fns) + [f]
      ensures Remaining() == Chunks.MapElems(f, old(Remaining()))
      ensures dup.Remaining() == Remaining()
    {
      dup := new Proc.Copy(this);
      var _ := dup.pipe.Through(f);
      OutputsThen(old(pipe.actions.fns), f, source.Remaining());
    }

    /** One step of `__iter__`: the next source item through the Pipe. */
    method Next() returns (r: Option<Value>)
      requires Valid()
      modifies Repr
      ensures Valid()
      ensures Flow.Advanced(old(Remaining()), r, Remaining())
      ensures pipe.actions.fns == old(pipe.actions.fns)
      ensures source.UpItems() == Flow.ChunkerLeaves(source.n, old(source.ended), old(source.UpItems()))
    {
      var x := source.Next();
      r := if x.Some? then Some(Applied(pipe.actions.fns, x.value)) else None;
    }

    /** `take(n)`: at most n outputs (one for n < 1), in order. */
    method Take(n: int) returns (acc: seq<Value>)
      requires Valid()
      modifies Repr
      ensures Valid()
      ensures acc == Flow.Take(n, old(Remaining()))
      ensures Remaining() == old(Remaining())[|acc|..]
      ensures pipe.actions.fns == old(pipe.actions.fns)
      ensures Flow.Suffix(source.UpItems(), old(source.UpItems()))
    {
      ghost var all := Remaining();
      acc := [];
      var cnt := 0;
      while true
        invariant Valid()
        invariant all == acc + Remaining()
        invariant cnt == |acc| < Flow.Quota(n)
        invariant pipe.actions.fns == old(pipe.actions.fns)
        invariant Flow.Suffix(source.UpItems(), old(source.UpItems()))
        decreases |Remaining()|
      {
        ghost var before := Remaining();
        ghost var ub := source.UpItems();
        var x := Next();
        Flow.SuffixTrans(source.UpItems(), ub, old(source.UpItems()));
        if x.None? {
          assert acc == all;
          return;
        }
        Flow.Pulled(all, acc, before, x.value, Remaining());
        acc := acc + [x.value];
        cnt := cnt + 1;
        if cnt >= n {
          Flow.TakeReached(n, all, acc, Remaining());
          return;
        }
      }
    }

    method Compile() returns (xs: seq<Value>)
      requires Valid()
      modifies Repr
      ensures Valid()
      ensures xs == old(Remaining()) && Remaining() == []
      ensures pipe.actions.fns == old(pipe.actions.fns)
      ensures Flow.Suffix(source.UpItems(), old(source.UpItems()))
    {
      xs := [];
      while true
        invariant Valid()
        invariant old(Remaining()) == xs + Remaining()
        invariant pipe.actions.fns == old(pipe.actions.fns)
        invariant Flow.Suffix(source.UpItems(), old(source.UpItems()))
        decreases |Remaining()|
      {
        ghost var before := Remaining();
        ghost var ub := source.UpItems();
        var x := Next();
        Flow.SuffixTrans(source.UpItems(), ub, old(source.UpItems()));
        if x.None? {
          assert xs == old(Remaining());
          return;
        }
        Flow.Pulled(old(Remaining()), xs, before, x.value, Remaining());
        xs := xs + [x.value];
      }
    }

    /** `drain()`: compiles and drops the result. */
    method Drain()
      requires Valid()
      modifies Repr
      ensures Valid() && Remaining() == []
      ensures pipe.actions.fns == old(pipe.actions.fns)
      ensures Flow.Suffix(source.UpItems(), old(source.UpItems()))
    {
      var _ := Compile();
    }
  }
}
