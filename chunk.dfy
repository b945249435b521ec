/** `Chunk`: an immutable, ordered batch of values (modules/chunk.py). A Chunk
    is a value, so no operation on it can change the receiver. */
module Chunks {
  import opened Values

  /** `Chunk(*args)`: the batch holding exactly `args`, in order. */
  function Of(args: seq<Value>): (c: Value)
    ensures c.ChunkV? && Len(c) == |args|
  {
    ChunkV(args)
  }

  /** The Chunk holds the arguments in order: `Chunk(*args)[i]` is
      `args[i]`, from the front and, negatively, from the back. */
  lemma OfIndex(args: seq<Value>, i: nat)
    requires i < |args|
    ensures Index(Of(args), i) == Ok(args[i])
    ensures Index(Of(args), i - |args|) == Ok(args[i])
  {
  }

  /** `len(c)`. */
  function Len(c: Value): nat
    requires c.ChunkV?
  {
    |c.elems|
  }

  /** `c[i]`: tuple indexing, negative positions counting from the end and
      anything else out of range raising `IndexError`. */
  function Index(c: Value, i: int): (r: Result<Value>)
    requires c.ChunkV?
    ensures r.Ok? <==> 0 <= Len(c) + i && i < Len(c)
    ensures 0 <= i < Len(c) ==> r == Ok(c.elems[i])
    ensures i < 0 && 0 <= Len(c) + i ==> r == Ok(c.elems[Len(c) + i])
  {
    if 0 <= i < |c.elems| then Ok(c.elems[i])
    else if -|c.elems| <= i < 0 then Ok(c.elems[|c.elems| + i])
    else Err(IndexError)
  }

  /** The element-wise image of a sequence under `f`, left to right, as
      `map(action, self)` produces it. */
  function MapElems(f: Fn, xs: seq<Value>): (r: seq<Value>)
    ensures |r| == |xs|
    ensures forall i :: 0 <= i < |xs| ==> r[i] == f(xs[i])
  {
    if xs == [] then [] else [f(xs[0])] + MapElems(f, xs[1..])
  }

  /** `c.map(f)`: a new Chunk of the same length whose i-th element is
      `f(c[i])`. */
  function Map(c: Value, f: Fn): (r: Value)
    requires c.ChunkV?
    ensures r.ChunkV? && Len(r) == Len(c)
    ensures forall i :: 0 <= i < Len(c) ==> Index(r, i) == Ok(f(c.elems[i]))
  {
    Of(MapElems(f, c.elems))
  }

  /** `c.flat_map(a)`: `a` receives the whole Chunk as one value. */
  function FlatMap<R>(c: Value, a: Value -> R): R
    requires c.ChunkV?
  {
    a(c)
  }

  /** The empty Chunk has length 0 and no valid index. */
  lemma EmptyChunk(i: int)
    ensures Len(Of([])) == 0 && Index(Of([]), i) == Err(IndexError)
  {
  }

  /** Mapping twice is mapping once with the composition. */
  lemma {:induction false} MapElemsCompose(f: Fn, g: Fn, xs: seq<Value>)
    ensures MapElems(g, MapElems(f, xs)) == MapElems(x => g(f(x)), xs)
  {
    if xs != [] {
      MapElemsCompose(f, g, xs[1..]);
      assert MapElems(f, xs)[1..] == MapElems(f, xs[1..]);
    }
  }

  /** `c.map(f).map(g)` equals `c.map(g . f)`. */
  lemma MapCompose(c: Value, f: Fn, g: Fn)
    requires c.ChunkV?
    ensures Map(Map(c, f), g) == Map(c, x => g(f(x)))
  {
    MapElemsCompose(f, g, c.elems);
  }

  /** Mapping the identity gives back an equal Chunk. */
  lemma {:induction false} MapIdentity(c: Value)
    requires c.ChunkV?
    ensures Map(c, Identity) == c
  {
    assert MapElems(Identity, c.elems) == c.elems;
  }

  /** `flat_map` over an action that maps its argument is `map`: the whole
      Chunk is handed to the action in one piece. */
  lemma FlatMapOfMap(c: Value, f: Fn)
    requires c.ChunkV?
    ensures FlatMap(c, (x: Value) => if x.ChunkV? then Map(x, f) else x) == Map(c, f)
  {
  }
}
