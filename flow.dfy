/** What the lazy operators of `Stream` (modules/stream.py) and `Riverbed`
    (modules/riverbed.py) yield, stated as functions of the items still to
    come from their source. The stateful engines are proved against these
    functions. */
module Flow {
  import opened Values
  import Chunks

  // ---------------------------------------------------------------------
  // through / through_map_on_chunk

  /** The element transform of `through_map_on_chunk(f)`: a Chunk is mapped
      element-wise, anything else is left as it is. */
  function OnChunk(f: Fn): Fn
  {
    (x: Value) => if x.ChunkV? then Chunks.Map(x, f) else x
  }

  /** `through_map_on_chunk(f)` over a whole sequence. */
  function MapOnChunks(f: Fn, s: seq<Value>): (r: seq<Value>)
    ensures |r| == |s|
    ensures forall i :: 0 <= i < |s| && s[i].ChunkV? ==> r[i] == Chunks.Map(s[i], f)
    ensures forall i :: 0 <= i < |s| && !s[i].ChunkV? ==> r[i] == s[i]
  {
    Chunks.MapElems(OnChunk(f), s)
  }

  /** Two `through` steps compose: `through(f).through(g)` yields `g(f(x))`
      for every item x, in order. */
  lemma ThroughTwice(f: Fn, g: Fn, s: seq<Value>)
    ensures Chunks.MapElems(g, Chunks.MapElems(f, s)) == Chunks.MapElems(x => g(f(x)), s)
  {
    Chunks.MapElemsCompose(f, g, s);
  }

  /** Dropping the first item commutes with an element-wise map; this is
      why one pull through a mapping view consumes exactly one source item. */
  lemma {:induction false} MapElemsTail(f: Fn, s: seq<Value>)
    requires s != []
    ensures Chunks.MapElems(f, s) == [f(s[0])] + Chunks.MapElems(f, s[1..])
  {
    var r := Chunks.MapElems(f, s);
    var t := [f(s[0])] + Chunks.MapElems(f, s[1..]);
    assert |r| == |t|;
    forall i | 0 <= i < |r| ensures r[i] == t[i] {
      if i > 0 {
        assert t[i] == Chunks.MapElems(f, s[1..])[i - 1];
      }
    }
  }

  // ---------------------------------------------------------------------
  // filter

  /** The items of `s` on which `c` returns a truthy value, in source
      order. */
  function Keep(c: Fn, s: seq<Value>): (r: seq<Value>)
    ensures |r| <= |s|
  {
    if s == [] then []
    else (if Truthy(c(s[0])) then [s[0]] else []) + Keep(c, s[1..])
  }

  /** Filtering looks at the first item, then filters the rest. */
  lemma KeepHead(c: Fn, x: Value, rest: seq<Value>)
    ensures Keep(c, [x] + rest) == (if Truthy(c(x)) then [x] else []) + Keep(c, rest)
  {
    assert ([x] + rest)[1..] == rest;
  }

  /** Keep holds exactly the items that satisfy the condition. */
  lemma {:induction false} KeepMembers(c: Fn, s: seq<Value>, v: Value)
    ensures v in Keep(c, s) <==> v in s && Truthy(c(v))
  {
    if s != [] {
      KeepMembers(c, s[1..], v);
      assert s == [s[0]] + s[1..];
    }
  }

  /** Keep works piece by piece: the items kept from `a + b` are those kept
      from `a`, followed by those kept from `b`. With KeepMembers this fixes
      both the contents and the order. */
  lemma {:induction false} KeepAppend(c: Fn, a: seq<Value>, b: seq<Value>)
    ensures Keep(c, a + b) == Keep(c, a) + Keep(c, b)
  {
    if a != [] {
      assert (a + b)[1..] == a[1..] + b;
      KeepAppend(c, a[1..], b);
    } else {
      assert a + b == b;
    }
  }

  /** A condition that holds everywhere keeps every item. */
  lemma {:induction false} KeepAll(c: Fn, s: seq<Value>)
    requires forall i :: 0 <= i < |s| ==> Truthy(c(s[i]))
    ensures Keep(c, s) == s
  {
    if s != [] {
      KeepAll(c, s[1..]);
    }
  }

  /** Filtering twice with the same condition is filtering once. */
  lemma {:induction false} KeepIdempotent(c: Fn, s: seq<Value>)
    ensures Keep(c, Keep(c, s)) == Keep(c, s)
  {
    if s != [] {
      var head := if Truthy(c(s[0])) then [s[0]] else [];
      KeepAppend(c, head, Keep(c, s[1..]));
      KeepIdempotent(c, s[1..]);
      if Truthy(c(s[0])) {
        assert Keep(c, head) == head by {
          assert head[1..] == [];
        }
      }
    }
  }

  // ---------------------------------------------------------------------
  // chunk

  /** How many items the chunker's batches and `take(n)` collect: both
      loops test `cnt >= n` only after appending, so any n below 1 behaves
      as 1. */
  function Quota(n: int): (w: nat)
    ensures n >= 1 ==> w == n
    ensures n < 1 ==> w == 1
  {
    if n < 1 then 1 else n
  }

  /** What `chunk(n)` yields from `s`: full Chunks of the batch width, then
      always one trailing Chunk with what is left, empty when the width
      divides |s|. */
  function Chunked(n: int, s: seq<Value>): (r: seq<Value>)
    ensures |r| >= 1
    decreases |s|
  {
    var w := Quota(n);
    if |s| < w then [Chunks.Of(s)]
    else [Chunks.Of(s[..w])] + Chunked(n, s[w..])
  }

  /** Everything the chunker yields is a Chunk. */
  lemma {:induction false} ChunkedAreChunks(n: int, s: seq<Value>, k: nat)
    requires k < |Chunked(n, s)|
    ensures Chunked(n, s)[k].ChunkV?
    decreases |s|
  {
    var w := Quota(n);
    if |s| >= w && k > 0 {
      ChunkedAreChunks(n, s[w..], k - 1);
    }
  }

  /** The concatenation of the contents of a sequence of Chunks. */
  function Flatten(cs: seq<Value>): seq<Value>
  {
    if cs == [] then [] else (if cs[0].ChunkV? then cs[0].elems else []) + Flatten(cs[1..])
  }

  /** Euclidean division is determined by any quotient/remainder pair. */
  lemma DivModOf(x: int, l: int, q: int, r: int)
    requires l > 0 && x == q * l + r && 0 <= r < l
    ensures x / l == q && x % l == r
  {
    var d := q - x / l;
    assert x == (x / l) * l + x % l;
    assert d * l == x % l - r;
    assert d == 0;
  }

  /** Past the first, the Chunks of `s` are those of `s` without its first
      batch. */
  lemma ChunkedTail(n: int, s: seq<Value>, k: nat)
    requires |s| >= Quota(n) && 0 < k <= |Chunked(n, s[Quota(n)..])|
    ensures |Chunked(n, s)| == |Chunked(n, s[Quota(n)..])| + 1
    ensures Chunked(n, s)[k] == Chunked(n, s[Quota(n)..])[k - 1]
  {
    var w := Quota(n);
    assert Chunked(n, s) == [Chunks.Of(s[..w])] + Chunked(n, s[w..]);
    assert ([Chunks.Of(s[..w])] + Chunked(n, s[w..]))[k] == Chunked(n, s[w..])[k - 1];
  }

  /** The sizes `chunk(n)` promises on L items, w the batch width:
      floor(L / w) full Chunks of width w, then one trailing Chunk of size
      L mod w. */
  lemma {:induction false} ChunkedSizes(n: int, s: seq<Value>)
    ensures |Chunked(n, s)| == |s| / Quota(n) + 1
    ensures forall k :: 0 <= k < |s| / Quota(n) ==>
              Chunked(n, s)[k].ChunkV? && Chunks.Len(Chunked(n, s)[k]) == Quota(n)
    ensures Chunked(n, s)[|s| / Quota(n)].ChunkV? &&
            Chunks.Len(Chunked(n, s)[|s| / Quota(n)]) == |s| % Quota(n)
    decreases |s|
  {
    var w := Quota(n);
    if |s| < w {
      DivModOf(|s|, w, 0, |s|);
    } else {
      var t := s[w..];
      ChunkedSizes(n, t);
      var a := |t| / w;
      assert |t| == a * w + |t| % w;
      assert (a + 1) * w == a * w + w;
      DivModOf(|s|, w, a + 1, |t| % w);
      ChunkedTail(n, s, 1);
      forall k | 0 < k <= a + 1
        ensures Chunked(n, s)[k] == Chunked(n, t)[k - 1]
      {
        ChunkedTail(n, s, k);
      }
    }
  }

  /** Concatenating all the Chunks reproduces the source, in order. */
  lemma {:induction false} ChunkedFlatten(n: int, s: seq<Value>)
    ensures Flatten(Chunked(n, s)) == s
    decreases |s|
  {
    var w := Quota(n);
    if |s| < w {
      assert Flatten(Chunked(n, s)) == s + Flatten([]);
    } else {
      var t := s[w..];
      ChunkedFlatten(n, t);
      var r := Chunked(n, s);
      assert r == [Chunks.Of(s[..w])] + Chunked(n, t);
      assert r[1..] == Chunked(n, t);
      assert Flatten(r) == s[..w] + Flatten(Chunked(n, t));
      assert s == s[..w] + t;
    }
  }

  /** One step of the chunker: a full batch at the front of the input
      becomes the first Chunk, the rest is chunked on its own. */
  lemma ChunkedFull(n: int, acc: seq<Value>, rest: seq<Value>)
    requires |acc| == Quota(n)
    ensures Chunked(n, acc + rest) == [Chunks.Of(acc)] + Chunked(n, rest)
  {
    assert (acc + rest)[..Quota(n)] == acc && (acc + rest)[Quota(n)..] == rest;
  }

  /** The last step of the chunker: fewer items than a batch make the one
      trailing Chunk. */
  lemma ChunkedShort(n: int, acc: seq<Value>)
    requires |acc| < Quota(n)
    ensures Chunked(n, acc) == [Chunks.Of(acc)]
  {
  }

  // ---------------------------------------------------------------------
  // fork

  /** The number of (condition, action) pairs in a flattened prong list. */
  function Pairs(prongs: seq<Fn>): nat
  {
    |prongs| / 2
  }

  /** The condition of the j-th pair fires on x. */
  predicate Fires(prongs: seq<Fn>, j: nat, x: Value)
    requires j < Pairs(prongs)
  {
    Truthy(prongs[2 * j](x))
  }

  /** The prong choice for one item, scanning the flattened list from
      position i in steps of two: a lone last entry is an unconditional
      else; a pair whose condition fires supplies the action. */
  function Pick(prongs: seq<Fn>, i: nat, x: Value): Value
    decreases |prongs| - i
  {
    if i >= |prongs| then x
    else if i == |prongs| - 1 then prongs[i](x)
    else if Truthy(prongs[i](x)) then prongs[i + 1](x)
    else Pick(prongs, i + 2, x)
  }

  /** What `fork(cond1, act1, ..., [else])` yields for one item. */
  function ForkOne(prongs: seq<Fn>, x: Value): Value
  {
    Pick(prongs, 0, x)
  }

  /** What `fork` yields for a whole sequence: one output per input. */
  function ForkAll(prongs: seq<Fn>, s: seq<Value>): (r: seq<Value>)
    ensures |r| == |s|
    ensures forall i :: 0 <= i < |s| ==> r[i] == ForkOne(prongs, s[i])
  {
    Chunks.MapElems(x => ForkOne(prongs, x), s)
  }

  lemma {:induction false} PickFirstMatch(prongs: seq<Fn>, j: nat, k: nat, x: Value)
    requires j <= k < Pairs(prongs) && Fires(prongs, k, x)
    requires forall m :: j <= m < k ==> !Fires(prongs, m, x)
    ensures Pick(prongs, 2 * j, x) == prongs[2 * k + 1](x)
    decreases k - j
  {
    if j < k {
      assert !Fires(prongs, j, x);
      PickFirstMatch(prongs, j + 1, k, x);
    }
  }

  /** The first pair whose condition fires supplies the output. */
  lemma ForkFirstMatch(prongs: seq<Fn>, k: nat, x: Value)
    requires k < Pairs(prongs) && Fires(prongs, k, x)
    requires forall m :: 0 <= m < k ==> !Fires(prongs, m, x)
    ensures ForkOne(prongs, x) == prongs[2 * k + 1](x)
  {
    PickFirstMatch(prongs, 0, k, x);
  }

  lemma {:induction false} PickNoMatch(prongs: seq<Fn>, j: nat, x: Value)
    requires 2 * j <= |prongs|
    requires forall m :: j <= m < Pairs(prongs) ==> !Fires(prongs, m, x)
    ensures Pick(prongs, 2 * j, x) ==
            if |prongs| % 2 == 1 then prongs[|prongs| - 1](x) else x
    decreases |prongs| - 2 * j
  {
    if 2 * j < |prongs| - 1 {
      assert !Fires(prongs, j, x);
      PickNoMatch(prongs, j + 1, x);
    }
  }

  /** When no condition fires, an odd-length list applies its last entry as
      the else action, and an even-length list passes the item unchanged. */
  lemma ForkNoMatch(prongs: seq<Fn>, x: Value)
    requires forall m :: 0 <= m < Pairs(prongs) ==> !Fires(prongs, m, x)
    ensures ForkOne(prongs, x) ==
            if |prongs| % 2 == 1 then prongs[|prongs| - 1](x) else x
  {
    PickNoMatch(prongs, 0, x);
  }

  /** The prong loop of `__forker` for one item: walk the flattened list two
      entries at a time, treat a lone last entry as `lambda x: True` paired
      with it, and stop at the first condition that holds; if none does, the
      item passes unchanged. */
  method SelectProng(prongs: seq<Fn>, item: Value) returns (out: Value)
    ensures out == ForkOne(prongs, item)
  {
    var yielded := false;
    out := item;
    var i := 0;
    while i < |prongs|
      invariant 0 <= i <= |prongs| && i % 2 == 0
      invariant Pick(prongs, i, item) == ForkOne(prongs, item)
    {
      var condition: Fn, action: Fn;
      if i == |prongs| - 1 {
        condition := _ => Item(1);
        action := prongs[i];
      } else {
        condition := prongs[i];
        action := prongs[i + 1];
      }
      if Truthy(condition(item)) {
        out := action(item);
        yielded := true;
        break;
      }
      i := i + 2;
    }
    if !yielded {
      out := item;
    }
  }

  // ---------------------------------------------------------------------
  // take, construction

  /** What `take(n)` returns from the items still to come. */
  function Take(n: int, s: seq<Value>): (r: seq<Value>)
    ensures |r| == if Quota(n) <= |s| then Quota(n) else |s|
    ensures r <= s
  {
    if Quota(n) <= |s| then s[..Quota(n)] else s
  }

  /** One pull: `r` is the first of the items `before` (`None`, for
      `StopIteration`, when there are none) and `after` is what is left. */
  predicate Advanced(before: seq<Value>, r: Option<Value>, after: seq<Value>)
  {
    if before == [] then r == None && after == []
    else r == Some(before[0]) && after == before[1..]
  }

  /** What is left of `s` once its first k items, or all of them if there
      are fewer, have been consumed. */
  function Drop(s: seq<Value>, k: nat): (r: seq<Value>)
    ensures Suffix(r, s) && |r| == if k <= |s| then |s| - k else 0
  {
    if k <= |s| then s[k..] else []
  }

  /** What one pull of a chunker (of either engine's `chunk(n)`) leaves of
      its upstream's items: a finished chunker pulls nothing; otherwise a
      full batch is consumed, or everything when fewer items remain. */
  function ChunkerLeaves(n: int, ended: bool, before: seq<Value>): (r: seq<Value>)
    ensures Suffix(r, before)
    ensures !ended && |before| >= Quota(n) ==> |r| == |before| - Quota(n)
    ensures !ended && |before| < Quota(n) ==> r == []
  {
    if ended then before else Drop(before, Quota(n))
  }

  /** `after` is what is left of `before` once some first items have been
      consumed. */
  predicate Suffix(after: seq<Value>, before: seq<Value>)
  {
    |after| <= |before| && after == before[|before| - |after|..]
  }

  /** Consuming in two rounds leaves a suffix of what was there at first. */
  lemma SuffixTrans(a: seq<Value>, b: seq<Value>, c: seq<Value>)
    requires Suffix(a, b) && Suffix(b, c)
    ensures Suffix(a, c)
  {
    assert c[|c| - |b|..][|b| - |a|..] == c[|c| - |a|..];
  }

  /** A pull from what is left of `all` leaves a suffix of `all`. */
  lemma PulledSuffix(all: seq<Value>, before: seq<Value>, r: Option<Value>, after: seq<Value>)
    requires Suffix(before, all) && Advanced(before, r, after)
    ensures Suffix(after, all)
  {
    if before != [] {
      SuffixTrans(after, before, all);
    }
  }

  /** A pull leaves the items after the first one. */
  lemma AdvancedDrops(before: seq<Value>, r: Option<Value>, after: seq<Value>)
    requires Advanced(before, r, after)
    ensures after == Drop(before, 1)
  {
  }

  /** Where a filter's pull loop stands: having pulled `r` from `all`,
      with `rest` still to come, `Keep` would still give from `all` what it
      gives from `r` followed by `rest`. */
  predicate KeptSoFar(c: Fn, all: seq<Value>, r: Option<Value>, rest: seq<Value>)
  {
    match r
    case None => rest == [] && Keep(c, all) == []
    case Some(x) => Keep(c, all) == Keep(c, [x] + rest)
  }

  /** The first pull of a filter loses nothing `Keep` would give. */
  lemma KeptStart(c: Fn, all: seq<Value>, r: Option<Value>, after: seq<Value>)
    requires Advanced(all, r, after)
    ensures KeptSoFar(c, all, r, after) && Suffix(after, all)
  {
    if r.Some? {
      assert all == [r.value] + after;
    }
  }

  /** Skipping an item that fails the condition and pulling the next one
      loses nothing `Keep` would give. */
  lemma KeptStep(c: Fn, all: seq<Value>, x: Value, before: seq<Value>, r: Option<Value>, after: seq<Value>)
    requires KeptSoFar(c, all, Some(x), before) && !Truthy(c(x))
    requires Suffix(before, all) && Advanced(before, r, after)
    ensures KeptSoFar(c, all, r, after) && Suffix(after, all)
  {
    KeepHead(c, x, before);
    PulledSuffix(all, before, r, after);
    if r.Some? {
      assert before == [r.value] + after;
    }
  }

  /** An item that passes the condition is the next one `Keep` gives. */
  lemma KeptFound(c: Fn, all: seq<Value>, x: Value, rest: seq<Value>)
    requires KeptSoFar(c, all, Some(x), rest) && Truthy(c(x))
    ensures Advanced(Keep(c, all), Some(x), Keep(c, rest))
  {
    KeepHead(c, x, rest);
    assert ([x] + Keep(c, rest))[1..] == Keep(c, rest);
  }

  /** One pull moves the first item still to come to the end of what was
      collected. */
  lemma Pulled(all: seq<Value>, acc: seq<Value>, before: seq<Value>, x: Value, after: seq<Value>)
    requires all == acc + before && before != [] && x == before[0] && after == before[1..]
    ensures all == (acc + [x]) + after
  {
    assert before == [x] + after;
  }

  /** `take` stops on reaching its count: what it collected is the answer
      and the rest is left for later. */
  lemma TakeReached(n: int, all: seq<Value>, acc: seq<Value>, rest: seq<Value>)
    requires all == acc + rest && |acc| == Quota(n)
    ensures Take(n, all) == acc && rest == all[|acc|..]
  {
    assert all[..|acc|] == acc;
  }

  /** A second `take` continues exactly where the first stopped. */
  lemma TakeTwice(n: int, m: int, s: seq<Value>)
    ensures Take(n, s) + Take(m, s[|Take(n, s)|..]) ==
            Take(Quota(n) + Quota(m), s)
  {
    var a := Take(n, s);
    var b := Take(m, s[|a|..]);
    assert a + b <= s;
  }

  /** The constructor's choice: one iterable argument contributes its items;
      any other argument list contributes the arguments themselves. */
  function Normalise(args: seq<Value>): seq<Value>
  {
    if |args| == 1 && IsIterable(args[0]) then args[0].elems else args
  }
}
