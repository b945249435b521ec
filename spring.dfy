/** `Spring` and `emit` (modules/spring.py): a Stream whose generator
    repeats a list of items forever. The generator's state is the index of
    the next item, wrapped to 0 when it reaches the end; on an empty list the
    first pull fails with `IndexError`, which also finishes the generator. */
module Springs {
  import opened Values
  import Flow

  /** What `emit(xs)` cycles: `list(xs)`, or `[None]` when no iterable is
      given. */
  function EmitItems(xs: Option<seq<Value>>): seq<Value>
  {
    match xs
    case None => [NoneV]
    case Some(s) => s
  }

  /** What `Spring(*args)` cycles: the items of a single iterable argument,
      `[None]` for no argument, and otherwise the arguments themselves. */
  function Pattern(args: seq<Value>): seq<Value>
  {
    if |args| == 1 && IsIterable(args[0]) then EmitItems(Some(args[0].elems))
    else if |args| == 0 then EmitItems(None)
    else EmitItems(Some(args))
  }

  /** The constructor's three cases. */
  lemma PatternCases(args: seq<Value>)
    ensures |args| == 1 && IsIterable(args[0]) ==> Pattern(args) == args[0].elems
    ensures args == [] ==> Pattern(args) == [NoneV]
    ensures |args| >= 2 || (|args| == 1 && !IsIterable(args[0])) ==> Pattern(args) == args
  {
  }

  /** A Spring has nothing to cycle exactly when it was given one empty
      iterable; that is the only Spring whose first pull fails. */
  lemma PatternEmpty(args: seq<Value>)
    ensures Pattern(args) == [] <==> |args| == 1 && IsIterable(args[0]) && args[0].elems == []
  {
  }

  /** `emit`'s index step: `i += 1`, then back to 0 on reaching n. */
  function Succ(j: nat, n: nat): (r: nat)
    requires j < n
    ensures r < n
  {
    if j + 1 >= n then 0 else j + 1
  }

  /** The index after k pulls from index s. */
  function Shift(s: nat, k: nat, n: nat): (r: nat)
    requires s < n
    ensures r < n
    decreases k
  {
    if k == 0 then s else Shift(Succ(s, n), k - 1, n)
  }

  /** The k items emitted from index s onwards. */
  function Cycle(p: seq<Value>, s: nat, k: nat): (r: seq<Value>)
    requires s < |p|
    ensures |r| == k
    decreases k
  {
    if k == 0 then [] else [p[s]] + Cycle(p, Succ(s, |p|), k - 1)
  }

  lemma ModAdd(x: nat, y: nat, l: nat)
    requires l > 0
    ensures (x % l + y) % l == (x + y) % l
  {
    var q := x / l;
    var q2 := (x % l + y) / l;
    var r := (x % l + y) % l;
    assert x == q * l + x % l;
    assert x % l + y == q2 * l + r;
    assert x + y == (q + q2) * l + r;
    Flow.DivModOf(x + y, l, q + q2, r);
  }

  /** The wrap-around step is adding one modulo n. */
  lemma SuccIsMod(j: nat, n: nat)
    requires j < n
    ensures Succ(j, n) == (j + 1) % n
  {
    if j + 1 >= n {
      Flow.DivModOf(j + 1, n, 1, 0);
    } else {
      Flow.DivModOf(j + 1, n, 0, j + 1);
    }
  }

  /** Between pulls the index is always the pull count, offset by the
      starting index, modulo n: it never leaves `0 <= i < n`. */
  lemma {:induction false} ShiftIsMod(s: nat, k: nat, n: nat)
    requires s < n
    ensures Shift(s, k, n) == (s + k) % n
    decreases k
  {
    if k == 0 {
      Flow.DivModOf(s, n, 0, s);
    } else {
      ShiftIsMod(Succ(s, n), k - 1, n);
      SuccIsMod(s, n);
      ModAdd(s + 1, k - 1, n);
    }
  }

  /** One more pull moves the index one step further. */
  lemma {:induction false} ShiftSucc(s: nat, k: nat, n: nat)
    requires s < n
    ensures Shift(s, k + 1, n) == Succ(Shift(s, k, n), n)
    decreases k
  {
    if k > 0 {
      ShiftSucc(Succ(s, n), k - 1, n);
    }
  }

  /** The j-th item emitted from index s is `items[(s + j) mod n]`. */
  lemma {:induction false} CycleAt(p: seq<Value>, s: nat, k: nat, j: nat)
    requires s < |p| && j < k
    ensures Cycle(p, s, k)[j] == p[(s + j) % |p|]
    decreases k
  {
    if j == 0 {
      Flow.DivModOf(s, |p|, 0, s);
    } else {
      CycleAt(p, Succ(s, |p|), k - 1, j - 1);
      SuccIsMod(s, |p|);
      ModAdd(s + 1, j - 1, |p|);
    }
  }

  /** Pulling a + b items is pulling a items and then b more from where
      those stopped. */
  lemma {:induction false} CycleSplit(p: seq<Value>, s: nat, a: nat, b: nat)
    requires s < |p|
    ensures Cycle(p, s, a + b) == Cycle(p, s, a) + Cycle(p, Shift(s, a, |p|), b)
    decreases a
  {
    if a > 0 {
      var t := Succ(s, |p|);
      CycleSplit(p, t, a - 1, b);
      assert Cycle(p, s, a + b) == [p[s]] + Cycle(p, t, a - 1 + b);
    }
  }

  /** From the start, the k-th pull returns `items[k mod n]`. */
  lemma CycleFromStart(p: seq<Value>, k: nat, j: nat)
    requires p != [] && j < k
    ensures Cycle(p, 0, k)[j] == p[j % |p|]
  {
    CycleAt(p, 0, k, j);
  }

  /** `Spring(1, 2, 3).take(7)` is `[1, 2, 3, 1, 2, 3, 1]`. */
  lemma TakeSevenOfThree()
    ensures Cycle([Item(1), Item(2), Item(3)], 0, Flow.Quota(7)) ==
            [Item(1), Item(2), Item(3), Item(1), Item(2), Item(3), Item(1)]
  {
    var p := [Item(1), Item(2), Item(3)];
    CycleSplit(p, 0, 3, 4);
    CycleSplit(p, 0, 3, 1);
  }

  /** `Spring(*args)`: the `emit` generator's state. */
  class Spring {
    const pattern: seq<Value>
    /** `i`: the index of the next item. */
    var i: nat
    /** The generator has raised and is finished. */
    var closed: bool

    ghost predicate Valid()
      reads this
    {
      (pattern != [] ==> i < |pattern| && !closed) && (pattern == [] ==> i == 0)
    }

    constructor (args: seq<Value>)
      ensures Valid() && pattern == Pattern(args) && i == 0 && !closed
    {
      pattern := Pattern(args);
      i := 0;
      closed := false;
    }

    /** `next(spring)`: `items[i]`, then the index moves on, back to 0 at the
        end. On an empty pattern the indexing raises `IndexError`; every
        later pull finds the generator finished (`StopIteration`). */
    method Next() returns (r: Result<Value>)
      requires Valid()
      modifies this
      ensures Valid()
      ensures pattern != [] ==> r == Ok(pattern[old(i)]) && i == Succ(old(i), |pattern|)
      ensures pattern == [] ==> closed && r == Err(if old(closed) then StopIteration else IndexError)
    {
      if closed {
        return Err(StopIteration);
      }
      if i >= |pattern| {
        closed := true;
        return Err(IndexError);
      }
      r := Ok(pattern[i]);
      i := i + 1;
      if i >= |pattern| {
        i := 0;
      }
    }

    /** The inherited `take(n)`: a Spring never runs dry, so it returns
        exactly n items (one for n < 1), continuing the cycle where the last
        pull stopped. On an empty pattern the `IndexError` escapes `take`;
        once the generator is finished `take` returns `[]`. */
    method Take(n: int) returns (r: Result<seq<Value>>)
      requires Valid()
      modifies this
      ensures Valid()
      ensures pattern != [] ==>
                r == Ok(Cycle(pattern, old(i), Flow.Quota(n))) &&
                i == Shift(old(i), Flow.Quota(n), |pattern|)
      ensures pattern == [] ==> closed && r == if old(closed) then Ok([]) else Err(IndexError)
    {
      var acc: seq<Value> := [];
      var cnt := 0;
      while true
        invariant Valid() && cnt < Flow.Quota(n)
        invariant pattern != [] ==> acc == Cycle(pattern, old(i), cnt) && i == Shift(old(i), cnt, |pattern|)
        invariant pattern == [] ==> acc == [] && cnt == 0 && closed == old(closed)
        decreases Flow.Quota(n) - cnt
      {
        var x := Next();
        if x.Err? {
          return if x.error == StopIteration then Ok(acc) else Err(x.error);
        }
        CycleSplit(pattern, old(i), cnt, 1);
        ShiftSucc(old(i), cnt, |pattern|);
        assert Cycle(pattern, Shift(old(i), cnt, |pattern|), 1) == [x.value];
        acc := acc + [x.value];
        cnt := cnt + 1;
        if cnt >= n {
          assert cnt == Flow.Quota(n);
          return Ok(acc);
        }
      }
    }
  }
}
