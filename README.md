# PyStream, modelled in Dafny

PyStream is a small Python library for lazy data pipelines. It has these parts:

- **Stream.** Wraps a generator. Operators (`through`, `through_map_on_chunk`,
  `filter`, `chunk`, `fork`, `+`) each return a new Stream. That new Stream's
  generator pulls from the old one on demand. `take`, `to_list` and `drain`
  consume items.
- **Riverbed.** The asynchronous version. It has `through`, `filter`, `fork`,
  `take`, and `dam` and `meter` instead of chunking.
- **Chunk.** A tuple with `map` and `flat_map`.
- **Pipe.** Records operator calls. When called with arguments, it replays them
  on a fresh Stream, or on a Riverbed with `asynchronous=True`. An operator the
  engine lacks fails with `AttributeError`.
- **Spring.** A Stream that cycles a list of items forever.
- **Legacy classes.** An older `Pipe` (a list of actions applied in turn) with
  its `Stream`, and `Proc`.

This model has two layers.

- **Pure layer.** Each operator's meaning is a function on sequences of values:
  - `Chunks`: the Chunk;
  - `Flow`: through, filter, chunk, fork, take;
  - `Pipes`: a Pipe as the list of its recorded stages, and its replay.

  Lemmas prove what the library promises about each one.
- **Imperative layer.** A Stream, Riverbed, Spring, legacy Stream and Proc are
  each a class. Every object holds a ghost `Remaining()`: the items it will
  still yield. Each pull method is proved to yield the head of `Remaining()` and
  leave the tail. It is also proved to consume the upstream objects' items, since
  a derived object pulls from its upstream itself. Each operator is proved to build an object whose `Remaining()`
  is the pure layer's function of the receiver's. `take`, `to_list`, `compile`
  and `drain` are loops proved against those functions.

Python values are modelled by `Values.Value`. It has four cases: `None`, an
integer item, a Chunk, or a list. Callables are Dafny functions on values.

## Model

| member | source | states |
|---|---|---|
| Chunks.Of | modules/chunk.py:9-10 | `Chunk(*args)` is a Chunk whose `len` (`Chunks.Len`) is the number of arguments |
| Chunks.OfIndex | modules/chunk.py:9-10 | the i-th element of `Chunk(*args)` is the i-th argument; it is also at position i - len |
| Chunks.Index | modules/chunk.py:4 | tuple indexing succeeds exactly when -len <= i < len; non-negative i gives element i, negative i gives element len + i; otherwise `IndexError` |
| Chunks.MapElems | modules/chunk.py:18-24 | the image has the same length, and element i is f of element i |
| Chunks.Map | modules/chunk.py:18-24 | `c.map(f)` is a Chunk of the same length whose i-th element is f of the i-th |
| Chunks.EmptyChunk | modules/chunk.py:9-10 | the empty Chunk has length 0, and every index raises `IndexError` |
| Chunks.MapElemsCompose | modules/chunk.py:18-24 | mapping g after f is mapping their composition |
| Chunks.MapCompose | modules/chunk.py:18-24 | `c.map(f).map(g) == c.map(g . f)` |
| Chunks.MapIdentity | modules/chunk.py:18-24 | mapping the identity gives an equal Chunk |
| Chunks.FlatMapOfMap | modules/chunk.py:15-24 | `flat_map` (`Chunks.FlatMap`, which hands the whole Chunk to the action) with an action that maps its argument equals `map` |
| Flow.MapOnChunks | modules/stream.py:44-54 | `through_map_on_chunk(f)` keeps the length; a Chunk item becomes its `map(f)`; any other item passes unchanged |
| Flow.ThroughTwice | modules/stream.py:34-42 | `through(f).through(g)` yields `g(f(x))` for every item |
| Flow.Keep | modules/stream.py:56-62 | filtering never yields more items than it reads |
| Flow.KeepMembers | modules/stream.py:56-62 | a value is yielded exactly when it occurs in the input and the condition is truthy on it |
| Flow.KeepAppend | modules/stream.py:56-62 | filtering a concatenation filters each part |
| Flow.KeepAll | modules/stream.py:56-62 | a condition that holds on every item keeps the stream unchanged |
| Flow.KeepIdempotent | modules/stream.py:56-62 | filtering twice with one condition is filtering once |
| Flow.Chunked | modules/stream.py:64-88 | `chunk(n)` yields at least one Chunk, even from an empty stream |
| Flow.ChunkedAreChunks | modules/stream.py:64-80 | every item `chunk(n)` yields is a Chunk |
| Flow.ChunkedSizes | modules/stream.py:64-88 | from L items with width w come L/w full Chunks of w items, then one Chunk of the L mod w left over (possibly empty) |
| Flow.ChunkedFlatten | modules/stream.py:64-80 | concatenating the Chunks gives back the input, in order |
| Flow.ForkAll | modules/stream.py:90-142 | `fork` yields one output per input item, computed from that item alone |
| Flow.PickFirstMatch | modules/stream.py:108-125 | `Flow.Pick` is the prong loop from pair i on; scanning from any pair before the first firing pair, the first firing pair's action supplies the output |
| Flow.ForkFirstMatch | modules/stream.py:104-125 | for one item (`Flow.ForkOne`), the first (condition, action) pair whose condition is truthy supplies the output, as in if/elif |
| Flow.PickNoMatch | modules/stream.py:108-128 | when no later condition fires, the scan ends with the else action or the unchanged item |
| Flow.ForkNoMatch | modules/stream.py:108-128 | when no condition fires, an odd-length prong list applies its last entry as the else action; an even-length list yields the item unchanged |
| Flow.SelectProng | modules/stream.py:104-128 | the prong loop's output for an item is the if/elif/else choice |
| Flow.ChunkerLeaves | modules/stream.py:64-80 | one pull of a chunker consumes only items from the front of its upstream: a full batch when that many remain, otherwise all of them |
| Flow.Quota | modules/stream.py:144-158 | `take(n)` (and the chunker's batch, modules/stream.py:64-80) collects n items when n >= 1 and one item otherwise, because the loop tests `cnt >= n` only after an append |
| Flow.Take | modules/stream.py:144-158 | `take(n)` returns a prefix of the stream of length min(count, available) |
| Flow.TakeReached | modules/stream.py:144-158 | once the count is reached, the items collected are `take`'s answer and the rest stay in the stream |
| Flow.TakeTwice | modules/stream.py:144-158 | a second `take` continues exactly where the first stopped |
| Pipes.Pipe.Then | modules/pipe.py:21-95 | each builder (`Pipes.Pipe.Through`, `ThroughMapOnChunk`, `Filter`, `Chunk`, `Fork`, `Dam` and `Meter` are each `Then` of their stage) appends one stage to a copy and leaves the receiver's stages as the prefix; replaying the new Pipe replays the old one, then the new stage |
| Pipes.RunThen | modules/pipe.py:21-29 | a Pipe with one stage appended replays the original, then continues with that stage |
| Pipes.EmptyIsIdentity | modules/pipe.py:13-19 | `Pipes.Call`, the predicted outcome of calling a Pipe, on an empty Pipe yields the Stream or Riverbed that its constructor builds from the arguments |
| Pipes.ThroughThenThrough | modules/pipe.py:21-29 | `Pipe().through(f).through(g)` maps every item to `g(f(x))` on either engine |
| Pipes.PrefixAgree | modules/pipe.py:16-19 | two Pipes with the same first k stages replay those stages alike |
| Pipes.FailureSticks | modules/pipe.py:16-19 | after a stage fails, later stages cannot rescue the replay; the error is kept |
| Pipes.ReplayStep | modules/pipe.py:16-19 | a replay that has succeeded so far continues with the next stage's outcome; if that stage fails, the whole replay fails with its error |
| Pipes.StepOk | modules/pipe.py:16-19 | one stage (`Pipes.Step`) succeeds exactly when the engine provides that operator, including inside nested Pipes |
| Pipes.RunPrefixOk | modules/pipe.py:16-19 | replaying k stages succeeds exactly when all k fit the engine |
| Pipes.RunOk | modules/pipe.py:16-19 | replaying a whole Pipe (`Pipes.Run`) fails exactly when some stage, at any nesting depth, is an operator the chosen engine lacks |
| Pipes.AsyncOnlyFailsSync | modules/pipe.py:77-95 | a Pipe containing `dam` or `meter` fails when called synchronously |
| Pipes.SyncOnlyFailsAsync | modules/pipe.py:31-59 | a Pipe containing `chunk` or `through_map_on_chunk` fails when called with `asynchronous=True` |
| PipeCalls.Call | modules/pipe.py:16-19 | the call builds a Riverbed exactly when `asynchronous` is set; it fails exactly when the replay predicts an error, with that error; otherwise the flow yields the predicted items |
| Streams.Stream.constructor | modules/stream.py:15-19 | the items are `Flow.Normalise(args)`: a single iterable argument contributes its items; otherwise the arguments themselves are the items |
| Streams.Stream.Concat | modules/stream.py:28-29 | `a + b` yields a's items, then b's; it pulls from a and b themselves |
| Streams.Stream.Next | modules/stream.py:21-22 | `next` yields the first item still to come and leaves the rest; `None` exactly when nothing is left. The upstreams lose what the pull consumed (`Consumed`, `UpstreamAfter`): one item under `through`, `through_map_on_chunk`, `fork` and a view; the skipped items and the kept one under `filter`; a batch under `chunk`; for `a + b`, one item of a while a has one, then one of b |
| Streams.Stream.NextSource | modules/stream.py:15-22 | a base Stream yields its items in order |
| Streams.Stream.NextMapped | modules/stream.py:34-42 | a `through` Stream yields f of its upstream's next item |
| Streams.Stream.NextOnChunks | modules/stream.py:44-54 | a `through_map_on_chunk` Stream maps Chunks and passes other items through |
| Streams.Stream.NextForked | modules/stream.py:90-128 | a `fork` Stream yields the prong choice for its upstream's next item |
| Streams.Stream.NextChained | modules/stream.py:28-29 | a sum Stream yields from its left operand until that runs out, then from its right |
| Streams.Stream.NextFiltered | modules/stream.py:56-62 | a `filter` Stream yields its upstream's next kept item |
| Streams.Stream.NextKept | modules/stream.py:56-62 | skips items the condition rejects, yields the first kept one, and leaves exactly the kept items of the rest |
| Streams.Stream.NextChunk | modules/stream.py:64-80 | a `chunk` Stream yields the next batch of its upstream |
| Streams.Stream.Take | modules/stream.py:144-158 | returns `take(n)` of the items still to come; those items are consumed and the rest remain; every upstream keeps only a suffix of what it had |
| Streams.Stream.ToList | modules/stream.py:160-165 | returns every remaining item in order and exhausts the Stream; every upstream keeps only a suffix of what it had |
| Streams.Stream.Drain | modules/stream.py:167-173 | exhausts the Stream; every upstream keeps only a suffix of what it had |
| Streams.SharedCursor | modules/stream.py:56-62 | after `b = a.filter(lambda x: 1)` on `Stream(1, 2, 3)`, `next(b)` is 1 and then `next(a)` is 2: a derived Stream consumes its upstream's items |
| Streams.Stream.Through | modules/stream.py:34-42 | a callable maps every item, through a new Stream that pulls from this one; a Pipe action replays that Pipe on this Stream; a failure is reported as the replay's error |
| Streams.Stream.ThroughMapOnChunk | modules/stream.py:44-54 | the new Stream yields `through_map_on_chunk` of this Stream's items; for a callable it pulls from this Stream itself |
| Streams.Stream.Filter | modules/stream.py:56-62 | the new Stream yields exactly the kept items, in order, and pulls from this Stream itself |
| Streams.Stream.Chunk | modules/stream.py:82-88 | the new Stream yields the Chunks of this Stream's items, and pulls from this Stream itself |
| Streams.Stream.Fork | modules/stream.py:130-142 | the new Stream yields the prong choice for each item of `[condition, action, *args]`, and pulls from this Stream itself |
| Streams.Stream.ForkProngs | modules/stream.py:90-128 | the forked Stream over a flattened prong list yields one choice per item, and pulls from this Stream itself |
| Streams.Stream.Plus | modules/stream.py:28-29 | the sum yields this Stream's items followed by the other's, and pulls from both operands themselves |
| Streams.Stream.Apply | modules/pipe.py:21-95 | applying one recorded stage to a Stream yields what that stage predicts for the Stream's items, or its error |
| Streams.Stream.Replay | modules/stream.py:31-32 | `flat_map(pipe)` replays every stage in order; it fails exactly as the replay predicts |
| Riverbeds.Riverbed.constructor | modules/riverbed.py:16-24 | a single iterable argument contributes its items; otherwise the arguments themselves are the items |
| Riverbeds.Riverbed.Next | modules/riverbed.py:26-30 | `__anext__` yields the first item still to come and leaves the rest; the upstream loses exactly one item, except under `filter`, where it keeps a suffix of what it had |
| Riverbeds.Riverbed.NextSource | modules/riverbed.py:16-30 | a base Riverbed yields its items in order |
| Riverbeds.Riverbed.NextMapped | modules/riverbed.py:38-46 | a `through` or `dam` Riverbed yields f of its upstream's next item |
| Riverbeds.Riverbed.NextFiltered | modules/riverbed.py:48-54 | a `filter` Riverbed yields its upstream's next kept item |
| Riverbeds.Riverbed.NextKept | modules/riverbed.py:48-54 | skips rejected items, yields the first kept one, and leaves exactly the kept items of the rest |
| Riverbeds.Riverbed.NextForked | modules/riverbed.py:56-90 | a `fork` Riverbed yields the prong choice for its upstream's next item |
| Riverbeds.Riverbed.Take | modules/riverbed.py:122-136 | returns `take(n)` of the items still to come, consuming exactly those; the upstream keeps only a suffix of what it had |
| Riverbeds.Riverbed.Through | modules/riverbed.py:38-46 | a callable maps every item, through a new Riverbed that pulls from this one; a Pipe action replays that Pipe asynchronously; a failure is reported as the replay's error |
| Riverbeds.Riverbed.Filter | modules/riverbed.py:48-54 | the new Riverbed yields exactly the kept items, in order, and pulls from this Riverbed itself |
| Riverbeds.Riverbed.Fork | modules/riverbed.py:92-104 | the new Riverbed yields the prong choice for each item, and pulls from this Riverbed itself |
| Riverbeds.Riverbed.ForkProngs | modules/riverbed.py:56-90 | the forked Riverbed over a flattened prong list yields one choice per item, and pulls from this Riverbed itself |
| Riverbeds.Riverbed.Dam | modules/riverbed.py:106-112 | the new Riverbed yields d of each item, and pulls from this Riverbed itself |
| Riverbeds.Riverbed.Meter | modules/riverbed.py:114-120 | the new Riverbed yields the same items, and pulls from this Riverbed itself |
| Riverbeds.Riverbed.Apply | modules/pipe.py:21-95 | applying one recorded stage to a Riverbed yields what that stage predicts, or its error |
| Riverbeds.Riverbed.Replay | modules/riverbed.py:35-36 | `flat_map(pipe)` replays every stage in order; it fails exactly as the replay predicts |
| Springs.PatternCases | modules/spring.py:26-34 | the cycled pattern (`Springs.Pattern`, built with `Springs.EmitItems`): a single iterable argument is cycled item by item; no argument cycles `[None]`; anything else cycles the arguments |
| Springs.PatternEmpty | modules/spring.py:26-34 | there is nothing to cycle exactly when the only argument is an empty iterable |
| Springs.Succ | modules/spring.py:18-23 | the index stays below the pattern length |
| Springs.Shift | modules/spring.py:18-23 | after any number of pulls the index stays below the pattern length |
| Springs.Cycle | modules/spring.py:18-23 | k pulls yield k items |
| Springs.SuccIsMod | modules/spring.py:18-23 | the wrap-around step is adding one modulo the length |
| Springs.ShiftIsMod | modules/spring.py:18-23 | after k pulls from index s the index is (s + k) mod n |
| Springs.ShiftSucc | modules/spring.py:18-23 | one more pull moves the index one more step |
| Springs.CycleAt | modules/spring.py:18-23 | the j-th item emitted from index s is `items[(s + j) mod n]` |
| Springs.CycleSplit | modules/spring.py:18-23 | pulling a + b items is pulling a, then b more from where those stopped |
| Springs.CycleFromStart | modules/spring.py:18-23 | from the start, the j-th pull returns `items[j mod n]` |
| Springs.TakeSevenOfThree | modules/spring.py:18-23 | `Spring(1, 2, 3).take(7)` is `[1, 2, 3, 1, 2, 3, 1]` |
| Springs.Spring.constructor | modules/spring.py:26-34 | the Spring starts at index 0 on the pattern its arguments select |
| Springs.Spring.Next | modules/spring.py:5-23 | yields `items[i]` and advances the index, wrapping at the end; an empty pattern raises `IndexError` once, then `StopIteration` |
| Springs.Spring.Take | modules/stream.py:144-158 | a Spring never runs dry: `take(n)` yields exactly the count and continues the cycle; on an empty pattern the `IndexError` escapes, and afterwards `take` returns `[]` |
| LegacyStreams.AppliedAppend | src/stream.py:23-27 | applying a list of actions, then more actions, is applying the concatenation |
| LegacyStreams.AppliedInOrder | src/stream.py:23-27 | for `LegacyStreams.Applied`, the actions applied in turn: no actions is the identity; `[f, g]` computes `g(f(x))` |
| LegacyStreams.Outputs | src/stream.py:45-47 | one output per source item |
| LegacyStreams.OutputsAt | src/stream.py:45-47 | the i-th output is the Pipe applied to the i-th source item |
| LegacyStreams.OutputsNone | src/stream.py:40-47 | a fresh Stream yields its source items unchanged |
| LegacyStreams.OutputsThen | src/stream.py:49-57 | appending an action maps every output through it |
| LegacyStreams.Lists | src/stream.py:59-83 | the legacy chunker yields as many lists as the current chunker yields Chunks |
| LegacyStreams.ListsAt | src/stream.py:59-75 | the k-th list holds the same items as the k-th Chunk |
| LegacyStreams.ListsSizes | src/stream.py:59-83 | L/w full lists of w items, then one list of the L mod w left over |
| LegacyStreams.ActionList.constructor | src/stream.py:19-21 | the action list holds the given actions |
| LegacyStreams.Pipe.constructor | src/stream.py:19-21 | a new Pipe owns a fresh action list holding the given actions |
| LegacyStreams.Pipe.Copy | src/stream.py:29-32 | `copy.copy` shares the action list |
| LegacyStreams.Pipe.Through | src/stream.py:29-32 | the copy shares the list, and the action is appended to it |
| LegacyStreams.Pipe.Call | src/stream.py:23-35 | one argument is passed through every action in order; any other number raises `TypeError` at the leading identity |
| LegacyStreams.Source.Over | src/stream.py:40-43 | an iterator over the given items |
| LegacyStreams.Source.Chunker | src/stream.py:59-83 | the chunker's generator yields the lists of the Stream's outputs, and reads that Stream itself |
| LegacyStreams.Source.Next | src/stream.py:45-47 | a pull yields the first item still to come and leaves the rest; a chunker's Stream loses what `ChunkerLeaves` says: a batch, or nothing once finished |
| LegacyStreams.Source.NextList | src/stream.py:59-75 | the chunker yields the next list of its upstream; the upstream Stream stays valid and loses exactly one batch of outputs (all of them when fewer remain), or nothing once the chunker has finished |
| LegacyStreams.Stream.constructor | src/stream.py:40-43 | a Stream over given items yields them unchanged |
| LegacyStreams.Stream.Reading | src/stream.py:40-43 | a Stream over an iterator starts with the identity Pipe and yields the iterator's items |
| LegacyStreams.Stream.Copy | src/stream.py:55-57 | the shallow copy shares the source and the Pipe |
| LegacyStreams.Stream.Next | src/stream.py:45-47 | yields the Pipe's output for the next source item; the Pipe's actions are unchanged, and a chunker source's Stream loses one batch |
| LegacyStreams.Stream.Through | src/stream.py:49-57 | the copy shares the Pipe, whose list gains the action, so both Streams now map every output through it |
| LegacyStreams.Stream.Chunk | src/stream.py:77-83 | the new Stream yields the lists of this Stream's outputs, through a chunker that reads this Stream itself |
| LegacyStreams.Stream.Take | src/stream.py:85-99 | returns `take(n)` of the outputs still to come, consuming exactly those; the Pipe's actions are unchanged, and a chunker source's Stream keeps a suffix of what it had |
| LegacyStreams.Stream.Compile | src/stream.py:101-106 | returns every remaining output in order and exhausts the Stream; the Pipe's actions are unchanged, and a chunker source's Stream keeps a suffix of what it had |
| LegacyStreams.Stream.Drain | src/stream.py:108-113 | exhausts the Stream; the Pipe's actions are unchanged, and a chunker source's Stream keeps a suffix of what it had |
| LegacyStreams.ChunkConsumes | src/stream.py:59-83 | after `c = s.chunk(2)` on a Stream over 1, 2, 3, the first list from `c` is `[1, 2]`, and `s` then yields 3: the chunker consumes the Stream it reads |
| Procs.Proc.constructor | src/proc.py:41-44 | a Proc starts with the identity Pipe and yields its source's items |
| Procs.Proc.Copy | src/proc.py:52-54 | the shallow copy shares the source and the Pipe |
| Procs.Proc.Through | src/proc.py:46-54 | the copy shares the Pipe, whose list gains the action, so both Procs now map every output through it |
| Procs.Proc.Next | src/proc.py:56-58 | yields the Pipe's output for the next source item; the Pipe's actions are unchanged, and a chunker source's Stream loses one batch |
| Procs.Proc.Take | src/proc.py:60-74 | returns `take(n)` of the outputs still to come, consuming exactly those; the Pipe's actions are unchanged, and a chunker source's Stream keeps a suffix of what it had |
| Procs.Proc.Compile | src/proc.py:76-81 | returns every remaining output in order and exhausts the Proc; the Pipe's actions are unchanged, and a chunker source's Stream keeps a suffix of what it had |
| Procs.Proc.Drain | src/proc.py:83-88 | exhausts the Proc; the Pipe's actions are unchanged, and a chunker source's Stream keeps a suffix of what it had |

## Left out

- Laziness and timing. Each object's future items are a ghost sequence, so the
  model does not say when a callback runs. It also does not say how often a
  callback runs: `fork` evaluates a condition twice (modules/stream.py:118-122),
  and that is not visible. Callbacks are total functions, so exceptions raised
  inside an action are not modelled.
- The nested-Pipe branch of `__forker` (modules/stream.py:118-119) is not
  modelled. That branch yields `next(action(item))` when an action is itself a
  Pipe. Fork actions are plain functions.
- Chunks.FlatMap: `c.flat_map(a)` is `a(c)` by definition
  (modules/chunk.py:15-16), so beyond `FlatMapOfMap` nothing is stated about it.
- `flat_map` with an arbitrary callable is not modelled (modules/stream.py:31-32,
  modules/riverbed.py:35-36). Only its use with a Pipe is modelled, as `Replay`.
- Streams.Stream.Concat and Streams.Stream.Plus require disjoint operands. So
  `s + s`, or sums whose operands share an upstream, are not modelled: they
  interleave pulls from one generator.
- A Riverbed over a live Stream or over a synchronous generator is not modelled.
  A Riverbed starts from a sequence of values. 
- `meter` delays are not modelled. Riverbeds.Riverbed.Meter keeps the items and
  does not model the sleep.
- The operators a Spring inherits from Stream (`through`, `filter`, `chunk`,
  `fork`, `+`) are not modelled on a Spring. Only its own pulls and `take` are.
  A Spring's `to_list` and `drain` never end, so they are not modelled.
- Strings are not values here, and neither are other iterables such as
  dictionaries. An iterable argument is a Chunk or a list.
- The legacy `Source` is any iterator. It is modelled as a finite list of items,
  or as the legacy chunker.
- The legacy Pipe's leading identity (src/stream.py:21) is implicit. The action
  list holds only the added actions. `Pipe.Call` reproduces the identity's
  one-argument rule.
- The Pipe in src/proc.py:18-36 is the same code as src/stream.py:17-35. It is
  modelled once, as `LegacyStreams.Pipe`.
- The script lines at src/proc.py:91-95 are not part of this model.
- A Pipe `+=` operator appears only in test/src/pipe.py:53-64. No Pipe in
  modules/ or src/ defines it, so it is not modelled.
- modules/confluence.py and modules/utilities/asyncTools.py are not part of this
  model. Neither is the command-line and file I/O code.
