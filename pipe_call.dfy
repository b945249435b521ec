/** Calling a Pipe (modules/pipe.py, `__call__`): the arguments build a
    Stream, or a Riverbed when `asynchronous` is set, and every stage the
    Pipe recorded is then applied to it in order. */
module PipeCalls {
  import opened Values
  import Pipes
  import Streams
  import Riverbeds

  /** What a call returns: the synchronous or the asynchronous flow. */
  datatype Flowing = SyncFlow(s: Streams.Stream) | AsyncFlow(rb: Riverbeds.Riverbed)

  /** `p(*args, asynchronous=a)`. The flow has the requested kind and
      yields what `Pipes.Call` predicts; the call fails exactly when the
      prediction is an error, with the same error. */
  method Call(p: Pipes.Pipe, args: seq<Value>, asynchronous: bool) returns (r: Result<Flowing>)
    ensures r.Err? <==> Pipes.Call(p, args, asynchronous).Err?
    ensures r.Err? ==> r.error == Pipes.Call(p, args, asynchronous).error
    ensures r.Ok? ==> r.value.AsyncFlow? == asynchronous
    ensures r.Ok? && r.value.SyncFlow? ==>
              r.value.s.Valid() && r.value.s.Remaining() == Pipes.Call(p, args, asynchronous).value
    ensures r.Ok? && r.value.AsyncFlow? ==>
              r.value.rb.Valid() && r.value.rb.Remaining() == Pipes.Call(p, args, asynchronous).value
  {
    if asynchronous {
      var base := new Riverbeds.Riverbed(args);
      var flow := base.Replay(p);
      r := if flow.Ok? then Ok(AsyncFlow(flow.value)) else Err(flow.error);
    } else {
      var base := new Streams.Stream(args);
      var flow := base.Replay(p);
      r := if flow.Ok? then Ok(SyncFlow(flow.value)) else Err(flow.error);
    }
  }
}
