/** asyncio futures, as far as callers set, cancel and await them. */
module Futures {

  datatype FutureState<R> = Waiting | Value(value: R) | Cancelled

  /** What set_result guarded by done() does to a future. */
  function Settle<R>(f: FutureState<R>, r: R): FutureState<R> {
    if f.Waiting? then Value(r) else f
  }

  /** What cancel() does to a future. */
  function Cancel<R>(f: FutureState<R>): FutureState<R> {
    if f.Waiting? then Cancelled else f
  }

  class Future<R> {
    var state: FutureState<R>

    constructor ()
      ensures state == Waiting
    {
      state := Waiting;
    }
  }
}
