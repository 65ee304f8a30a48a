/**
 * internal/utils: the bounded retry helper `Do`.
 *
 * The handler is a Go closure that may return a different outcome on every call;
 * here it is the function from the attempt number (0, 1, ...) to that attempt's
 * outcome. `time.Sleep` is not modelled beyond counting how often it is called.
 */
module Retry {

  import opened Wrappers
  import opened Errs

  /** One call of the handler: its response (None is Go's nil interface) and error. */
  datatype Attempt<R> = Attempt(rsp: Option<R>, err: GoError)

  /** The most attempts `Do` may make: `retryTimes`, or none when it is not positive. */
  function MaxAttempts(retryTimes: int): (r: nat)
    ensures retryTimes <= 0 ==> r == 0
    ensures retryTimes > 0 ==> r == retryTimes
  {
    if retryTimes <= 0 then 0 else retryTimes
  }

  /**
   * Do calls the handler until an attempt's error is nil (an interface holding a
   * typed nil *Error is not nil, so it counts as a failure) or `retryTimes`
   * attempts have been made, sleeping between attempts but not after the last.
   * `calls` and `sleeps` count the handler calls and the sleeps.
   */
  method Do<R>(retryTimes: int, handler: nat -> Attempt<R>)
    returns (rsp: Option<R>, err: GoError, calls: nat, sleeps: nat)
    ensures calls <= MaxAttempts(retryTimes)
    ensures retryTimes <= 0 ==> calls == 0 && rsp == None && err == Nil && sleeps == 0
    ensures retryTimes > 0 ==> 0 < calls
    ensures 0 < calls ==> rsp == handler(calls - 1).rsp && err == handler(calls - 1).err
    ensures 0 < calls ==> sleeps == calls - 1
    ensures forall j :: 0 <= j < calls - 1 ==> handler(j).err != Nil
    ensures err != Nil ==> calls == MaxAttempts(retryTimes)
  {
    rsp, err, calls, sleeps := None, Nil, 0, 0;
    var i := 0;
    while i < retryTimes
      invariant retryTimes <= 0 ==> i == 0
      invariant 0 < retryTimes ==> 0 <= i < retryTimes
      invariant calls == i && sleeps == i
      invariant i == 0 ==> rsp == None && err == Nil
      invariant 0 < i ==> rsp == handler(i - 1).rsp && err == handler(i - 1).err
      invariant forall j :: 0 <= j < i ==> handler(j).err != Nil
    {
      var a := handler(i);
      rsp, err := a.rsp, a.err;
      calls := calls + 1;
      if err == Nil {
        return;
      }
      if i == retryTimes - 1 {
        break;
      }
      sleeps := sleeps + 1;
      i := i + 1;
    }
  }
}
