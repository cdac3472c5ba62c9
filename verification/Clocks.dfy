// time.Now: a clock that never runs backwards.
module Clocks {
  class Clock {
    var time: nat

    method Now() returns (now: nat)
      modifies this
      ensures old(time) <= now == time
    {
      var elapsed: int := *;
      if elapsed > 0 {
        time := time + elapsed;
      }
      now := time;
    }
  }
}
