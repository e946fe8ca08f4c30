// PerformanceMonitor of refactored/__init__.py: named timers started and
// stopped by name, and named counters that only accumulate.  The clock is a
// parameter: each timer call receives the value perf_counter() would return.
module Performance {
  import opened Wrappers
  import opened Keys

  /** dict.get(name, 0). */
  function Get(counters: map<string, int>, name: string): (v: int)
    ensures name in counters ==> v == counters[name]
    ensures name !in counters ==> v == 0
  {
    if name in counters then counters[name] else 0
  }

  /** What get_stats returns: the running timers, and a copy of the counters. */
  datatype Stats = Stats(activeTimers: seq<string>, counters: map<string, int>)

  /** One call of increment_counter. */
  datatype Increment = Increment(name: string, value: int)

  /** The counters after a series of increments. */
  function Applied(counters: map<string, int>, incs: seq<Increment>): (r: map<string, int>)
    ensures forall k :: k in counters ==> k in r
    ensures forall i :: 0 <= i < |incs| ==> incs[i].name in r
    decreases |incs|
  {
    if incs == [] then counters
    else Applied(counters[incs[0].name := Get(counters, incs[0].name) + incs[0].value], incs[1..])
  }

  /** The total of the increments made to `name`. */
  function TotalFor(incs: seq<Increment>, name: string): int
  {
    if incs == [] then 0
    else (if incs[0].name == name then incs[0].value else 0) + TotalFor(incs[1..], name)
  }

  /**
   * A counter ends at its start (0 when absent) plus everything added to it,
   * and exists afterwards iff it existed or was incremented.
   */
  lemma {:induction false} AppliedCounts(counters: map<string, int>, incs: seq<Increment>, name: string)
    ensures Get(Applied(counters, incs), name) == Get(counters, name) + TotalFor(incs, name)
    ensures name in Applied(counters, incs) <==> name in counters || exists k :: 0 <= k < |incs| && incs[k].name == name
    decreases |incs|
  {
    if incs != [] {
      var next := counters[incs[0].name := Get(counters, incs[0].name) + incs[0].value];
      AppliedCounts(next, incs[1..], name);
      assert forall k :: 1 <= k < |incs| ==> incs[k] == incs[1..][k - 1];
      if name in Applied(counters, incs) && name !in counters && incs[0].name != name {
        var k :| 0 <= k < |incs[1..]| && incs[1..][k].name == name;
        assert incs[k + 1].name == name;
      }
    }
  }

  class PerformanceMonitor {
    /** The running timers' names, in the order they were first started. */
    var timerOrder: seq<string>
    /** Each running timer's start time. */
    var timers: map<string, real>
    var counters: map<string, int>

    /** The timer dictionary: its keys in insertion order, each once. */
    ghost predicate Valid()
      reads this
    {
      Distinct(timerOrder) && forall n :: n in timers <==> n in timerOrder
    }

    constructor ()
      ensures Valid()
      ensures timerOrder == [] && timers == map[] && counters == map[]
    {
      timerOrder, timers, counters := [], map[], map[];
    }

    /** start_timer: (re)start a timer; a restarted one keeps its place. */
    method StartTimer(name: string, now: real)
      requires Valid()
      modifies this`timerOrder, this`timers
      ensures Valid()
      ensures timers == old(timers)[name := now]
      ensures timerOrder == if name in old(timers) then old(timerOrder) else old(timerOrder) + [name]
    {
      if name !in timers {
        timerOrder := timerOrder + [name];
      }
      timers := timers[name := now];
    }

    /** stop_timer: the elapsed time of a running timer, which stops; None for any other name. */
    method StopTimer(name: string, now: real) returns (duration: Option<real>)
      requires Valid()
      modifies this`timerOrder, this`timers
      ensures Valid()
      ensures name !in old(timers) ==> duration.None? && timers == old(timers) && timerOrder == old(timerOrder)
      ensures name in old(timers) ==>
                duration == Some(now - old(timers)[name])
                && timers == old(timers) - {name} && timerOrder == Without(old(timerOrder), name)
    {
      if name in timers {
        duration := Some(now - timers[name]);
        WithoutDistinct(timerOrder, name);
        timers := timers - {name};
        timerOrder := Without(timerOrder, name);
      } else {
        duration := None;
      }
    }

    /** increment_counter: add `value` (1 by default) to a counter that starts at 0. */
    method IncrementCounter(name: string, value: int := 1)
      modifies this`counters
      ensures counters == old(counters)[name := Get(old(counters), name) + value]
      ensures Get(counters, name) == Get(old(counters), name) + value
      ensures forall n :: n != name ==> Get(counters, n) == Get(old(counters), n)
      ensures counters == Applied(old(counters), [Increment(name, value)])
    {
      counters := counters[name := Get(counters, name) + value];
    }

    /** get_stats: the names of the running timers, in order, and the counters as a value. */
    function GetStats(): (r: Stats)
      requires Valid()
      reads this
      ensures Distinct(r.activeTimers) && forall n :: n in r.activeTimers <==> n in timers
      ensures r.activeTimers == timerOrder && r.counters == counters
    {
      Stats(timerOrder, counters)
    }

    /** reset: no timers and no counters. */
    method Reset()
      modifies this`timerOrder, this`timers, this`counters
      ensures Valid()
      ensures timerOrder == [] && timers == map[] && counters == map[]
    {
      timerOrder, timers, counters := [], map[], map[];
    }
  }
}
