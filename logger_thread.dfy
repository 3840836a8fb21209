/** The logging worker: an object with an `is_Logging` flag whose work loop
    emits one tick per iteration for as long as the flag is set, and whose
    `stop` clears the flag. */
module LoggerThread {

  /** The payload of every tick signal. */
  const Tick: string := "1"

  /** The number of iterations of the work loop, started with the flag equal
      to `active`, when `stops[i]` tells whether `stop()` is called while the
      i-th iteration sleeps. Only the first `|stops|` iterations are observed. */
  function Ticks(active: bool, stops: seq<bool>): (n: nat)
    ensures n <= |stops|
    ensures !active ==> n == 0
  {
    if !active || stops == [] then 0 else 1 + Ticks(!stops[0], stops[1..])
  }

  /** A stop during the k-th sleep, and none before it, ends the loop after
      exactly k + 1 ticks: no iteration begins once the flag is cleared. */
  lemma {:induction false} TicksUntilFirstStop(stops: seq<bool>, k: nat)
    requires k < |stops| && stops[k]
    requires forall j :: 0 <= j < k ==> !stops[j]
    ensures Ticks(true, stops) == k + 1
  {
    if k > 0 {
      TicksUntilFirstStop(stops[1..], k - 1);
    }
  }

  /** Without a stop, the loop ticks on every observed iteration. */
  lemma {:induction false} TicksWithoutStop(stops: seq<bool>)
    requires true !in stops
    ensures Ticks(true, stops) == |stops|
  {
    if stops != [] {
      assert stops == [stops[0]] + stops[1..];
      TicksWithoutStop(stops[1..]);
    }
  }

  class Logger {
    /** `is_Logging`: whether the work loop keeps going. */
    var isLogging: bool

    /** A new logger is active. */
    constructor ()
      ensures isLogging
    {
      isLogging := true;
    }

    /** `stop`: clears the flag, so that the work loop begins no new iteration. */
    method Stop()
      modifies this
      ensures !isLogging
    {
      isLogging := false;
    }

    /** `work`: while the flag is set, emit a tick and sleep. The other
        thread's calls of `stop()` are given by `stops`, one entry per sleep;
        the loop is observed for at most `|stops|` iterations. */
    method Work(stops: seq<bool>) returns (emitted: seq<string>)
      modifies this
      ensures |emitted| == Ticks(old(isLogging), stops)
      ensures forall e :: e in emitted ==> e == Tick
      ensures isLogging == (old(isLogging) && true !in stops)
    {
      emitted := [];
      var i := 0;
      while isLogging && i < |stops|
        invariant i <= |stops|
        invariant forall e :: e in emitted ==> e == Tick
        invariant |emitted| + Ticks(isLogging, stops[i..]) == Ticks(old(isLogging), stops)
        invariant isLogging == (old(isLogging) && true !in stops[..i])
      {
        emitted := emitted + [Tick];
        // time.sleep(1): this is where the other thread may call stop()
        if stops[i] {
          Stop();
        }
        assert stops[..i + 1] == stops[..i] + [stops[i]];
        assert stops[i..][1..] == stops[i + 1..];
        i := i + 1;
      }
      assert !isLogging ==> true in stops[..i] || !old(isLogging);
      assert i == |stops| ==> stops[..i] == stops;
    }
  }
}
