/**
 * `connect` of the example scripts: open a websocket, retrying forever with two capped linear
 * counters, the open timeout (1, 2, … up to 60 seconds) and the pause after a failure (0, 1, …
 * up to 10 seconds). Whether each attempt opens is an input script; a script in which no
 * attempt opens ends with `connect` still retrying.
 */
module Connection {

  import opened Wrappers

  /** The address connection.py dials. */
  const SERVER: string := "wss://api.deepmm.com"
  const INITIAL_OPEN_TIMEOUT: nat := 1
  const MAX_OPEN_TIMEOUT: nat := 60
  const MAX_SLEEP: nat := 10

  /** One `websockets.connect` call: the address and its `open_timeout`. */
  datatype Attempt = Attempt(url: string, openTimeout: nat)

  /** `open_timeout` of the attempt made after k failures. */
  function OpenTimeout(k: nat): nat {
    if INITIAL_OPEN_TIMEOUT + k < MAX_OPEN_TIMEOUT then INITIAL_OPEN_TIMEOUT + k else MAX_OPEN_TIMEOUT
  }

  /** `sleep_time` slept after the k-th failure (counting from 0). */
  function SleepTime(k: nat): nat {
    if k < MAX_SLEEP then k else MAX_SLEEP
  }

  /** One capped increment, `min(cap, x + 1)`. */
  function Bump(x: nat, cap: nat): nat {
    if x + 1 < cap then x + 1 else cap
  }

  /**
   * The retry loop with the URL it is given. It returns at the first attempt that opens, after
   * one attempt per entry before it and one pause after each failure; the counters follow
   * OpenTimeout and SleepTime.
   */
  method Connect(url: string, opens: seq<bool>) returns (connected: Option<nat>, attempts: seq<Attempt>, sleeps: seq<nat>)
    ensures connected.Some? <==> true in opens
    ensures connected.Some? ==>
      && connected.value < |opens| && opens[connected.value]
      && forall k :: 0 <= k < connected.value ==> !opens[k]
    ensures |attempts| == (if connected.Some? then connected.value + 1 else |opens|)
    ensures |sleeps| == (if connected.Some? then connected.value else |opens|)
    ensures forall k :: 0 <= k < |attempts| ==> attempts[k] == Attempt(url, OpenTimeout(k))
    ensures forall k :: 0 <= k < |sleeps| ==> sleeps[k] == SleepTime(k)
  {
    var openTimeout := INITIAL_OPEN_TIMEOUT;
    var sleepTime := 0;
    attempts, sleeps := [], [];
    var k := 0;
    while k < |opens|
      invariant 0 <= k <= |opens|
      invariant forall j :: 0 <= j < k ==> !opens[j]
      invariant openTimeout == OpenTimeout(k) && sleepTime == SleepTime(k)
      invariant |attempts| == k && |sleeps| == k
      invariant forall j :: 0 <= j < k ==> attempts[j] == Attempt(url, OpenTimeout(j))
      invariant forall j :: 0 <= j < k ==> sleeps[j] == SleepTime(j)
    {
      attempts := attempts + [Attempt(url, openTimeout)];
      if opens[k] {
        return Some(k), attempts, sleeps;
      }
      sleeps := sleeps + [sleepTime];
      openTimeout := Bump(openTimeout, MAX_OPEN_TIMEOUT);
      sleepTime := Bump(sleepTime, MAX_SLEEP);
      k := k + 1;
    }
    connected := None;
  }

  /**
   * connection.py's `connect` as the scripts call it. It takes no parameters, so a call with
   * an address raises TypeError before any attempt; a call without one dials SERVER.
   */
  method ConnectAsCalled(args: seq<string>, opens: seq<bool>)
    returns (raised: bool, connected: Option<nat>, attempts: seq<Attempt>)
    ensures raised <==> args != []
    ensures raised ==> connected.None? && attempts == []
    ensures !raised ==> (connected.Some? <==> true in opens)
    ensures forall k :: 0 <= k < |attempts| ==> attempts[k] == Attempt(SERVER, OpenTimeout(k))
  {
    if args != [] {
      return true, None, [];
    }
    var sleeps;
    raised := false;
    connected, attempts, sleeps := Connect(SERVER, opens);
  }

  /** Both counters start at their initial values, never decrease and stay within their caps. */
  lemma CountersMonotone(j: nat, k: nat)
    requires j <= k
    ensures OpenTimeout(0) == 1 && SleepTime(0) == 0
    ensures OpenTimeout(j) <= OpenTimeout(k) && SleepTime(j) <= SleepTime(k)
    ensures 1 <= OpenTimeout(k) <= MAX_OPEN_TIMEOUT && SleepTime(k) <= MAX_SLEEP
    ensures k >= MAX_OPEN_TIMEOUT - 1 ==> OpenTimeout(k) == MAX_OPEN_TIMEOUT
    ensures k >= MAX_SLEEP ==> SleepTime(k) == MAX_SLEEP
  {
  }

  /** Seconds slept over the first n failures. */
  function TotalSleep(n: nat): nat {
    if n == 0 then 0 else TotalSleep(n - 1) + SleepTime(n - 1)
  }

  /**
   * The pauses add up to 0 + 1 + … + (n − 1) while below the cap, and grow by 10 seconds per
   * failure after the 10th; the first retry comes without any pause.
   */
  lemma {:induction false} TotalSleepClosed(n: nat)
    ensures TotalSleep(n) == (if n <= MAX_SLEEP + 1 then n * (n - 1) / 2 else 55 + MAX_SLEEP * (n - MAX_SLEEP - 1))
    ensures n <= 1 ==> TotalSleep(n) == 0
  {
    if n > 0 {
      TotalSleepClosed(n - 1);
      if n <= MAX_SLEEP + 1 {
        assert n * (n - 1) == (n - 1) * (n - 2) + 2 * (n - 1);
      }
    }
  }
}
