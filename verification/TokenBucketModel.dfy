/** The token bucket (src/lib/transit/token-bucket.ts), over the reals; time in milliseconds. */
module TokenBucketModel {
  import opened Common

  datatype Bucket = Bucket(tokens: real, updatedAt: real)

  function MinReal(a: real, b: real): real {
    if a <= b then a else b
  }

  function Refilled(b: Bucket, rate: real, capacity: real, now: real): real {
    var elapsed := if now > b.updatedAt then (now - b.updatedAt) / 1000.0 else 0.0;
    MinReal(capacity, b.tokens + elapsed * rate)
  }

  /** `consumeToken`: the new state and whether the call is admitted. */
  function Consume(b: Bucket, rate: real, capacity: real, now: real): (Bucket, bool) {
    var tokens := Refilled(b, rate, capacity, now);
    if tokens < 1.0 then (Bucket(tokens, now), false) else (Bucket(tokens - 1.0, now), true)
  }

  function Full(capacity: real, now: real): Bucket {
    Bucket(capacity, now)
  }

  ghost predicate Nondecreasing(from: real, times: seq<real>)
    decreases |times|
  {
    times == [] || (from <= times[0] && Nondecreasing(times[0], times[1..]))
  }

  ghost function After(b: Bucket, rate: real, capacity: real, times: seq<real>): Bucket
    decreases |times|
  {
    if times == [] then b else After(Consume(b, rate, capacity, times[0]).0, rate, capacity, times[1..])
  }

  ghost function Admitted(b: Bucket, rate: real, capacity: real, times: seq<real>): nat
    decreases |times|
  {
    if times == [] then 0
    else
      var (b', granted) := Consume(b, rate, capacity, times[0]);
      (if granted then 1 else 0) + Admitted(b', rate, capacity, times[1..])
  }

  /** Tokens never leave the range from 0 to capacity. */
  lemma {:induction false} StaysInRange(b: Bucket, rate: real, capacity: real, times: seq<real>)
    requires rate >= 0.0 && 0.0 <= b.tokens <= capacity
    ensures 0.0 <= After(b, rate, capacity, times).tokens <= capacity
    decreases |times|
  {
    if times != [] {
      OneInRange(b, rate, capacity, times[0]);
      StaysInRange(Consume(b, rate, capacity, times[0]).0, rate, capacity, times[1..]);
    }
  }

  lemma Nonnegative(x: real, y: real)
    requires x >= 0.0 && y >= 0.0
    ensures x * y >= 0.0
  {
  }

  function Refills(elapsed: real, rate: real): real {
    elapsed / 1000.0 * rate
  }

  /** What the time between two states refills. */
  function Refill(b: Bucket, b': Bucket, rate: real): real {
    Refills(b'.updatedAt - b.updatedAt, rate)
  }

  lemma OneInRange(b: Bucket, rate: real, capacity: real, now: real)
    requires rate >= 0.0 && 0.0 <= b.tokens <= capacity
    ensures 0.0 <= Consume(b, rate, capacity, now).0.tokens <= capacity
    ensures Consume(b, rate, capacity, now).0.updatedAt == now
  {
    if now > b.updatedAt {
      Nonnegative((now - b.updatedAt) / 1000.0, rate);
    }
  }

  lemma Distributes(x: real, y: real, z: real)
    ensures (x + y) * z == x * z + y * z
  {
  }

  /** Calls at least one refill period apart. */
  ghost predicate Spaced(from: real, rate: real, times: seq<real>)
    decreases |times|
  {
    times == [] || (from <= times[0] && (times[0] - from) / 1000.0 * rate >= 1.0 && Spaced(times[0], rate, times[1..]))
  }

  lemma {:induction false} SpacedAllAdmitted(b: Bucket, rate: real, capacity: real, times: seq<real>)
    requires rate >= 0.0 && capacity >= 1.0 && 0.0 <= b.tokens <= capacity && Spaced(b.updatedAt, rate, times)
    ensures Admitted(b, rate, capacity, times) == |times|
    decreases |times|
  {
    if times != [] {
      SpacedAllAdmitted(Consume(b, rate, capacity, times[0]).0, rate, capacity, times[1..]);
    }
  }

  /** A fresh bucket refuses a caller that keeps one refill period apart exactly when it can never hold a whole token. */
  lemma SpacedNeverRefusedExact(rate: real, capacity: real, start: real, times: seq<real>)
    requires rate > 0.0 && capacity > 0.0 && times != []
    requires start <= times[0] && Spaced(times[0], rate, times[1..])
    ensures Admitted(Full(capacity, start), rate, capacity, times) == |times| <==> capacity >= 1.0
  {
    var b := Full(capacity, start);
    var b1 := Consume(b, rate, capacity, times[0]).0;
    if times[0] > start {
      Nonnegative((times[0] - start) / 1000.0, rate);
    }
    if capacity >= 1.0 {
      SpacedAllAdmitted(b1, rate, capacity, times[1..]);
    } else {
      AdmittedAtMost(b1, rate, capacity, times[1..]);
    }
  }

  lemma {:induction false} AdmittedAtMost(b: Bucket, rate: real, capacity: real, times: seq<real>)
    ensures Admitted(b, rate, capacity, times) <= |times|
    decreases |times|
  {
    if times != [] {
      AdmittedAtMost(Consume(b, rate, capacity, times[0]).0, rate, capacity, times[1..]);
    }
  }

  function Gain(from: real, now: real): real {
    if now > from then now - from else 0.0
  }

  /** How far the clock moved forward between calls, taken together; moving back takes nothing off. */
  ghost function Forward(from: real, times: seq<real>): real
    decreases |times|
  {
    if times == [] then 0.0 else Gain(from, times[0]) + Forward(times[0], times[1..])
  }

  /** What one movement of the clock refills. */
  function GainRefill(from: real, now: real, rate: real): real {
    Refills(Gain(from, now), rate)
  }

  ghost function ForwardRefill(from: real, times: seq<real>, rate: real): real
    decreases |times|
  {
    if times == [] then 0.0 else GainRefill(from, times[0], rate) + ForwardRefill(times[0], times[1..], rate)
  }

  lemma {:induction false} RefillsForward(from: real, times: seq<real>, rate: real)
    ensures ForwardRefill(from, times, rate) == Refills(Forward(from, times), rate)
    decreases |times|
  {
    if times != [] {
      RefillsForward(times[0], times[1..], rate);
      var x, y := Gain(from, times[0]) / 1000.0, Forward(times[0], times[1..]) / 1000.0;
      assert Forward(from, times) / 1000.0 == x + y;
      Distributes(x, y, rate);
    }
  }

  /** One call is paid for by what was there and what the clock's forward movement refills. */
  lemma GainPays(b: Bucket, rate: real, capacity: real, now: real)
    ensures var (b', granted) := Consume(b, rate, capacity, now);
            b'.tokens + (if granted then 1.0 else 0.0) <= b.tokens + GainRefill(b.updatedAt, now, rate)
            && b'.updatedAt == now
  {
  }

  lemma {:induction false} ForwardPays(b: Bucket, rate: real, capacity: real, times: seq<real>)
    ensures After(b, rate, capacity, times).tokens + Admitted(b, rate, capacity, times) as real
            <= b.tokens + ForwardRefill(b.updatedAt, times, rate)
    decreases |times|
  {
    if times != [] {
      var (b1, granted) := Consume(b, rate, capacity, times[0]);
      GainPays(b, rate, capacity, times[0]);
      ForwardPays(b1, rate, capacity, times[1..]);
      assert ForwardRefill(b.updatedAt, times, rate) == GainRefill(b.updatedAt, times[0], rate) + ForwardRefill(b1.updatedAt, times[1..], rate);
    }
  }

  /** Whatever the clock does, no more calls are admitted than the capacity plus what its forward movements refill. */
  lemma AdmittedByForwardTime(b: Bucket, rate: real, capacity: real, times: seq<real>)
    requires rate >= 0.0 && 0.0 <= b.tokens <= capacity
    ensures Admitted(b, rate, capacity, times) as real <= capacity + Refills(Forward(b.updatedAt, times), rate)
  {
    ForwardPays(b, rate, capacity, times);
    RefillsForward(b.updatedAt, times, rate);
    StaysInRange(b, rate, capacity, times);
  }

  /** For a clock that never goes back the forward movements are the time elapsed. */
  lemma {:induction false} ForwardIsElapsed(b: Bucket, rate: real, capacity: real, times: seq<real>)
    requires Nondecreasing(b.updatedAt, times)
    ensures Forward(b.updatedAt, times) == After(b, rate, capacity, times).updatedAt - b.updatedAt
    decreases |times|
  {
    if times != [] {
      ForwardIsElapsed(Consume(b, rate, capacity, times[0]).0, rate, capacity, times[1..]);
    }
  }

  /** So in any window with such a clock no more calls are admitted than the capacity plus what the elapsed time refills. */
  lemma AdmittedBounded(b: Bucket, rate: real, capacity: real, times: seq<real>)
    requires rate >= 0.0 && 0.0 <= b.tokens <= capacity && Nondecreasing(b.updatedAt, times)
    ensures Admitted(b, rate, capacity, times) as real
            <= capacity + Refill(b, After(b, rate, capacity, times), rate)
  {
    AdmittedByForwardTime(b, rate, capacity, times);
    ForwardIsElapsed(b, rate, capacity, times);
  }

  /** Elapsed time is not enough for a clock that goes back: every second gained again is refilled again. */
  lemma ClockBackRefillsTwice()
    ensures var b, times := Full(1.0, 0.0), [1000.0, 0.0, 1000.0, 0.0, 1000.0];
            Admitted(b, 1.0, 1.0, times) as real > 1.0 + Refill(b, After(b, 1.0, 1.0, times), 1.0)
  {
    var b := Full(1.0, 0.0);
    var empty, early := Bucket(0.0, 1000.0), Bucket(0.0, 0.0);
    assert Consume(b, 1.0, 1.0, 1000.0) == (empty, true);
    assert Consume(empty, 1.0, 1.0, 0.0) == (early, false);
    assert Consume(early, 1.0, 1.0, 1000.0) == (empty, true);
    var once := [1000.0];
    var twice := [1000.0, 0.0, 1000.0];
    assert Admitted(early, 1.0, 1.0, once) == 1 && After(early, 1.0, 1.0, once) == empty;
    assert twice[1..] == [0.0, 1000.0] && [0.0, 1000.0][1..] == once;
    assert Admitted(early, 1.0, 1.0, twice) == 2 && After(early, 1.0, 1.0, twice) == empty;
    assert [1000.0, 0.0, 1000.0, 0.0, 1000.0][1..] == [0.0] + twice && ([0.0] + twice)[1..] == twice;
    assert Admitted(empty, 1.0, 1.0, [0.0] + twice) == 2;
  }

  /** `consumeToken`: refills, stamps the time, then takes a whole token or refuses. */
  method ConsumeToken(state: Bucket, refillPerSecond: real, capacity: real, now: real) returns (next: Bucket, granted: bool)
    ensures (next, granted) == Consume(state, refillPerSecond, capacity, now)
  {
    next := Bucket(Refilled(state, refillPerSecond, capacity, now), now);
    if next.tokens < 1.0 {
      return next, false;
    }
    next := next.(tokens := next.tokens - 1.0);
    return next, true;
  }

  /** The bucket object: its state is what `consumeToken` leaves. */
  class TokenBucket {
    const refillPerSecond: real
    const capacity: real
    var tokens: real
    var updatedAt: real

    function State(): Bucket
      reads this
    {
      Bucket(tokens, updatedAt)
    }

    predicate Valid()
      reads this
    {
      refillPerSecond > 0.0 && capacity > 0.0 && 0.0 <= tokens <= capacity
    }

    constructor (refillPerSecond: real, capacity: real, now: real)
      requires refillPerSecond > 0.0 && capacity > 0.0
      ensures Valid() && State() == Full(capacity, now)
      ensures this.refillPerSecond == refillPerSecond && this.capacity == capacity
    {
      this.refillPerSecond, this.capacity := refillPerSecond, capacity;
      tokens, updatedAt := capacity, now;
    }

    /** Rates that are not positive are refused. */
    static method Create(refillPerSecond: real, capacity: real, now: real) returns (bucket: Option<TokenBucket>)
      ensures bucket.None? <==> refillPerSecond <= 0.0 || capacity <= 0.0
      ensures bucket.Some? ==> fresh(bucket.value) && bucket.value.Valid() && bucket.value.State() == Full(capacity, now)
    {
      if refillPerSecond <= 0.0 || capacity <= 0.0 {
        return None;
      }
      var created := new TokenBucket(refillPerSecond, capacity, now);
      return Some(created);
    }

    method Take(now: real) returns (granted: bool)
      requires Valid()
      modifies this
      ensures Valid() && (State(), granted) == Consume(old(State()), refillPerSecond, capacity, now)
    {
      OneInRange(State(), refillPerSecond, capacity, now);
      var state;
      state, granted := ConsumeToken(Bucket(tokens, updatedAt), refillPerSecond, capacity, now);
      tokens, updatedAt := state.tokens, state.updatedAt;
    }
  }

  /** The state one key holds; a key never used is a full bucket. */
  function StoredBucket(buckets: map<string, Bucket>, key: string, capacity: real, now: real): Bucket {
    if key in buckets then buckets[key] else Full(capacity, now)
  }

  /** A key never used admits its first call exactly if a bucket of its capacity can hold a whole token, and counts from then. */
  lemma UnusedIsFull(buckets: map<string, Bucket>, key: string, rate: real, capacity: real, now: real)
    requires key !in buckets
    ensures var (b, granted) := Consume(StoredBucket(buckets, key, capacity, now), rate, capacity, now);
            && (granted <==> capacity >= 1.0)
            && b.updatedAt == now && b.tokens == if granted then capacity - 1.0 else capacity
  {
  }

  /** Buckets kept in storage, one a key. */
  class StoredTokens {
    var buckets: map<string, Bucket>

    constructor ()
      ensures buckets == map[]
    {
      buckets := map[];
    }

    method ConsumeStoredToken(key: string, refillPerSecond: real, capacity: real, now: real) returns (allowed: bool)
      modifies this
      ensures var (bucket, granted) := Consume(StoredBucket(old(buckets), key, capacity, now), refillPerSecond, capacity, now);
              allowed == granted && buckets == old(buckets)[key := bucket]
    {
      var state := if key in buckets then buckets[key] else Full(capacity, now);
      state, allowed := ConsumeToken(state, refillPerSecond, capacity, now);
      buckets := buckets[key := state];
    }
  }
}
