/**
 * The admit/reject rule the data plane applies to each packet on one
 * direction of a bearer (src/data_plane.cpp:12-27 for uplink, :39-54 for
 * downlink, the same rule written twice), factored out as one function.
 */
module RateLimiter {

  import opened Bearers

  /** Clock ticks per second: CLOCKS_PER_SEC, which POSIX fixes at one million. */
  const CPS: nat := 1_000_000

  datatype Decision = Admit(next: LastPacket) | Reject

  /**
   * The source's test `last_packet_size / period < limit`, with
   * `period = elapsed / CLOCKS_PER_SEC`, read over the reals. A zero period
   * makes the IEEE quotient +inf (or NaN when the size is also 0), and
   * neither compares below the limit; every other quotient is the real one.
   */
  ghost predicate FloatRateBelow(lastSize: nat, elapsed: int, limit: nat)
  {
    var period := elapsed as real / CPS as real;
    period != 0.0 && lastSize as real / period < limit as real
  }

  /** The same test without division: both sides multiplied by the period. */
  predicate RateBelow(lastSize: nat, elapsed: int, limit: nat)
  {
    || (elapsed > 0 && lastSize * CPS < limit * elapsed)
    || (elapsed < 0 && lastSize * CPS > limit * elapsed)
  }

  /** The integer test decides exactly what the real-valued one does. */
  lemma RateBelowIsFloatRateBelow(lastSize: nat, elapsed: int, limit: nat)
    ensures RateBelow(lastSize, elapsed, limit) <==> FloatRateBelow(lastSize, elapsed, limit)
  {
  }

  /**
   * The decision for one packet of `size` bytes arriving at clock tick `now`
   * on a direction whose limit is `limit` bytes per second and whose last
   * admitted packet is `state`. An unlimited direction admits and keeps its
   * state; a direction that has admitted nothing admits and records the
   * packet; otherwise the PREVIOUS packet's size over the time since it was
   * admitted must be strictly below the limit, and an admitted packet
   * becomes the new state while a rejected one changes nothing.
   */
  function Decide(state: LastPacket, limit: nat, size: nat, now: int): (d: Decision)
    ensures limit == 0 ==> d == Admit(state)
    ensures limit > 0 && state == NeverAdmitted ==> d == Admit(LastPacket(size, now))
    ensures limit > 0 && state != NeverAdmitted ==>
      (d.Admit? <==> FloatRateBelow(state.size, now - state.timestamp, limit))
    ensures limit > 0 && d.Admit? ==> d.next == LastPacket(size, now)
  {
    RateBelowIsFloatRateBelow(state.size, now - state.timestamp, limit);
    if limit == 0 then
      Admit(state)
    else if state.size == 0 && state.timestamp == 0 then
      Admit(LastPacket(size, now))
    else if RateBelow(state.size, now - state.timestamp, limit) then
      Admit(LastPacket(size, now))
    else
      Reject
  }

  /** Whether a packet is admitted does not depend on its own size. */
  lemma DecisionIgnoresIncomingSize(state: LastPacket, limit: nat, size1: nat, size2: nat, now: int)
    ensures Decide(state, limit, size1, now).Admit? == Decide(state, limit, size2, now).Admit?
  {
  }

  /** A packet handed to the data plane: its length and the tick it arrives at. */
  datatype Arrival = Arrival(size: nat, time: int)

  /** `r` is `s` with some elements dropped and the rest kept in their order. */
  ghost predicate SubsequenceOf<T>(r: seq<T>, s: seq<T>)
    decreases |s|
  {
    r == [] || (s != [] && ((r[0] == s[0] && SubsequenceOf(r[1..], s[1..])) || SubsequenceOf(r, s[1..])))
  }

  /** Every element of a subsequence is drawn from the whole. */
  lemma {:induction false} SubsequenceMembers<T>(r: seq<T>, s: seq<T>)
    requires SubsequenceOf(r, s)
    ensures forall x :: x in r ==> x in s
    decreases |s|
  {
    if r != [] {
      if r[0] == s[0] && SubsequenceOf(r[1..], s[1..]) {
        SubsequenceMembers(r[1..], s[1..]);
        assert forall x :: x in r ==> x == r[0] || x in r[1..];
      } else {
        SubsequenceMembers(r, s[1..]);
      }
      assert forall x :: x in s[1..] ==> x in s;
    }
  }

  /** The packets a direction admits, in arrival order, starting from `state`. */
  function Admitted(state: LastPacket, limit: nat, arrivals: seq<Arrival>): (r: seq<Arrival>)
    ensures |r| <= |arrivals|
    ensures SubsequenceOf(r, arrivals)
    decreases |arrivals|
  {
    if arrivals == [] then []
    else
      match Decide(state, limit, arrivals[0].size, arrivals[0].time)
      case Admit(next) => [arrivals[0]] + Admitted(next, limit, arrivals[1..])
      case Reject => Admitted(state, limit, arrivals[1..])
  }

  /** An unlimited direction admits every packet, once each, in order. */
  lemma {:induction false} UnlimitedAdmitsAll(state: LastPacket, arrivals: seq<Arrival>)
    ensures Admitted(state, 0, arrivals) == arrivals
    decreases |arrivals|
  {
    if arrivals != [] {
      UnlimitedAdmitsAll(state, arrivals[1..]);
      assert arrivals == [arrivals[0]] + arrivals[1..];
    }
  }

  /** With a positive limit the first packet on a fresh direction is always admitted. */
  lemma FirstPacketAdmitted(limit: nat, arrivals: seq<Arrival>)
    requires limit > 0 && arrivals != []
    ensures Admitted(NeverAdmitted, limit, arrivals) != []
    ensures Admitted(NeverAdmitted, limit, arrivals)[0] == arrivals[0]
  {
  }

  /** `n` packets of `size` bytes, the first at tick `start`, then one every `gap` ticks. */
  function Spaced(size: nat, start: int, gap: int, n: nat): (r: seq<Arrival>)
    ensures |r| == n
    decreases n
  {
    if n == 0 then [] else [Arrival(size, start)] + Spaced(size, start + gap, gap, n - 1)
  }

  /**
   * After admitting a packet of `size` bytes at tick t, equally spaced packets
   * of the same size alternate: one gap is too short for the limit, two gaps
   * are long enough, so every second packet passes.
   */
  lemma {:induction false} AlternateAfterAdmit(size: nat, limit: nat, t: int, gap: int, n: nat)
    requires size > 0 && gap > 0
    requires limit * gap <= size * CPS < 2 * limit * gap
    ensures Admitted(LastPacket(size, t), limit, Spaced(size, t + gap, gap, n))
         == Spaced(size, t + 2 * gap, 2 * gap, n / 2)
    decreases n
  {
    var arrivals := Spaced(size, t + gap, gap, n);
    if n >= 2 {
      assert arrivals[0] == Arrival(size, t + gap);
      assert !RateBelow(size, gap, limit);
      assert Decide(LastPacket(size, t), limit, size, t + gap) == Reject;
      var rest := arrivals[1..];
      assert rest == Spaced(size, t + 2 * gap, gap, n - 1);
      assert rest[0] == Arrival(size, t + 2 * gap);
      assert limit * (2 * gap) == 2 * limit * gap;
      assert RateBelow(size, 2 * gap, limit);
      assert Decide(LastPacket(size, t), limit, size, t + 2 * gap) == Admit(LastPacket(size, t + 2 * gap));
      assert rest[1..] == Spaced(size, t + 2 * gap + gap, gap, n - 2);
      AlternateAfterAdmit(size, limit, t + 2 * gap, gap, n - 2);
      assert (n - 2) / 2 == n / 2 - 1;
    } else if n == 1 {
      assert !RateBelow(size, gap, limit);
    }
  }

  /**
   * The duty cycle of the rule: from a fresh direction, `n` equally spaced
   * packets whose gap is too short for one packet but long enough for two
   * are admitted exactly at positions 1, 3, 5, ... (counting from 1).
   */
  lemma {:induction false} AlternateFromFresh(size: nat, limit: nat, start: int, gap: int, n: nat)
    requires size > 0 && gap > 0
    requires limit * gap <= size * CPS < 2 * limit * gap
    ensures Admitted(NeverAdmitted, limit, Spaced(size, start, gap, n))
         == Spaced(size, start, 2 * gap, (n + 1) / 2)
  {
    if n > 0 {
      var arrivals := Spaced(size, start, gap, n);
      assert limit > 0;
      assert arrivals[1..] == Spaced(size, start + gap, gap, n - 1);
      AlternateAfterAdmit(size, limit, start, gap, n - 1);
      assert (n - 1) / 2 + 1 == (n + 1) / 2;
    }
  }

  /**
   * The rate-limit test case: a 6 B/s limit, six 2-byte packets spaced by
   * more than 1/6 s and at most 1/3 s; the 1st, 3rd and 5th pass.
   */
  lemma SixPacketsAtSixBytesPerSecond(start: int, gap: int)
    requires CPS < 6 * gap <= 2 * CPS
    ensures Admitted(NeverAdmitted, 6, Spaced(2, start, gap, 6))
         == [Arrival(2, start), Arrival(2, start + 2 * gap), Arrival(2, start + 4 * gap)]
  {
    AlternateFromFresh(2, 6, start, gap, 6);
    var r := Spaced(2, start, 2 * gap, 3);
    assert r == [Arrival(2, start)] + Spaced(2, start + 2 * gap, 2 * gap, 2);
    assert Spaced(2, start + 2 * gap, 2 * gap, 2)
        == [Arrival(2, start + 2 * gap)] + Spaced(2, start + 4 * gap, 2 * gap, 1);
  }
}
