/**
 * Request pacing towards Slack: every request after the first waits long
 * enough to stay under a fixed number of requests per minute. Durations
 * are whole tenths of a second; one tenth is 100000 microseconds of
 * `usleep`.
 */
module Pacing {

  /** Requests per minute allowed by the `conversations.history` tier. */
  const RateLimit: nat := 50

  /** `ceil(60 / rateLimit * 10) / 10` seconds, in tenths: the shortest
      whole number of tenths that spaces `rateLimit` requests over at least
      a minute. */
  function PauseTenths(rateLimit: nat): (t: nat)
    requires rateLimit > 0
    ensures t * rateLimit >= 600
    ensures (t - 1) * rateLimit < 600
  {
    var q := 600 / rateLimit;
    if q * rateLimit == 600 then q else q + 1
  }

  /** The sleeps, in order, of `calls` consecutive requests of which the
      first is made when `count` requests have already gone out: every
      request but the very first of the process sleeps once. */
  function Sleeps(count: nat, calls: nat): seq<nat> {
    if calls == 0 then []
    else Sleeps(count, calls - 1) + (if count + calls - 1 > 0 then [PauseTenths(RateLimit)] else [])
  }

  /** One request more adds its pause at the end: 12 tenths, which is
      `PauseTenths(RateLimit)`, unless it is the very first request. */
  lemma SleepsSnoc(count: nat, calls: nat)
    ensures Sleeps(count, calls + 1) == Sleeps(count, calls) + if count + calls > 0 then [12] else []
  {
    assert PauseTenths(RateLimit) == 12;
  }

  /** The first request of the process does not wait; every other one waits
      exactly 1.2 seconds. */
  lemma {:induction false} SleepsAreUniform(count: nat, calls: nat)
    ensures |Sleeps(count, calls)| == if count == 0 && calls > 0 then calls - 1 else calls
    ensures forall i :: 0 <= i < |Sleeps(count, calls)| ==> Sleeps(count, calls)[i] == 12
  {
    if calls > 0 {
      SleepsAreUniform(count, calls - 1);
      assert PauseTenths(RateLimit) == 12;
    }
  }
}
