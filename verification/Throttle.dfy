/** The connector client's 429 gate.

    `do` takes its lock twice: before a request, to see whether the throttle window is open, and
    after a 429, to open it. Each critical section is one step here, so that any number of
    callers may be between their two. */
module Throttle {
  import opened Wrappers
  import opened GoTime

  const THROTTLE_WINDOW: Duration := 65 * SECOND

  datatype Answer = TransportError | Status(code: int)

  datatype DoResult = ShortCircuited | Failed | Throttled | NotFound | ApiError(code: int) | Accepted

  datatype Gate = Gate(throttledUntil: Option<Time>, inFlight: nat)

  predicate Shut(g: Gate, now: Time) {
    g.throttledUntil.Some? && now < g.throttledUntil.value
  }

  /** A caller at the gate, or an admitted request's answer coming in. */
  datatype Event = Asks(at: Time) | Answers(at: Time, answer: Answer)

  predicate Is429(e: Event) {
    e.Answers? && e.answer == Status(429)
  }

  function Step(g: Gate, e: Event): Gate
    requires e.Answers? ==> g.inFlight > 0
  {
    match e
    case Asks(at) => if Shut(g, at) then g else g.(inFlight := g.inFlight + 1)
    case Answers(at, answer) =>
      Gate(if answer == Status(429) then Some(at + THROTTLE_WINDOW) else g.throttledUntil, g.inFlight - 1)
  }

  /** The client as a shared object. */
  class Client {
    var throttledUntil: Option<Time>
    /** How many admitted requests are still out. */
    ghost var inFlight: nat

    constructor ()
      ensures State() == Gate(None, 0)
    {
      throttledUntil, inFlight := None, 0;
    }

    ghost function State(): Gate
      reads this
    {
      Gate(throttledUntil, inFlight)
    }

    /** The first critical section: may a request leave at `now`? */
    method Ask(now: Time) returns (admitted: bool)
      modifies this
      ensures State() == Step(old(State()), Asks(now))
      ensures admitted <==> (old(throttledUntil).Some? ==> now >= old(throttledUntil).value)
    {
      if throttledUntil.Some? && now < throttledUntil.value {
        return false;
      }
      inFlight := inFlight + 1;
      return true;
    }

    /** What is left of `do` once the answer is in. */
    method Receive(now: Time, answer: Answer) returns (r: DoResult)
      requires inFlight > 0
      modifies this
      ensures State() == Step(old(State()), Answers(now, answer))
      ensures throttledUntil == if answer == Status(429) then Some(now + 65 * SECOND) else old(throttledUntil)
      ensures r.Throttled? <==> answer == Status(429)
      ensures r.NotFound? <==> answer == Status(404)
      ensures r.Accepted? <==> answer.Status? && 200 <= answer.code <= 299
      ensures r.Failed? <==> answer.TransportError?
      ensures r.ApiError? ==> answer == Status(r.code)
      ensures r != ShortCircuited
    {
      inFlight := inFlight - 1;
      if answer.TransportError? {
        return Failed;
      }
      if answer.code == 429 {
        throttledUntil := Some(now + THROTTLE_WINDOW);
        return Throttled;
      }
      if answer.code == 404 {
        return NotFound;
      }
      if answer.code < 200 || answer.code > 299 {
        return ApiError(answer.code);
      }
      return Accepted;
    }

    /** One request with nobody else in between. */
    method Do(now: Time, answer: Answer, later: Time) returns (r: DoResult)
      modifies this
      ensures r.ShortCircuited? <==> old(throttledUntil).Some? && now < old(throttledUntil).value
      ensures State() == if Shut(old(State()), now) then old(State())
                         else Step(Step(old(State()), Asks(now)), Answers(later, answer))
    {
      var admitted := Ask(now);
      if !admitted {
        return ShortCircuited;
      }
      r := Receive(later, answer);
    }

    /** The deadline shown on the status page: there exactly while `Do` would short-circuit. */
    method ThrottledUntil(now: Time) returns (until: Option<Time>)
      ensures until == if throttledUntil.Some? && now < throttledUntil.value then throttledUntil else None
    {
      if throttledUntil.Some? && now < throttledUntil.value {
        return throttledUntil;
      }
      return None;
    }
  }

  // --- runs ---

  /** A history that a clock, `limit` concurrent callers, and this gate can produce. */
  ghost predicate Possible(g: Gate, es: seq<Event>, from: Time, limit: nat)
    decreases es
  {
    && g.inFlight <= limit
    && (es == [] ||
        (&& from <= es[0].at
         && (es[0].Answers? ==> g.inFlight > 0)
         && Possible(Step(g, es[0]), es[1..], es[0].at, limit)))
  }

  /** The gate after a history. */
  ghost function After(g: Gate, es: seq<Event>, from: Time, limit: nat): Gate
    requires Possible(g, es, from, limit)
    decreases es
  {
    if es == [] then g else After(Step(g, es[0]), es[1..], es[0].at, limit)
  }

  /** A deadline lies at most one window after the latest event. */
  predicate Plausible(g: Gate, from: Time) {
    g.throttledUntil.Some? ==> g.throttledUntil.value <= from + 65 * SECOND
  }

  /** How many 429s come in from `lo` to `hi`, both included. */
  function Count429(es: seq<Event>, lo: Time, hi: Time): nat
    decreases es
  {
    if es == [] then 0
    else (if Is429(es[0]) && lo <= es[0].at <= hi then 1 else 0) + Count429(es[1..], lo, hi)
  }

  predicate NoEarlier(a: Option<Time>, b: Option<Time>) {
    a.Some? ==> b.Some? && a.value <= b.value
  }

  /** The deadline never moves back. */
  lemma {:induction false} DeadlineNeverDecreases(g: Gate, es: seq<Event>, from: Time, limit: nat)
    requires Possible(g, es, from, limit) && Plausible(g, from)
    ensures NoEarlier(g.throttledUntil, After(g, es, from, limit).throttledUntil)
    decreases es
  {
    if es == [] {
    } else {
      DeadlineNeverDecreases(Step(g, es[0]), es[1..], es[0].at, limit);
    }
  }

  /** A 429 alone shuts the gate for 65 seconds, no less and no more. */
  lemma OpensAfterTheWindow(g: Gate, t: Time, at: Time)
    requires g.inFlight > 0
    ensures var shut := Step(g, Answers(t, Status(429)));
      Step(shut, Asks(at)).inFlight == (if at < t + 65 * SECOND then g.inFlight - 1 else g.inFlight)
  {
  }

  /** Once a 429 is recorded at `t`, whatever concurrent requests still bring in, no request is
      admitted for a whole window: only those already past the gate escape. */
  lemma {:induction false} NothingLeavesDuringTheWindow(g: Gate, es: seq<Event>, from: Time, limit: nat, t: Time,
      j: nat)
    requires Possible(g, es, from, limit) && Plausible(g, from)
    requires g.throttledUntil.Some? && t + 65 * SECOND <= g.throttledUntil.value
    requires j < |es| && es[j].Asks? && es[j].at < t + 65 * SECOND
    ensures Possible(g, es[..j], from, limit)
    ensures Shut(After(g, es[..j], from, limit), es[j].at)
    decreases es
  {
    if j > 0 {
      var g1 := Step(g, es[0]);
      NothingLeavesDuringTheWindow(g1, es[1..], es[0].at, limit, t, j - 1);
      assert es[..j][1..] == es[1..][..j - 1];
    }
  }

  /** While the gate is shut until past `hi`, the 429s up to `hi` are those already in flight. */
  lemma {:induction false} OnlyThoseInFlight(g: Gate, es: seq<Event>, from: Time, limit: nat, lo: Time, hi: Time)
    requires Possible(g, es, from, limit) && Plausible(g, from)
    requires g.throttledUntil.Some? && g.throttledUntil.value > hi
    ensures Count429(es, lo, hi) <= g.inFlight
    decreases es
  {
    if es == [] {
    } else {
      if es[0].at > hi {
        TooLate(g, es, from, limit, lo, hi);
      } else {
        OnlyThoseInFlight(Step(g, es[0]), es[1..], es[0].at, limit, lo, hi);
      }
    }
  }

  lemma {:induction false} TooLate(g: Gate, es: seq<Event>, from: Time, limit: nat, lo: Time, hi: Time)
    requires Possible(g, es, from, limit) && (es != [] ==> es[0].at > hi)
    ensures Count429(es, lo, hi) == 0
    decreases es
  {
    if es == [] {
    } else {
      assert es[1..] != [] ==> es[1..][0].at >= es[0].at;
      TooLate(Step(g, es[0]), es[1..], es[0].at, limit, lo, hi);
    }
  }

  /** One window sees at most one 429 per concurrent caller. */
  lemma {:induction false} OneBurst(g: Gate, es: seq<Event>, from: Time, limit: nat, lo: Time)
    requires Possible(g, es, from, limit) && Plausible(g, from)
    ensures Count429(es, lo, lo + 65 * SECOND - 1) <= limit
    decreases es
  {
    if es == [] {
    } else {
      var g1 := Step(g, es[0]);
      if Is429(es[0]) && lo <= es[0].at <= lo + 65 * SECOND - 1 {
        OnlyThoseInFlight(g1, es[1..], es[0].at, limit, lo, lo + 65 * SECOND - 1);
      } else {
        OneBurst(g1, es[1..], es[0].at, limit, lo);
      }
    }
  }

  lemma {:induction false} CountSplits(es: seq<Event>, lo: Time, mid: Time, hi: Time)
    requires lo <= mid <= hi + 1
    ensures Count429(es, lo, hi) == Count429(es, lo, mid - 1) + Count429(es, mid, hi)
    decreases es
  {
    if es == [] {
    } else {
      CountSplits(es[1..], lo, mid, hi);
    }
  }

  /** At most `limit` concurrent callers provoke at most `limit` 429s per 65 seconds begun: for
      sequential callers, any stretch of length T holds at most T / 65 s + 1. */
  lemma {:induction false} ThrottleBound(g: Gate, es: seq<Event>, from: Time, limit: nat, lo: Time, hi: Time)
    requires Possible(g, es, from, limit) && Plausible(g, from) && lo <= hi
    ensures Count429(es, lo, hi) <= limit * ((hi - lo) / (65 * SECOND) + 1)
    decreases hi - lo
  {
    OneBurst(g, es, from, limit, lo);
    if hi - lo < 65 * SECOND {
      CountSplits(es, lo, hi + 1, lo + 65 * SECOND - 1);
      assert (hi - lo) / (65 * SECOND) == 0;
    } else {
      var mid := lo + 65 * SECOND;
      CountSplits(es, lo, mid, hi);
      ThrottleBound(g, es, from, limit, mid, hi);
      var q := (hi - mid) / (65 * SECOND);
      assert (hi - lo) / (65 * SECOND) == q + 1;
      assert limit * (q + 1 + 1) == limit * (q + 1) + limit;
    }
  }
}
