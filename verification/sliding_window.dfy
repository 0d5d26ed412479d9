/**
 * The strict sliding-window limiter (core/rate_limit.py), over real time.
 *
 * One `Attempt` is what `acquire` does under the lock.  Time is read from a clock that never runs
 * backwards; callers may interleave in any way.
 */
module SlidingWindow {
  import opened Text

  datatype Window = Window(limit: int, length: real, times: seq<real>)

  /** Without the leading entries at or before the cutoff. */
  function Unexpired(times: seq<real>, cutoff: real): seq<real> {
    if times != [] && times[0] <= cutoff then Unexpired(times[1..], cutoff) else times
  }

  datatype Answer = Granted | Refused(wait: real)

  function Attempt(w: Window, now: real): (Window, Answer)
    requires w.limit > 0
  {
    var times := Unexpired(w.times, now - w.length);
    if |times| < w.limit then (w.(times := times + [now]), Granted)
    else
      var wait := times[0] + w.length - now;
      (w.(times := times), Refused(if wait > 0.0 then wait else 0.0))
  }

  /** The times at which the attempts at `nows` are granted. */
  ghost function Grants(w: Window, nows: seq<real>): seq<real>
    requires w.limit > 0
    decreases |nows|
  {
    if nows == [] then []
    else
      var (w', answer) := Attempt(w, nows[0]);
      (if answer.Granted? then [nows[0]] else []) + Grants(w', nows[1..])
  }

  // ----- counting -----

  ghost predicate Nondecreasing(s: seq<real>) {
    forall i, j | 0 <= i < j < |s| :: s[i] <= s[j]
  }

  /** An interval closed on the right, or on the left. */
  predicate In(x: real, lo: real, hi: real, right: bool) {
    if right then lo < x <= hi else lo <= x < hi
  }

  function CountIn(h: seq<real>, lo: real, hi: real, right: bool): nat {
    if h == [] then 0
    else CountIn(h[..|h| - 1], lo, hi, right) + if In(h[|h| - 1], lo, hi, right) then 1 else 0
  }

  lemma {:induction false} CountAtMost(h: seq<real>, k: nat, lo: real, hi: real, right: bool)
    requires k <= |h| && forall i | 0 <= i < k :: !In(h[i], lo, hi, right)
    ensures CountIn(h, lo, hi, right) <= |h| - k
    decreases |h|
  {
    if |h| > k {
      CountAtMost(h[..|h| - 1], k, lo, hi, right);
    } else if h != [] {
      CountAtMost(h[..|h| - 1], k - 1, lo, hi, right);
    }
  }

  /** Of what is in `gone` and then `kept`, exactly `kept` lies in the interval. */
  lemma {:induction false} CountKept(gone: seq<real>, kept: seq<real>, lo: real, hi: real)
    requires forall i | 0 <= i < |gone| :: gone[i] <= lo
    requires forall i | 0 <= i < |kept| :: lo < kept[i] <= hi
    ensures CountIn(gone + kept, lo, hi, true) == |kept|
    decreases |kept|
  {
    var h := gone + kept;
    if kept == [] {
      assert h == gone;
      CountAtMost(gone, |gone|, lo, hi, true);
    } else {
      assert h[..|h| - 1] == gone + kept[..|kept| - 1];
      CountKept(gone, kept[..|kept| - 1], lo, hi);
    }
  }

  // ----- the invariant -----

  /** Any `limit + 1` grants in a row span at least the window. */
  ghost predicate Spaced(h: seq<real>, limit: int, length: real) {
    forall i, j | 0 <= i < j < |h| && j - i >= limit :: h[j] - h[i] >= length
  }

  ghost predicate AllUpTo(s: seq<real>, bound: real) {
    forall i | 0 <= i < |s| :: s[i] <= bound
  }

  /**
   * All grants so far are `gone` and then the deque: what has left the deque is at least a window
   * old, and the deque never holds more than `limit` entries.
   */
  ghost predicate Inv(w: Window, gone: seq<real>, clock: real) {
    && w.limit > 0 && w.length > 0.0 && |w.times| <= w.limit
    && Nondecreasing(gone + w.times) && AllUpTo(gone + w.times, clock)
    && AllUpTo(gone, clock - w.length)
    && Spaced(gone + w.times, w.limit, w.length)
  }

  function Expired(times: seq<real>, cutoff: real): seq<real> {
    if times != [] && times[0] <= cutoff then [times[0]] + Expired(times[1..], cutoff) else []
  }

  lemma {:induction false} ExpiredShape(times: seq<real>, cutoff: real)
    ensures times == Expired(times, cutoff) + Unexpired(times, cutoff)
    ensures AllUpTo(Expired(times, cutoff), cutoff)
    ensures var kept := Unexpired(times, cutoff); kept != [] ==> kept[0] > cutoff
  {
    if times != [] && times[0] <= cutoff {
      ExpiredShape(times[1..], cutoff);
    }
  }

  /** Dropping what has expired keeps all grants, and what stays is what lies in the window. */
  lemma DropKeeps(w: Window, gone: seq<real>, clock: real, now: real)
    requires Inv(w, gone, clock) && clock <= now
    ensures var gone', kept := gone + Expired(w.times, now - w.length), Unexpired(w.times, now - w.length);
            && gone + w.times == gone' + kept && Inv(w.(times := kept), gone', now)
            && CountIn(gone + w.times, now - w.length, now, true) == |kept|
            && (kept != [] ==> kept[0] > now - w.length)
  {
    var cutoff := now - w.length;
    var dropped, kept := Expired(w.times, cutoff), Unexpired(w.times, cutoff);
    ExpiredShape(w.times, cutoff);
    Assoc(gone, dropped, kept);
    AllUpToJoin(gone, dropped, cutoff);
    KeptInWindow(gone + dropped, kept, cutoff, now);
    CountKept(gone + dropped, kept, cutoff, now);
  }

  lemma AllUpToJoin(a: seq<real>, b: seq<real>, bound: real)
    requires AllUpTo(a, bound) && AllUpTo(b, bound)
    ensures AllUpTo(a + b, bound)
  {
  }

  lemma KeptInWindow(gone: seq<real>, kept: seq<real>, cutoff: real, now: real)
    requires Nondecreasing(gone + kept) && AllUpTo(gone + kept, now) && (kept != [] ==> kept[0] > cutoff)
    ensures forall i | 0 <= i < |kept| :: cutoff < kept[i] <= now
  {
    var h := gone + kept;
    forall i | 0 <= i < |kept| ensures cutoff < kept[i] <= now {
      assert kept[i] == h[|gone| + i] && kept[0] == h[|gone|];
    }
  }

  lemma SpacedSnoc(gone: seq<real>, kept: seq<real>, limit: int, length: real, now: real)
    requires limit > 0 && Spaced(gone + kept, limit, length) && |kept| < limit && AllUpTo(gone, now - length)
    ensures Spaced(gone + (kept + [now]), limit, length)
  {
    var h, h' := gone + kept, gone + (kept + [now]);
    assert h' == h + [now];
    forall i, j | 0 <= i < j < |h'| && j - i >= limit ensures h'[j] - h'[i] >= length {
      assert h'[i] == h[i];
      if j == |h| {
        assert h[i] == gone[i];
      } else {
        assert h'[j] == h[j];
      }
    }
  }

  lemma GrantKeeps(w: Window, gone: seq<real>, now: real)
    requires Inv(w, gone, now) && |w.times| < w.limit
    ensures Inv(w.(times := w.times + [now]), gone, now)
    ensures gone + (w.times + [now]) == gone + w.times + [now]
  {
    SpacedSnoc(gone, w.times, w.limit, w.length, now);
    assert gone + (w.times + [now]) == gone + w.times + [now];
  }

  /** What has left the deque after an attempt. */
  function GoneAfter(w: Window, gone: seq<real>, now: real): seq<real> {
    gone + Expired(w.times, now - w.length)
  }

  /**
   * An attempt is granted exactly when fewer than `limit` grants lie in the window that ends now;
   * it is refused exactly when `limit` do, and then it is to wait until the oldest has expired.
   */
  lemma AttemptKeeps(w: Window, gone: seq<real>, clock: real, now: real)
    requires Inv(w, gone, clock) && clock <= now
    ensures var (w', answer) := Attempt(w, now); var gone' := GoneAfter(w, gone, now);
            && w'.limit == w.limit && w'.length == w.length && Inv(w', gone', now)
            && (answer.Granted? <==> CountIn(gone + w.times, now - w.length, now, true) < w.limit)
            && gone' + w'.times == gone + w.times + (if answer.Granted? then [now] else [])
            && (answer.Refused? ==> CountIn(gone + w.times, now - w.length, now, true) == w.limit
                                    && |w'.times| == w.limit && answer.wait == w'.times[0] + w.length - now
                                    && answer.wait > 0.0)
  {
    DropKeeps(w, gone, clock, now);
    var kept := w.(times := Unexpired(w.times, now - w.length));
    var h := gone + w.times;
    assert h + [] == h;
    if |kept.times| < w.limit {
      GrantKeeps(kept, GoneAfter(w, gone, now), now);
    }
  }

  /** Over any sequence of attempts the grants are spaced. */
  lemma {:induction false} GrantsKeep(w: Window, gone: seq<real>, clock: real, nows: seq<real>)
    requires Inv(w, gone, clock) && Nondecreasing(nows) && (nows != [] ==> clock <= nows[0])
    ensures Nondecreasing(gone + w.times + Grants(w, nows))
            && Spaced(gone + w.times + Grants(w, nows), w.limit, w.length)
    decreases |nows|
  {
    var h := gone + w.times;
    if nows == [] {
      assert h + [] == h;
    } else {
      AttemptKeeps(w, gone, clock, nows[0]);
      var (w', answer) := Attempt(w, nows[0]);
      NondecreasingRest(nows);
      GrantsKeep(w', GoneAfter(w, gone, nows[0]), nows[0], nows[1..]);
      Assoc(h, if answer.Granted? then [nows[0]] else [], Grants(w', nows[1..]));
    }
  }

  lemma NondecreasingRest(s: seq<real>)
    requires Nondecreasing(s) && s != []
    ensures Nondecreasing(s[1..]) && forall i | 0 <= i < |s| :: s[0] <= s[i]
  {
    assert forall i | 0 <= i < |s| - 1 :: s[1..][i] == s[i + 1];
  }

  /**
   * Grants that are spaced never crowd: no interval as long as the window, open at either end,
   * holds more than `limit`.
   */
  lemma {:induction false} SpacedNeverCrowds(h: seq<real>, limit: int, length: real, lo: real, right: bool)
    requires limit > 0 && Nondecreasing(h) && Spaced(h, limit, length)
    ensures CountIn(h, lo, lo + length, right) <= limit
    decreases |h|
  {
    if h != [] {
      var n := |h| - 1;
      if !In(h[n], lo, lo + length, right) {
        SpacedNeverCrowds(h[..n], limit, length, lo, right);
      } else if n >= limit {
        forall i | 0 <= i < n - limit + 1 ensures !In(h[i], lo, lo + length, right) {
          assert h[n] - h[i] >= length;
        }
        CountAtMost(h, n - limit + 1, lo, lo + length, right);
      } else {
        CountAtMost(h, 0, lo, lo + length, right);
      }
    }
  }

  /**
   * The promise of the limiter: whatever the callers do, no interval of the window's length sees
   * more than `limit` grants.
   */
  lemma AtMostLimitPerWindow(limit: int, length: real, nows: seq<real>, lo: real, right: bool)
    requires limit > 0 && length > 0.0 && Nondecreasing(nows)
    ensures CountIn(Grants(Window(limit, length, []), nows), lo, lo + length, right) <= limit
  {
    var w := Window(limit, length, []);
    if nows == [] {
    } else {
      GrantsKeep(w, [], nows[0], nows);
      assert [] + [] + Grants(w, nows) == Grants(w, nows);
      SpacedNeverCrowds(Grants(w, nows), limit, length, lo, right);
    }
  }

  /** The caller that is refused, waits as told and is then the first to try again, is admitted. */
  lemma AdmittedAfterOneWait(w: Window, gone: seq<real>, clock: real, now: real, later: real)
    requires Inv(w, gone, clock) && clock <= now
    requires Attempt(w, now).1.Refused? && later >= now + Attempt(w, now).1.wait
    ensures Attempt(Attempt(w, now).0, later).1.Granted?
  {
    AttemptKeeps(w, gone, clock, now);
    var w' := Attempt(w, now).0;
    assert w'.times[0] <= later - w.length;
    ExpiredShape(w'.times, later - w.length);
    assert Expired(w'.times, later - w.length) != [];
  }

  // ----- the limiter in place -----

  class StrictSlidingWindowLimiter {
    const limit: int
    const length: real
    var times: seq<real>
    ghost var gone: seq<real>
    ghost var clock: real

    ghost function View(): Window
      reads this
    {
      Window(limit, length, times)
    }

    /** All grants so far. */
    ghost function History(): seq<real>
      reads this
    {
      gone + times
    }

    ghost predicate Valid()
      reads this
    {
      Inv(View(), gone, clock)
    }

    constructor Make(limit: int, length: real, ghost start: real)
      requires limit > 0 && length > 0.0
      ensures Valid() && View() == Window(limit, length, []) && History() == [] && clock == start
    {
      this.limit, this.length, times := limit, length, [];
      gone, clock := [], start;
    }

    method DropExpired(cutoff: real)
      modifies this
      ensures times == Unexpired(old(times), cutoff) && gone == old(gone) && clock == old(clock)
    {
      while times != [] && times[0] <= cutoff
        invariant Unexpired(times, cutoff) == Unexpired(old(times), cutoff)
        invariant gone == old(gone) && clock == old(clock)
        decreases |times|
      {
        times := times[1..];
      }
    }

    /** One pass through the lock of `acquire`. */
    method TryAcquire(now: real) returns (granted: bool, wait: real)
      requires Valid() && clock <= now
      modifies this
      ensures Valid() && clock == now
      ensures (View(), if granted then Granted else Refused(wait)) == Attempt(old(View()), now)
      ensures granted <==> CountIn(old(History()), now - length, now, true) < limit
      ensures History() == old(History()) + if granted then [now] else []
    {
      ghost var w := View();
      AttemptKeeps(w, gone, clock, now);
      DropExpired(now - length);
      gone, clock := GoneAfter(w, gone, now), now;
      granted, wait := |times| < limit, 0.0;
      if granted {
        times := times + [now];
        return;
      }
      wait := times[0] + length - now;
      if wait < 0.0 {
        wait := 0.0;
      }
    }

    /** `acquire` of a caller whose clock readings are `readings`: it retries until it is granted. */
    method Acquire(readings: seq<real>) returns (tries: nat, granted: bool)
      requires Valid() && Nondecreasing(readings) && (readings != [] ==> clock <= readings[0])
      modifies this
      ensures Valid() && tries <= |readings|
      ensures if granted then tries > 0 && History() == old(History()) + [readings[tries - 1]]
              else tries == |readings| && History() == old(History())
      ensures |readings| > 1 && WaitsAsTold(old(View()), readings[0], readings[1]) ==> granted && tries <= 2
    {
      tries, granted := 0, false;
      ghost var w, g, c := View(), gone, clock;
      while tries < |readings| && !granted
        invariant Valid() && tries <= |readings|
        invariant tries < |readings| ==> clock <= readings[tries]
        invariant if granted then tries > 0 && History() == old(History()) + [readings[tries - 1]]
                  else History() == old(History())
        invariant if granted then tries > 0 && RefusedUpTo(w, readings, tries - 1) else RefusedUpTo(w, readings, tries)
        invariant !granted ==> View() == AfterTries(w, readings, tries)
        decreases |readings| - tries
      {
        var wait;
        granted, wait := TryAcquire(readings[tries]);
        tries := tries + 1;
      }
      if |readings| > 1 && WaitsAsTold(w, readings[0], readings[1]) {
        RefusedAtMostOnce(w, g, c, readings, if granted then tries - 1 else tries);
      }
    }
  }

  lemma RefusedAtMostOnce(w: Window, gone: seq<real>, clock: real, readings: seq<real>, n: nat)
    requires Inv(w, gone, clock) && |readings| > 1 && clock <= readings[0] && WaitsAsTold(w, readings[0], readings[1])
    requires n <= |readings| && RefusedUpTo(w, readings, n)
    ensures n < 2
  {
    NotRefusedTwice(w, gone, clock, readings);
    RefusedSooner(w, readings, n, 2);
  }

  lemma RefusedSooner(w: Window, readings: seq<real>, n: nat, m: nat)
    requires w.limit > 0 && n <= |readings| && m <= |readings| && RefusedUpTo(w, readings, n)
    ensures m <= n ==> RefusedUpTo(w, readings, m)
  {
  }

  lemma NotRefusedTwice(w: Window, gone: seq<real>, clock: real, readings: seq<real>)
    requires Inv(w, gone, clock) && |readings| > 1 && clock <= readings[0] && WaitsAsTold(w, readings[0], readings[1])
    ensures !RefusedUpTo(w, readings, 2)
  {
    assert AfterTries(w, readings, 0) == w && AfterTries(w, readings, 1) == Attempt(w, readings[0]).0;
    if Attempt(w, readings[0]).1.Refused? {
      AdmittedAfterOneWait(w, gone, clock, readings[0], readings[1]);
      assert !Attempt(AfterTries(w, readings, 1), readings[1]).1.Refused?;
    } else {
      assert !Attempt(AfterTries(w, readings, 0), readings[0]).1.Refused?;
    }
  }

  /** The second reading is no earlier than a refusal at the first one says. */
  predicate WaitsAsTold(w: Window, first: real, second: real)
    requires w.limit > 0
  {
    Attempt(w, first).1.Refused? ==> second >= first + Attempt(w, first).1.wait
  }

  /** The window after the first `n` attempts. */
  ghost function AfterTries(w: Window, readings: seq<real>, n: nat): (w': Window)
    requires w.limit > 0 && n <= |readings|
    ensures w'.limit == w.limit
  {
    if n == 0 then w else Attempt(AfterTries(w, readings, n - 1), readings[n - 1]).0
  }

  ghost predicate RefusedUpTo(w: Window, readings: seq<real>, n: nat)
    requires w.limit > 0 && n <= |readings|
  {
    forall i | 0 <= i < n :: Attempt(AfterTries(w, readings, i), readings[i]).1.Refused?
  }

  /** The constructor's checks: None is its error. */
  method Create(limit: int, length: real, ghost start: real) returns (limiter: StrictSlidingWindowLimiter?)
    ensures limiter != null <==> limit > 0 && length > 0.0
    ensures limiter != null ==>
              fresh(limiter) && limiter.Valid() && limiter.View() == Window(limit, length, [])
                && limiter.History() == []
  {
    if limit <= 0 || length <= 0.0 {
      return null;
    }
    limiter := new StrictSlidingWindowLimiter.Make(limit, length, start);
  }
}
