/** Folding a burst of relative mouse moves into fewer messages
    (crates/ms-protocol/src/coalesce.rs). */
module Coalescer {
  import opened Messages

  datatype Emission = Emission(dx: real, dy: real, number: int)

  /** `interval` and the instants are in the clock's smallest unit. */
  datatype Coalescing = Coalescing(
    interval: nat, threshold: real, pendingDx: real, pendingDy: real, lastFlush: Option<int>, number: int)

  function Initial(interval: nat, threshold: real): Coalescing {
    Coalescing(interval, threshold, 0.0, 0.0, None, 0)
  }

  /** sqrt(dx^2 + dy^2) >= threshold, without the root. */
  predicate Reaches(dx: real, dy: real, threshold: real) {
    threshold <= 0.0 || dx * dx + dy * dy >= threshold * threshold
  }

  /** Saturating, as `Instant::duration_since`. */
  function Elapsed(now: int, earlier: int): int {
    if now >= earlier then now - earlier else 0
  }

  function FlushOf(c: Coalescing, now: int): (Coalescing, Option<Emission>) {
    if c.pendingDx == 0.0 && c.pendingDy == 0.0 then (c, None)
    else
      var number := (c.number + 1) % TWO32;
      (c.(pendingDx := 0.0, pendingDy := 0.0, lastFlush := Some(now), number := number),
       Some(Emission(c.pendingDx, c.pendingDy, number)))
  }

  function PushOf(c: Coalescing, dx: real, dy: real, now: int): (Coalescing, Option<Emission>) {
    var grown := c.(pendingDx := c.pendingDx + dx, pendingDy := c.pendingDy + dy);
    var due := c.lastFlush.None? || Elapsed(now, c.lastFlush.value) >= c.interval;
    if due || Reaches(grown.pendingDx, grown.pendingDy, c.threshold) then FlushOf(grown, now) else (grown, None)
  }

  class MouseMoveCoalescer {
    const minInterval: nat
    const flushThresholdPx: real
    var pendingDx: real
    var pendingDy: real
    var lastFlush: Option<int>
    var number: int

    function View(): Coalescing
      reads this
    {
      Coalescing(minInterval, flushThresholdPx, pendingDx, pendingDy, lastFlush, number)
    }

    constructor (minInterval: nat, flushThresholdPx: real)
      ensures View() == Initial(minInterval, flushThresholdPx)
    {
      this.minInterval := minInterval;
      this.flushThresholdPx := flushThresholdPx;
      pendingDx, pendingDy, lastFlush, number := 0.0, 0.0, None, 0;
    }

    method Push(dx: real, dy: real, now: int) returns (emitted: Option<Emission>)
      modifies this
      ensures (View(), emitted) == PushOf(old(View()), dx, dy, now)
    {
      pendingDx := pendingDx + dx;
      pendingDy := pendingDy + dy;
      var elapsedEnough := lastFlush.None? || Elapsed(now, lastFlush.value) >= minInterval;
      if elapsedEnough || Reaches(pendingDx, pendingDy, flushThresholdPx) {
        emitted := Flush(now);
      } else {
        emitted := None;
      }
    }

    method Flush(now: int) returns (emitted: Option<Emission>)
      modifies this
      ensures (View(), emitted) == FlushOf(old(View()), now)
    {
      if pendingDx == 0.0 && pendingDy == 0.0 {
        return None;
      }
      var dx, dy := pendingDx, pendingDy;
      pendingDx := 0.0;
      pendingDy := 0.0;
      lastFlush := Some(now);
      number := (number + 1) % TWO32;
      emitted := Some(Emission(dx, dy, number));
    }
  }

  // ----- When a call sends -----

  /** A push with movement to send sends all of it exactly if nothing was sent before,
      the interval since the last message is over, or the movement reaches the threshold;
      otherwise it keeps all of it. With none, nothing happens. */
  lemma PushExactly(c: Coalescing, dx: real, dy: real, now: int)
    ensures var (next, emitted) := PushOf(c, dx, dy, now);
            var x, y := c.pendingDx + dx, c.pendingDy + dy;
            var due := c.lastFlush.None? || c.interval == 0 || now - c.lastFlush.value >= c.interval;
            var large := c.threshold <= 0.0 || x * x + y * y >= c.threshold * c.threshold;
            && (emitted.Some? <==> (x != 0.0 || y != 0.0) && (due || large))
            && (emitted.Some? ==>
                  && emitted.value == Emission(x, y, (c.number + 1) % TWO32)
                  && next == Coalescing(c.interval, c.threshold, 0.0, 0.0, Some(now), (c.number + 1) % TWO32))
            && (emitted.None? ==> next == Coalescing(c.interval, c.threshold, x, y, c.lastFlush, c.number))
  {
  }

  /** A flush sends all there is, whatever the clock says. */
  lemma FlushExactly(c: Coalescing, now: int)
    ensures var (next, emitted) := FlushOf(c, now);
            var number := (c.number + 1) % TWO32;
            if c.pendingDx == 0.0 && c.pendingDy == 0.0 then next == c && emitted == None
            else emitted == Some(Emission(c.pendingDx, c.pendingDy, number))
                 && next == Coalescing(c.interval, c.threshold, 0.0, 0.0, Some(now), number)
  {
  }

  // ----- Runs -----

  datatype Call = Push(dx: real, dy: real, now: int) | Flush(now: int)

  datatype Trace = Trace(state: Coalescing, emitted: seq<Emission>)

  function Perform(c: Coalescing, call: Call): (Coalescing, Option<Emission>) {
    match call
    case Push(dx, dy, now) => PushOf(c, dx, dy, now)
    case Flush(now) => FlushOf(c, now)
  }

  function After(interval: nat, threshold: real, calls: seq<Call>): Trace {
    if calls == [] then Trace(Initial(interval, threshold), [])
    else
      var before := After(interval, threshold, calls[..|calls| - 1]);
      var (state, emitted) := Perform(before.state, calls[|calls| - 1]);
      Trace(state, if emitted.Some? then before.emitted + [emitted.value] else before.emitted)
  }

  function SumDx(emitted: seq<Emission>): real {
    if emitted == [] then 0.0 else SumDx(emitted[..|emitted| - 1]) + emitted[|emitted| - 1].dx
  }

  function SumDy(emitted: seq<Emission>): real {
    if emitted == [] then 0.0 else SumDy(emitted[..|emitted| - 1]) + emitted[|emitted| - 1].dy
  }

  function PushedDx(calls: seq<Call>): real {
    if calls == [] then 0.0
    else PushedDx(calls[..|calls| - 1]) + if calls[|calls| - 1].Push? then calls[|calls| - 1].dx else 0.0
  }

  function PushedDy(calls: seq<Call>): real {
    if calls == [] then 0.0
    else PushedDy(calls[..|calls| - 1]) + if calls[|calls| - 1].Push? then calls[|calls| - 1].dy else 0.0
  }

  /** No movement is lost, invented or sent twice, whatever the calls and the clock. */
  lemma {:induction false} MovementConserved(interval: nat, threshold: real, calls: seq<Call>)
    ensures var t := After(interval, threshold, calls);
            && SumDx(t.emitted) + t.state.pendingDx == PushedDx(calls)
            && SumDy(t.emitted) + t.state.pendingDy == PushedDy(calls)
  {
    if calls != [] {
      var before := After(interval, threshold, calls[..|calls| - 1]);
      MovementConserved(interval, threshold, calls[..|calls| - 1]);
      var emitted := Perform(before.state, calls[|calls| - 1]).1;
      if emitted.Some? {
        assert (before.emitted + [emitted.value])[..|before.emitted|] == before.emitted;
      }
    }
  }

  /** The k-th message carries k modulo 2^32, counting from one. */
  lemma {:induction false} EmissionsNumbered(interval: nat, threshold: real, calls: seq<Call>)
    ensures var t := After(interval, threshold, calls);
            && t.state.number == |t.emitted| % TWO32
            && forall k :: 0 <= k < |t.emitted| ==> t.emitted[k].number == (k + 1) % TWO32
  {
    if calls != [] {
      var before, last := After(interval, threshold, calls[..|calls| - 1]), calls[|calls| - 1];
      EmissionsNumbered(interval, threshold, calls[..|calls| - 1]);
      NumberStep(before.state, last, |before.emitted|);
    }
  }

  lemma NumberStep(c: Coalescing, call: Call, count: nat)
    requires c.number == count % TWO32
    ensures var (state, emitted) := Perform(c, call);
            if emitted.Some? then state.number == (count + 1) % TWO32 && emitted.value.number == state.number
            else state.number == count % TWO32
  {
  }

  /** Movement is never withheld for long or in quantity: if some is pending after any
      calls, the last one was a push less than an interval after the last message, and
      the movement is below the threshold. */
  lemma {:induction false} PendingIsRecentAndSmall(interval: nat, threshold: real, calls: seq<Call>)
    ensures var c := After(interval, threshold, calls).state;
            c.pendingDx != 0.0 || c.pendingDy != 0.0 ==>
              && calls != [] && calls[|calls| - 1].Push?
              && c.lastFlush.Some? && calls[|calls| - 1].now - c.lastFlush.value < interval
              && threshold > 0.0 && c.pendingDx * c.pendingDx + c.pendingDy * c.pendingDy < threshold * threshold
  {
    if calls != [] {
      var c, last := After(interval, threshold, calls[..|calls| - 1]).state, calls[|calls| - 1];
      Constants(interval, threshold, calls[..|calls| - 1]);
      if last.Push? {
        PushExactly(c, last.dx, last.dy, last.now);
      } else {
        FlushExactly(c, last.now);
      }
    }
  }

  // ----- Rate -----

  function Abs(x: real): real {
    if x < 0.0 then -x else x
  }

  /** Total movement pushed, each sample measured along both axes. */
  function Path(calls: seq<Call>): real {
    if calls == [] then 0.0
    else
      var last := calls[|calls| - 1];
      Path(calls[..|calls| - 1]) + if last.Push? then Abs(last.dx) + Abs(last.dy) else 0.0
  }

  /** The clock does not go back from call to call. */
  ghost predicate Forward(calls: seq<Call>) {
    forall i, j :: 0 <= i <= j < |calls| ==> calls[i].now <= calls[j].now
  }

  /** How often the caller forces a message. */
  function Flushes(calls: seq<Call>): nat {
    if calls == [] then 0
    else Flushes(calls[..|calls| - 1]) + if calls[|calls| - 1].Flush? then 1 else 0
  }

  lemma SquareLess(u: real, t: real)
    requires 0.0 <= u < t
    ensures u * u < t * t
  {
    assert t * t - u * u == (t - u) * t + (t - u) * u;
    assert (t - u) * t > 0.0 && (t - u) * u >= 0.0;
  }

  lemma SquareOfSum(x: real, y: real)
    requires x >= 0.0 && y >= 0.0
    ensures (x + y) * (x + y) >= x * x + y * y
  {
    assert (x + y) * (x + y) == x * x + 2.0 * (x * y) + y * y;
  }

  lemma ReachMeansPath(dx: real, dy: real, threshold: real)
    requires threshold > 0.0 && Reaches(dx, dy, threshold)
    ensures Abs(dx) + Abs(dy) >= threshold
  {
    var x, y := Abs(dx), Abs(dy);
    assert x * x == dx * dx && y * y == dy * dy;
    SquareOfSum(x, y);
    if x + y < threshold {
      SquareLess(x + y, threshold);
    }
  }

  /** What a push does: fold, or send everything for one of three reasons. */
  lemma PushCause(c: Coalescing, dx: real, dy: real, now: int)
    requires c.threshold > 0.0
    ensures var (state, emitted) := PushOf(c, dx, dy, now);
            && state.interval == c.interval && state.threshold == c.threshold
            && (emitted.None? ==>
                  state.lastFlush == c.lastFlush
                  && state.pendingDx == c.pendingDx + dx && state.pendingDy == c.pendingDy + dy)
            && (emitted.Some? ==>
                  && state.lastFlush == Some(now) && state.pendingDx == 0.0 && state.pendingDy == 0.0
                  && (c.lastFlush.None? || Elapsed(now, c.lastFlush.value) >= c.interval
                      || Abs(c.pendingDx + dx) + Abs(c.pendingDy + dy) >= c.threshold))
  {
    if Reaches(c.pendingDx + dx, c.pendingDy + dy, c.threshold) {
      ReachMeansPath(c.pendingDx + dx, c.pendingDy + dy, c.threshold);
    }
  }

  /** What pays for `count` messages: one is free, `byTime` came an interval apart,
      `byPath` carried at least the threshold, `byFlush` were forced. `spent` and
      `walked` are the time and the movement these account for, `recent` the movement
      pushed since. */
  datatype Bill = Bill(byTime: nat, byPath: nat, byFlush: nat, spent: int, walked: real, recent: real)

  /** n * d, as the repeated sum it is here. */
  function Times(n: nat, d: real): real {
    if n == 0 then 0.0 else Times(n - 1, d) + d
  }

  lemma {:induction false} TimesIsProduct(n: nat, d: real)
    ensures Times(n, d) == n as real * d
  {
    if n > 0 {
      TimesIsProduct(n - 1, d);
      assert (n - 1) as real * d + d == n as real * d;
    }
  }

  ghost predicate Priced(b: Bill, c: Coalescing) {
    b.spent as real == Times(b.byTime, c.interval as real) && b.walked == Times(b.byPath, c.threshold)
  }

  ghost predicate Paid(b: Bill, count: nat, c: Coalescing, start: int, path: real) {
    && (c.lastFlush.None? ==> count == 0 && b.spent == 0 && b.walked == 0.0)
    && (c.lastFlush.Some? ==> count <= 1 + b.byTime + b.byPath + b.byFlush && b.spent <= c.lastFlush.value - start)
    && Abs(c.pendingDx) + Abs(c.pendingDy) <= b.recent
    && b.walked <= path - b.recent
  }

  /** The movement a call adds. */
  function Added(call: Call): real {
    if call.Push? then Abs(call.dx) + Abs(call.dy) else 0.0
  }

  function NextBill(b: Bill, c: Coalescing, call: Call): Bill {
    if Perform(c, call).1.None? then b.(recent := b.recent + Added(call))
    else if c.lastFlush.None? then b.(recent := 0.0)
    else if call.Flush? then b.(byFlush := b.byFlush + 1, recent := 0.0)
    else if Elapsed(call.now, c.lastFlush.value) >= c.interval
    then b.(byTime := b.byTime + 1, spent := b.spent + c.interval, recent := 0.0)
    else b.(byPath := b.byPath + 1, walked := b.walked + c.threshold, recent := 0.0)
  }

  lemma NextPriced(b: Bill, c: Coalescing, call: Call)
    requires Priced(b, c)
    ensures Priced(NextBill(b, c, call), c)
  {
  }

  lemma PaidStep(b: Bill, count: nat, c: Coalescing, start: int, path: real, call: Call)
    requires Paid(b, count, c, start, path) && c.threshold > 0.0
    requires call.now >= start && (c.lastFlush.Some? ==> c.lastFlush.value <= call.now)
    ensures var (state, emitted) := Perform(c, call);
            Paid(NextBill(b, c, call), if emitted.Some? then count + 1 else count, state, start, path + Added(call))
  {
    if call.Push? { PushCause(c, call.dx, call.dy, call.now); }
  }

  function BillOf(interval: nat, threshold: real, calls: seq<Call>): Bill {
    if calls == [] then Bill(0, 0, 0, 0, 0.0, 0.0)
    else
      var before := calls[..|calls| - 1];
      NextBill(BillOf(interval, threshold, before), After(interval, threshold, before).state, calls[|calls| - 1])
  }

  lemma {:induction false} ForcedAtMost(interval: nat, threshold: real, calls: seq<Call>)
    ensures BillOf(interval, threshold, calls).byFlush <= Flushes(calls)
  {
    if calls != [] {
      ForcedAtMost(interval, threshold, calls[..|calls| - 1]);
    }
  }

  lemma {:induction false} Constants(interval: nat, threshold: real, calls: seq<Call>)
    ensures var c := After(interval, threshold, calls).state;
            c.interval == interval && c.threshold == threshold
  {
    if calls != [] {
      Constants(interval, threshold, calls[..|calls| - 1]);
    }
  }

  lemma {:induction false} RunPriced(interval: nat, threshold: real, calls: seq<Call>)
    ensures Priced(BillOf(interval, threshold, calls), Initial(interval, threshold))
  {
    if calls != [] {
      var before := calls[..|calls| - 1];
      RunPriced(interval, threshold, before);
      Constants(interval, threshold, before);
      NextPriced(BillOf(interval, threshold, before), After(interval, threshold, before).state, calls[|calls| - 1]);
    }
  }

  lemma {:induction false} RunPaid(interval: nat, threshold: real, calls: seq<Call>, start: int)
    requires threshold > 0.0 && Forward(calls) && (calls != [] ==> start <= calls[0].now)
    ensures var t := After(interval, threshold, calls);
            && (t.state.lastFlush.Some? ==> calls != [] && t.state.lastFlush.value <= calls[|calls| - 1].now)
            && Paid(BillOf(interval, threshold, calls), |t.emitted|, t.state, start, Path(calls))
  {
    if calls != [] {
      var before, last := calls[..|calls| - 1], calls[|calls| - 1];
      var t := After(interval, threshold, before);
      RunPaid(interval, threshold, before, start);
      Constants(interval, threshold, before);
      assert before != [] ==> before[|before| - 1] == calls[|calls| - 2];
      if last.Push? { PushCause(t.state, last.dx, last.dy, last.now); }
      PaidStep(BillOf(interval, threshold, before), |t.emitted|, t.state, start, Path(before), last);
    }
  }

  lemma PaidBound(b: Bill, count: nat, c: Coalescing, start: int, end: int, path: real, interval: nat, threshold: real)
    requires interval > 0 && threshold > 0.0 && start <= end && path >= 0.0
    requires Priced(b, Initial(interval, threshold)) && Paid(b, count, c, start, path)
    requires c.lastFlush.Some? ==> c.lastFlush.value <= end
    ensures count <= 1 + (end - start) / interval + (path / threshold).Floor + b.byFlush
  {
    TimesIsProduct(b.byPath, threshold);
    TimesAtMost(b.byTime, interval, end - start);
    AtMostRealQuotient(b.byPath, threshold, path);
  }

  lemma TimesAtMost(n: nat, d: nat, total: int)
    requires d > 0 && Times(n, d as real) <= total as real
    ensures n <= total / d
  {
    TimesIsProduct(n, d as real);
    assert n as real * d as real == (n * d) as real;
    AtMostQuotient(n, d, total);
  }

  /** With a clock that does not go back: one message, plus one per elapsed interval,
      plus one per threshold of movement, plus one per flush. */
  lemma {:induction false} RateBound(interval: nat, threshold: real, calls: seq<Call>)
    requires interval > 0 && threshold > 0.0 && Forward(calls) && calls != []
    ensures var elapsed := calls[|calls| - 1].now - calls[0].now;
            |After(interval, threshold, calls).emitted|
            <= 1 + elapsed / interval + (Path(calls) / threshold).Floor + Flushes(calls)
  {
    RunPriced(interval, threshold, calls);
    RunPaid(interval, threshold, calls, calls[0].now);
    PathNonNegative(calls);
    ForcedAtMost(interval, threshold, calls);
    var t := After(interval, threshold, calls);
    PaidBound(BillOf(interval, threshold, calls), |t.emitted|, t.state, calls[0].now, calls[|calls| - 1].now,
              Path(calls), interval, threshold);
  }

  lemma {:induction false} PathNonNegative(calls: seq<Call>)
    ensures Path(calls) >= 0.0
  {
    if calls != [] {
      PathNonNegative(calls[..|calls| - 1]);
    }
  }

  lemma MulAtLeast(k: int, d: int)
    requires k >= 1 && d > 0
    ensures k * d >= d
  {
    assert k * d == (k - 1) * d + d;
  }

  lemma AtMostQuotient(n: nat, d: int, total: int)
    requires d > 0 && n * d <= total
    ensures n <= total / d
  {
    var q := total / d;
    assert total == q * d + total % d;
    assert n * d == (n - q) * d + q * d;
    if n - q >= 1 {
      MulAtLeast(n - q, d);
    }
  }

  lemma MulMore(n: real, q: real, d: real)
    requires n > q && d > 0.0
    ensures n * d > q * d
  {
  }

  lemma AtMostRealQuotient(n: nat, d: real, total: real)
    requires d > 0.0 && n as real * d <= total
    ensures n <= (total / d).Floor
  {
    var q := total / d;
    assert q * d == total;
    if n as real > q {
      MulMore(n as real, q, d);
    }
  }

  // ----- When the interval alone bounds the rate -----

  /** When each call came, how many messages had been sent before it, and when the
      last of those was. */
  datatype Log = Log(nows: seq<int>, counts: seq<int>, lasts: seq<Option<int>>)

  /** Call `j` sent nothing, or one message. */
  ghost predicate RecordedAt(log: Log, j: nat)
    requires j < |log.nows| && |log.counts| == |log.nows| + 1 && |log.lasts| == |log.nows| + 1
  {
    || (log.counts[j + 1] == log.counts[j] && log.lasts[j + 1] == log.lasts[j])
    || (log.counts[j + 1] == log.counts[j] + 1 && log.lasts[j + 1] == Some(log.nows[j]))
  }

  ghost predicate Recorded(log: Log) {
    && |log.counts| == |log.nows| + 1 && |log.lasts| == |log.nows| + 1 && log.lasts[0] == None
    && (forall j :: 0 <= j < |log.nows| ==> RecordedAt(log, j))
    && (forall i, j :: 0 <= i <= j < |log.nows| ==> log.nows[i] <= log.nows[j])
  }

  /** Call `j` sent a message less than an interval after the one before it. */
  ghost predicate TooSoon(log: Log, interval: nat, j: nat)
    requires Recorded(log) && j < |log.nows|
  {
    log.counts[j + 1] == log.counts[j] + 1 && log.lasts[j].Some? && Elapsed(log.nows[j], log.lasts[j].value) < interval
  }

  /** One message, and one more per interval elapsed. */
  predicate AtRate(count: int, elapsed: int, interval: nat)
    requires interval > 0
  {
    count <= 1 + elapsed / interval
  }

  ghost predicate LogWindow(log: Log, interval: nat, i: nat, j: nat)
    requires interval > 0 && Recorded(log) && i <= j < |log.nows|
  {
    AtRate(log.counts[j + 1] - log.counts[i], log.nows[j] - log.nows[i], interval)
  }

  ghost predicate LogCapped(log: Log, interval: nat)
    requires interval > 0 && Recorded(log)
  {
    forall i, j :: 0 <= i <= j < |log.nows| ==> LogWindow(log, interval, i, j)
  }

  /** `n` messages from `start` to `now`, the last at `last`, an interval apart. */
  predicate Spread(n: int, last: Option<int>, interval: nat, start: int, now: int) {
    && n >= 0
    && (n >= 1 ==> last.Some? && last.value <= now && Times(n - 1, interval as real) <= (last.value - start) as real)
  }

  lemma {:induction false} LogSpread(log: Log, interval: nat, i: nat, j: nat)
    requires Recorded(log) && i <= j < |log.nows|
    requires forall k :: 0 <= k < |log.nows| ==> !TooSoon(log, interval, k)
    ensures Spread(log.counts[j + 1] - log.counts[i], log.lasts[j + 1], interval, log.nows[i], log.nows[j])
    decreases j
  {
    assert RecordedAt(log, j) && !TooSoon(log, interval, j);
    if i < j {
      LogSpread(log, interval, i, j - 1);
    }
  }

  /** The call that sent the latest message. */
  lemma {:induction false} LatestSender(log: Log, n: nat) returns (m: nat)
    requires Recorded(log) && n <= |log.nows| && log.lasts[n].Some?
    ensures m < n && log.lasts[n] == Some(log.nows[m]) && log.counts[n] == log.counts[m] + 1
  {
    assert RecordedAt(log, n - 1);
    if log.counts[n] == log.counts[n - 1] + 1 {
      m := n - 1;
    } else {
      m := LatestSender(log, n - 1);
    }
  }

  lemma SmallQuotient(n: int, d: int)
    requires 0 <= n < d
    ensures n / d == 0
  {
  }

  /** A message sent too soon and the one before it overfill their window. */
  lemma TooSoonOverfills(log: Log, interval: nat, j: nat)
    requires interval > 0 && Recorded(log) && j < |log.nows| && TooSoon(log, interval, j)
    ensures !LogCapped(log, interval)
  {
    var m := LatestSender(log, j);
    SmallQuotient(log.nows[j] - log.nows[m], interval);
    assert !LogWindow(log, interval, m, j);
  }

  lemma WindowCapped(log: Log, interval: nat, i: nat, j: nat)
    requires interval > 0 && Recorded(log) && i <= j < |log.nows|
    requires forall k :: 0 <= k < |log.nows| ==> !TooSoon(log, interval, k)
    ensures LogWindow(log, interval, i, j)
  {
    LogSpread(log, interval, i, j);
    SpreadCaps(log.counts[j + 1] - log.counts[i], log.lasts[j + 1], interval, log.nows[i], log.nows[j]);
  }

  lemma SpreadCaps(n: int, last: Option<int>, interval: nat, start: int, now: int)
    requires interval > 0 && Spread(n, last, interval, start, now) && start <= now
    ensures AtRate(n, now - start, interval)
  {
    if n >= 1 {
      TimesAtMost(n - 1, interval, now - start);
    }
  }

  /** A call that sends before the interval is over: the movement is large, or the
      caller forces it. */
  predicate Early(c: Coalescing, call: Call) {
    && c.lastFlush.Some? && Elapsed(call.now, c.lastFlush.value) < c.interval
    && var dx := c.pendingDx + if call.Push? then call.dx else 0.0;
    var dy := c.pendingDy + if call.Push? then call.dy else 0.0;
    (dx != 0.0 || dy != 0.0) && (call.Flush? || Reaches(dx, dy, c.threshold))
  }

  ghost predicate NeverEarly(interval: nat, threshold: real, calls: seq<Call>) {
    forall j :: 0 <= j < |calls| ==> !Early(After(interval, threshold, calls[..j]).state, calls[j])
  }

  /** Messages sent before call number `n`. */
  function SentBefore(interval: nat, threshold: real, calls: seq<Call>, n: nat): nat
    requires n <= |calls|
  {
    |After(interval, threshold, calls[..n]).emitted|
  }

  /** Calls `i` to `j` sent one message, and one more per interval between them. */
  predicate Window(interval: nat, threshold: real, calls: seq<Call>, i: nat, j: nat)
    requires interval > 0 && i <= j < |calls|
  {
    AtRate(SentBefore(interval, threshold, calls, j + 1) - SentBefore(interval, threshold, calls, i),
           calls[j].now - calls[i].now, interval)
  }

  /** That, of every window of calls. */
  ghost predicate Capped(interval: nat, threshold: real, calls: seq<Call>)
    requires interval > 0
  {
    forall i, j :: 0 <= i <= j < |calls| ==> Window(interval, threshold, calls, i, j)
  }

  /** What call number `j` does to the count and to the time of the last message. */
  lemma CallAt(interval: nat, threshold: real, calls: seq<Call>, j: nat)
    requires j < |calls|
    ensures var c, d := After(interval, threshold, calls[..j]).state, After(interval, threshold, calls[..j + 1]).state;
            var sends := SentBefore(interval, threshold, calls, j + 1) - SentBefore(interval, threshold, calls, j);
            && ((sends == 0 && d.lastFlush == c.lastFlush) || (sends == 1 && d.lastFlush == Some(calls[j].now)))
            && (Early(c, calls[j]) <==>
                sends == 1 && c.lastFlush.Some? && Elapsed(calls[j].now, c.lastFlush.value) < interval)
  {
    assert calls[..j + 1][..j] == calls[..j];
    Constants(interval, threshold, calls[..j]);
  }

  function LogOf(interval: nat, threshold: real, calls: seq<Call>): Log {
    Log(seq(|calls|, k requires 0 <= k < |calls| => calls[k].now),
        seq(|calls| + 1, k requires 0 <= k <= |calls| => SentBefore(interval, threshold, calls, k)),
        seq(|calls| + 1, k requires 0 <= k <= |calls| => After(interval, threshold, calls[..k]).state.lastFlush))
  }

  lemma LogRecords(interval: nat, threshold: real, calls: seq<Call>)
    requires Forward(calls)
    ensures var log := LogOf(interval, threshold, calls);
            && |log.nows| == |calls| && Recorded(log)
            && forall j :: 0 <= j < |calls| ==>
                             (TooSoon(log, interval, j) <==> Early(After(interval, threshold, calls[..j]).state, calls[j]))
  {
    var log := LogOf(interval, threshold, calls);
    forall j | 0 <= j < |calls|
      ensures RecordedAt(log, j)
      ensures log.counts[j + 1] == log.counts[j] + 1 && log.lasts[j].Some?
              && Elapsed(log.nows[j], log.lasts[j].value) < interval
         <==> Early(After(interval, threshold, calls[..j]).state, calls[j])
    {
      CallAt(interval, threshold, calls, j);
    }
    assert calls[..0] == [];
  }

  lemma LogCaps(interval: nat, threshold: real, calls: seq<Call>)
    requires interval > 0 && Forward(calls) && Recorded(LogOf(interval, threshold, calls))
    ensures LogCapped(LogOf(interval, threshold, calls), interval) <==> Capped(interval, threshold, calls)
  {
    var log := LogOf(interval, threshold, calls);
    forall i, j | 0 <= i <= j < |calls|
      ensures LogWindow(log, interval, i, j) <==> Window(interval, threshold, calls, i, j)
    {
    }
  }

  /** With a clock that does not go back: the interval caps the rate, in every window
      of pushes and flushes, if and only if no call with movement to send is a flush, or
      reaches the threshold, before the interval since the last message is over. */
  lemma {:induction false} CappedExactly(interval: nat, threshold: real, calls: seq<Call>)
    requires interval > 0 && Forward(calls)
    ensures Capped(interval, threshold, calls) <==> NeverEarly(interval, threshold, calls)
  {
    var log := LogOf(interval, threshold, calls);
    LogRecords(interval, threshold, calls);
    LogCaps(interval, threshold, calls);
    if j :| 0 <= j < |calls| && TooSoon(log, interval, j) {
      TooSoonOverfills(log, interval, j);
    } else {
      forall i, j | 0 <= i <= j < |calls| ensures LogWindow(log, interval, i, j) {
        WindowCapped(log, interval, i, j);
      }
    }
  }

  /** Two samples at one instant, the second forced out: over the cap, although no push
      was early. */
  lemma FlushOverfills()
    ensures var calls := [Push(1.0, 0.0, 0), Push(1.0, 0.0, 0), Flush(0)];
            |After(8, 64.0, calls).emitted| == 2 && !Capped(8, 64.0, calls)
  {
    var calls := [Push(1.0, 0.0, 0), Push(1.0, 0.0, 0), Flush(0)];
    assert calls[..2][..1][..0] == [] && calls[..2][..1] == calls[..1];
    assert After(8, 64.0, calls[..1]).state == Coalescing(8, 64.0, 0.0, 0.0, Some(0), 1);
    assert Perform(After(8, 64.0, calls[..1]).state, calls[1]).1 == None;
    assert After(8, 64.0, calls[..2]).state.pendingDx == 1.0;
    assert calls[..3] == calls && calls[..0] == [];
    SmallQuotient(0, 8);
    assert !Window(8, 64.0, calls, 0, 2);
  }

  function Swipe(n: nat, threshold: real): seq<Call> {
    if n == 0 then [] else Swipe(n - 1, threshold) + [Push(threshold, 0.0, 0)]
  }

  /** Fast movement is not capped at one message per interval: samples of a full
      threshold each are all sent, any number of them at one instant. */
  lemma {:induction false} SwipeSendsAll(interval: nat, threshold: real, n: nat)
    requires threshold > 0.0
    ensures var t := After(interval, threshold, Swipe(n, threshold));
            |t.emitted| == n && t.state.pendingDx == 0.0 && t.state.pendingDy == 0.0 && t.state.threshold == threshold
    ensures |Swipe(n, threshold)| == n
  {
    if n > 0 {
      SwipeSendsAll(interval, threshold, n - 1);
      var calls := Swipe(n, threshold);
      assert calls[..|calls| - 1] == Swipe(n - 1, threshold);
      assert Reaches(threshold, 0.0, threshold);
    }
  }
}
