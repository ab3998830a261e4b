/** Refusing stale and replayed events (crates/ms-core-service/src/dedup.rs): a
    wrapping 32-bit counter that stands for an unbounded one. */
module Dedup {
  import opened Messages
  import opened Coalescer

  const TWO31: int := 0x8000_0000

  datatype Guard = Guard(active: Option<SessionId>, last: int)

  /** `u32::wrapping_sub`. */
  function WrappingSub(a: int, b: int): int {
    (a - b) % TWO32
  }

  /** The same 32 bits read as an `i32`. */
  function AsI32(x: int): int {
    if x < TWO31 then x else x - TWO32
  }

  function Accepting(g: Guard, session: SessionId, number: int): (Guard, bool) {
    if g.active != Some(session) then (g, false)
    else if number == 0 then (g, true)
    else if AsI32(WrappingSub(number, g.last)) > 0 then (g.(last := number), true)
    else (g, false)
  }

  class SequenceGuard {
    var activeSession: Option<SessionId>
    var lastSeq: int

    function View(): Guard
      reads this
    {
      Guard(activeSession, lastSeq)
    }

    constructor ()
      ensures View() == Guard(None, 0)
    {
      activeSession, lastSeq := None, 0;
    }

    method StartSession(session: SessionId)
      modifies this
      ensures View() == Guard(Some(session), 0)
    {
      activeSession := Some(session);
      lastSeq := 0;
    }

    method Accept(session: SessionId, number: int) returns (accepted: bool)
      modifies this
      ensures (View(), accepted) == Accepting(old(View()), session, number)
    {
      if activeSession != Some(session) {
        return false;
      }
      if number == 0 {
        return true;
      }
      accepted := AsI32(WrappingSub(number, lastSeq)) > 0;
      if accepted {
        lastSeq := number;
      }
    }
  }

  // ----- Refinement of an unbounded counter -----

  /** The window in which 32 bits tell two numbers apart with their order. */
  predicate InWindow(last: nat, n: nat) {
    -TWO31 <= n - last < TWO31
  }

  /** Subtracting the remainders is taking the remainder of the difference. */
  lemma DifferenceWraps(n: nat, last: nat)
    ensures WrappingSub(n % TWO32, last % TWO32) == (n - last) % TWO32
  {
    var d := n - last;
    var p, q := n / TWO32, last / TWO32;
    assert n % TWO32 - last % TWO32 == d + (q - p) * TWO32;
    ModShift(d, q - p);
  }

  lemma SignedDifference(n: nat, last: nat)
    requires InWindow(last, n)
    ensures AsI32(WrappingSub(n % TWO32, last % TWO32)) == n - last
  {
    DifferenceWraps(n, last);
  }

  lemma ModShift(d: int, k: int)
    ensures (d + k * TWO32) % TWO32 == d % TWO32
  {
    var r := d % TWO32;
    assert d + k * TWO32 == r + (d / TWO32 + k) * TWO32;
    ModUnique(d + k * TWO32, d / TWO32 + k, r);
  }

  lemma ModUnique(x: int, q: int, r: int)
    requires x == r + q * TWO32 && 0 <= r < TWO32
    ensures x % TWO32 == r
  {
    var q', r' := x / TWO32, x % TWO32;
    assert (q' - q) * TWO32 == r - r';
  }

  /** The unbounded guard: numbers that are multiples of 2^32 arrive as the reserved
      zero, which passes and leaves no mark. */
  function IdealAccepts(last: nat, n: nat): bool {
    n % TWO32 == 0 || n > last
  }

  function IdealLast(last: nat, n: nat): nat {
    if n % TWO32 != 0 && n > last then n else last
  }

  /** Within the window, the wrapping guard answers as the unbounded one. */
  lemma AcceptRefines(g: Guard, session: SessionId, last: nat, n: nat)
    requires g.active == Some(session) && g.last == last % TWO32 && InWindow(last, n)
    ensures Accepting(g, session, n % TWO32)
         == (g.(last := IdealLast(last, n) % TWO32), IdealAccepts(last, n))
  {
    SignedDifference(n, last);
  }

  function Answers(g: Guard, session: SessionId, seqs: seq<int>): seq<bool>
    decreases seqs
  {
    if seqs == [] then []
    else
      var (next, accepted) := Accepting(g, session, seqs[0]);
      [accepted] + Answers(next, session, seqs[1..])
  }

  function Wrapped(numbers: seq<nat>): seq<int> {
    if numbers == [] then [] else [numbers[0] % TWO32] + Wrapped(numbers[1..])
  }

  function IdealAnswers(last: nat, numbers: seq<nat>): seq<bool>
    decreases numbers
  {
    if numbers == [] then []
    else [IdealAccepts(last, numbers[0])] + IdealAnswers(IdealLast(last, numbers[0]), numbers[1..])
  }

  predicate StaysInWindow(last: nat, numbers: seq<nat>)
    decreases numbers
  {
    numbers == [] || (InWindow(last, numbers[0]) && StaysInWindow(IdealLast(last, numbers[0]), numbers[1..]))
  }

  /** Over a whole session, duplicates, reorderings and wraps included: as long as each
      number is within 2^31 of the last one taken up, the answers are the same. */
  lemma {:induction false} GuardRefinesUnbounded(g: Guard, session: SessionId, last: nat, numbers: seq<nat>)
    requires g.active == Some(session) && g.last == last % TWO32 && StaysInWindow(last, numbers)
    ensures Answers(g, session, Wrapped(numbers)) == IdealAnswers(last, numbers)
    decreases numbers
  {
    if numbers != [] {
      AcceptRefines(g, session, last, numbers[0]);
      GuardRefinesUnbounded(g.(last := IdealLast(last, numbers[0]) % TWO32), session,
                            IdealLast(last, numbers[0]), numbers[1..]);
      assert Wrapped(numbers)[1..] == Wrapped(numbers[1..]);
    }
  }

  /** The guard's answer to any number at all, and what it keeps: the reserved zero
      passes and leaves no mark; others pass, and are kept, exactly if they are ahead of
      the last by less than 2^31, around the circle. */
  lemma AcceptExactly(g: Guard, session: SessionId, last: nat, n: nat)
    requires g.active == Some(session) && g.last == last % TWO32
    ensures var ahead := 0 < (n - last) % TWO32 < TWO31;
            Accepting(g, session, n % TWO32)
            == (if n % TWO32 != 0 && ahead then g.(last := n % TWO32) else g, n % TWO32 == 0 || ahead)
  {
    DifferenceWraps(n, last);
  }

  /** One answer is that of the unbounded guard exactly if the number travels as zero, or
      is ahead around the circle exactly when it is ahead. */
  lemma AgreesExactly(g: Guard, session: SessionId, last: nat, n: nat)
    requires g.active == Some(session) && g.last == last % TWO32
    ensures Accepting(g, session, n % TWO32).1 == IdealAccepts(last, n)
       <==> n % TWO32 == 0 || (n > last <==> 0 < (n - last) % TWO32 < TWO31)
  {
    AcceptExactly(g, session, last, n);
  }

  lemma BehindIsAhead(last: nat, n: nat)
    requires n <= last
    ensures 0 < (n - last) % TWO32 < TWO31 <==> (last - n) % TWO32 > TWO31
    ensures (n - last) % TWO32 == 0 <==> (last - n) % TWO32 == 0
  {
    var back := last - n;
    var r := back % TWO32;
    if r == 0 {
      ModUnique(n - last, -(back / TWO32), 0);
    } else {
      ModUnique(n - last, -(back / TWO32) - 1, TWO32 - r);
    }
  }

  /** A number already passed is accepted again in two ways: as the reserved zero, which
      leaves no mark, and from so far behind that it looks ahead, which sets the guard
      back to it. Otherwise it is refused and leaves no mark. */
  lemma ReplayRefusedExactly(g: Guard, session: SessionId, last: nat, n: nat)
    requires g.active == Some(session) && g.last == last % TWO32 && n <= last
    ensures Accepting(g, session, n % TWO32).1 <==> n % TWO32 == 0 || (last - n) % TWO32 > TWO31
    ensures Accepting(g, session, n % TWO32).0
         == if n % TWO32 != 0 && (last - n) % TWO32 > TWO31 then g.(last := n % TWO32) else g
    ensures Accepting(g, session, n % TWO32).0 == g <==> n % TWO32 == 0 || (last - n) % TWO32 <= TWO31
  {
    AcceptExactly(g, session, last, n);
    BehindIsAhead(last, n);
    if (last - n) % TWO32 > TWO31 && n % TWO32 == last % TWO32 {
      DifferenceWraps(n, last);
    }
  }

  /** Not further behind than 2^31, only the reserved zero passes again. */
  lemma ReplayInWindow(g: Guard, session: SessionId, last: nat, n: nat)
    requires g.active == Some(session) && g.last == last % TWO32
    requires last - TWO31 <= n <= last
    ensures Accepting(g, session, n % TWO32).1 <==> n % TWO32 == 0
    ensures Accepting(g, session, n % TWO32).0 == g
  {
    ReplayRefusedExactly(g, session, last, n);
  }

  /** Three steps inside the window take the guard far enough for the first number to
      be accepted again, and to become the last. */
  lemma ReplayComesAround(session: SessionId)
    ensures StaysInWindow(0, [1, TWO31, TWO31 + 2])
    ensures Answers(Guard(Some(session), 0), session, [1, TWO31, TWO31 + 2, 1]) == [true, true, true, true]
    ensures Accepting(Guard(Some(session), TWO31 + 2), session, 1) == (Guard(Some(session), 1), true)
  {
    WindowCons(TWO31, TWO31 + 2, []);
    WindowCons(1, TWO31, [TWO31 + 2]);
    WindowCons(0, 1, [TWO31, TWO31 + 2]);
    AnswersCons(Guard(Some(session), TWO31 + 2), session, 1, []);
    AnswersCons(Guard(Some(session), TWO31), session, TWO31 + 2, [1]);
    AnswersCons(Guard(Some(session), 1), session, TWO31, [TWO31 + 2, 1]);
    AnswersCons(Guard(Some(session), 0), session, 1, [TWO31, TWO31 + 2, 1]);
    assert [1, TWO31, TWO31 + 2] == [1] + [TWO31, TWO31 + 2] && [TWO31, TWO31 + 2] == [TWO31] + [TWO31 + 2];
    assert [1, TWO31, TWO31 + 2, 1] == [1] + [TWO31, TWO31 + 2, 1];
    assert [TWO31, TWO31 + 2, 1] == [TWO31] + [TWO31 + 2, 1] && [TWO31 + 2, 1] == [TWO31 + 2] + [1];
  }

  lemma WindowCons(last: nat, n: nat, rest: seq<nat>)
    ensures StaysInWindow(last, [n] + rest) <==> InWindow(last, n) && StaysInWindow(IdealLast(last, n), rest)
  {
    assert ([n] + rest)[1..] == rest;
  }

  lemma AnswersCons(g: Guard, session: SessionId, number: int, rest: seq<int>)
    ensures Answers(g, session, [number] + rest)
         == [Accepting(g, session, number).1] + Answers(Accepting(g, session, number).0, session, rest)
  {
    assert ([number] + rest)[1..] == rest;
  }

  /** Outside of the session that was started last, and before any is, everything is
      refused, zero included, and nothing is noted. */
  lemma RefusedOutside(g: Guard, session: SessionId, number: int)
    requires g.active == None || g.active.value != session
    ensures Accepting(g, session, number) == (g, false)
  {
  }

  /** Once another session is started, nothing of the old one is accepted or noted. */
  lemma {:induction false} SupersededRefused(g: Guard, former: SessionId, current: SessionId, seqs: seq<int>)
    requires g.active == Some(current) && former != current
    ensures forall i :: 0 <= i < |Answers(g, former, seqs)| ==> !Answers(g, former, seqs)[i]
    ensures |Answers(g, former, seqs)| == |seqs|
    decreases seqs
  {
    if seqs != [] {
      SupersededRefused(g, former, current, seqs[1..]);
    }
  }

  // ----- The coalescer's stream -----

  function Sequence(emitted: seq<Emission>): seq<int> {
    if emitted == [] then [] else [emitted[0].number] + Sequence(emitted[1..])
  }

  /** A guard that has taken up the messages up to number `k`. */
  predicate CaughtUp(g: Guard, session: SessionId, k: nat) {
    && g.active == Some(session)
    && g.last == (if k % TWO32 == 0 && k > 0 then k - 1 else k) % TWO32
  }

  lemma NextAccepted(g: Guard, session: SessionId, k: nat)
    requires CaughtUp(g, session, k)
    ensures Accepting(g, session, (k + 1) % TWO32).1
    ensures CaughtUp(Accepting(g, session, (k + 1) % TWO32).0, session, k + 1)
  {
    var last := if k % TWO32 == 0 && k > 0 then k - 1 else k;
    AcceptRefines(g, session, last, k + 1);
  }

  ghost predicate AllTrue(answers: seq<bool>) {
    forall i :: 0 <= i < |answers| ==> answers[i]
  }

  lemma {:induction false} StreamAccepted(g: Guard, session: SessionId, k: nat, emitted: seq<Emission>)
    requires CaughtUp(g, session, k)
    requires forall i :: 0 <= i < |emitted| ==> emitted[i].number == (k + i + 1) % TWO32
    ensures |Answers(g, session, Sequence(emitted))| == |emitted| && AllTrue(Answers(g, session, Sequence(emitted)))
    decreases |emitted|
  {
    if emitted != [] {
      var tail := emitted[1..];
      NextAccepted(g, session, k);
      assert emitted[0].number == (k + 1) % TWO32;
      forall i | 0 <= i < |tail| ensures tail[i].number == (k + 1 + i + 1) % TWO32 {
        assert tail[i] == emitted[i + 1];
      }
      var next := Accepting(g, session, emitted[0].number).0;
      StreamAccepted(next, session, k + 1, tail);
      assert Sequence(emitted)[1..] == Sequence(tail);
      assert Answers(g, session, Sequence(emitted)) == [true] + Answers(next, session, Sequence(tail));
    }
  }

  /** Whatever the pushes and flushes, a freshly started guard accepts every message
      the coalescer sends, in order, across every wrap of the counter. */
  lemma {:induction false} CoalescedStreamAccepted(interval: nat, threshold: real, calls: seq<Call>, session: SessionId)
    ensures var emitted := After(interval, threshold, calls).emitted;
            var answers := Answers(Guard(Some(session), 0), session, Sequence(emitted));
            |answers| == |emitted| && AllTrue(answers)
  {
    EmissionsNumbered(interval, threshold, calls);
    StreamAccepted(Guard(Some(session), 0), session, 0, After(interval, threshold, calls).emitted);
  }
}
