/** The two decisions the scheduler takes for a tracked claim: is its
    grace period over (`IsStale`), and is its next notification checkpoint
    due (`ShouldSendMail`).

    Time is abstracted to integers: a timestamp label is turned into an
    instant in nanoseconds by a parser that may fail, and the current
    instant is a parameter. Go computes elapsed days as a float,
    `Hours() / 24`; here elapsed time stays exact and is divided by the
    length of a day, truncating toward zero where the source converts
    with `int(...)` and rounding down where it uses `math.Floor`. */
module Staleness {
  import opened Claims

  const NanosPerDay: int := 86_400_000_000_000

  /** `time.Parse(layout, text)`: an instant in nanoseconds, or a failure. */
  type TimeParser = (string, string) -> Option<int>

  /** What a decision returns: a yes/no answer, a timestamp that did not
      parse, or an index outside the schedule (a Go runtime panic). */
  datatype Verdict = Verdict(holds: bool) | ParseError | IndexPanic

  /** Whole days elapsed, truncated toward zero as Go's `int(f)` does. */
  function TruncDays(elapsed: int): int
  {
    if elapsed >= 0 then elapsed / NanosPerDay else -((-elapsed) / NanosPerDay)
  }

  /** Whole days elapsed, rounded down as `math.Floor` does (Dafny's `/`
      rounds down when the divisor is positive). */
  function FloorDays(elapsed: int): int
  {
    elapsed / NanosPerDay
  }

  /** The staleness threshold written without division: a claim is stale
      once at least `gracePeriod + 1` whole days have passed. A negative
      grace period is the truncated-division counterpart. */
  ghost predicate PastGrace(elapsed: int, gracePeriod: int)
  {
    if gracePeriod >= 0 then elapsed >= (gracePeriod + 1) * NanosPerDay
    else elapsed > gracePeriod * NanosPerDay
  }

  lemma TruncDaysExceed(elapsed: int, gracePeriod: int)
    ensures TruncDays(elapsed) > gracePeriod <==> PastGrace(elapsed, gracePeriod)
  {
    if elapsed >= 0 {
      var q := elapsed / NanosPerDay;
      assert q * NanosPerDay <= elapsed < (q + 1) * NanosPerDay;
      if gracePeriod >= 0 {
        if q > gracePeriod {
          assert (gracePeriod + 1) * NanosPerDay <= q * NanosPerDay;
        } else {
          assert (q + 1) * NanosPerDay <= (gracePeriod + 1) * NanosPerDay;
        }
      }
    } else {
      var q := (-elapsed) / NanosPerDay;
      assert q * NanosPerDay <= -elapsed < (q + 1) * NanosPerDay;
      if gracePeriod < 0 {
        if -q > gracePeriod {
          assert (q + 1) * NanosPerDay <= (-gracePeriod) * NanosPerDay;
        } else {
          assert (-gracePeriod) * NanosPerDay <= q * NanosPerDay;
        }
      }
    }
  }

  /** `IsStale`: a timestamp that does not parse is an error; otherwise
      the claim is stale iff the whole elapsed days, truncated toward zero,
      exceed the grace period. Exactly `gracePeriod` days is not stale. */
  function IsStale(parse: TimeParser, now: int, timestamp: string, format: string, gracePeriod: int): (r: Verdict)
    ensures !r.IndexPanic?
    ensures r.ParseError? <==> parse(format, timestamp).None?
    ensures r.Verdict? ==> (r.holds <==> PastGrace(now - parse(format, timestamp).value, gracePeriod))
  {
    match parse(format, timestamp)
    case None => ParseError
    case Some(t) =>
      TruncDaysExceed(now - t, gracePeriod);
      Verdict(TruncDays(now - t) > gracePeriod)
  }

  /** The two ways of counting whole days agree for a timestamp in the
      past and differ by one for a timestamp in the future that is not a
      whole number of days away. */
  lemma TruncFloorDays(elapsed: int)
    ensures elapsed >= 0 ==> TruncDays(elapsed) == FloorDays(elapsed)
    ensures elapsed < 0 && elapsed % NanosPerDay != 0 ==> TruncDays(elapsed) == FloorDays(elapsed) + 1
    ensures elapsed < 0 && elapsed % NanosPerDay == 0 ==> TruncDays(elapsed) == FloorDays(elapsed)
  {
    if elapsed < 0 {
      var q := (-elapsed) / NanosPerDay;
      var r := (-elapsed) % NanosPerDay;
      assert -elapsed == q * NanosPerDay + r;
      if r == 0 {
        assert elapsed == (-q) * NanosPerDay;
      } else {
        assert elapsed == (-q - 1) * NanosPerDay + (NanosPerDay - r);
      }
    }
  }

  // ---------------------------------------------------------------------
  // The notification schedule

  /** A schedule of "days before deletion" checkpoints, largest first. */
  predicate Descending(times: seq<int>)
  {
    forall i, j :: 0 <= i < j < |times| ==> times[i] >= times[j]
  }

  /** The number of checkpoints that have come due when `daysLeft` days
      remain: those at least `daysLeft` days before deletion. */
  function DueCount(times: seq<int>, daysLeft: int): (n: nat)
    ensures n <= |times|
  {
    if times == [] then 0
    else (if times[0] >= daysLeft then 1 else 0) + DueCount(times[1..], daysLeft)
  }

  /** The mail rule for a non-negative counter: the checkpoint the counter
      points at exists and has come due. */
  predicate Fires(times: seq<int>, currNotif: nat, daysLeft: int)
  {
    currNotif < |times| && times[currNotif] >= daysLeft
  }

  /** In a descending schedule the due checkpoints are a prefix, so the
      rule fires exactly while the counter is below the number of due
      checkpoints. */
  lemma {:induction false} FiresIffBelowDue(times: seq<int>, currNotif: nat, daysLeft: int)
    requires Descending(times)
    ensures Fires(times, currNotif, daysLeft) <==> currNotif < DueCount(times, daysLeft)
  {
    if times != [] {
      var tail := times[1..];
      assert Descending(tail);
      if times[0] >= daysLeft {
        if currNotif > 0 {
          FiresIffBelowDue(tail, currNotif - 1, daysLeft);
          assert Fires(times, currNotif, daysLeft) <==> Fires(tail, currNotif - 1, daysLeft);
        }
      } else {
        if tail != [] {
          FiresIffBelowDue(tail, 0, daysLeft);
          assert tail[0] <= times[0];
        }
        assert DueCount(tail, daysLeft) == 0;
        if currNotif < |times| {
          assert times[currNotif] <= times[0];
        }
      }
    }
  }

  /** Fewer days left means at least as many checkpoints due. */
  lemma {:induction false} DueCountMonotone(times: seq<int>, later: int, earlier: int)
    requires later <= earlier
    ensures DueCount(times, earlier) <= DueCount(times, later)
  {
    if times != [] {
      DueCountMonotone(times[1..], later, earlier);
    }
  }

  /** Days left before deletion, from the floored elapsed days. */
  function DaysLeft(elapsed: int, gracePeriod: int): int
  {
    gracePeriod - FloorDays(elapsed)
  }

  /** `ShouldSendMail`: a timestamp that does not parse is an error; a
      negative counter passes the `currNotif < len` test and then indexes
      the schedule out of range; otherwise mail is due iff the counter's
      checkpoint exists and is at least as many days before deletion as
      are left. With a descending schedule that is: the counter is below
      the number of checkpoints already due. */
  function ShouldSendMail(parse: TimeParser, now: int, timestamp: string, currNotif: int,
                          format: string, gracePeriod: int, times: seq<int>): (r: Verdict)
    ensures r.ParseError? <==> parse(format, timestamp).None?
    ensures r.IndexPanic? <==> parse(format, timestamp).Some? && currNotif < 0
    ensures r == Verdict(true) ==> 0 <= currNotif < |times|
    ensures r.Verdict? && Descending(times) ==>
      (r.holds <==> currNotif < DueCount(times, DaysLeft(now - parse(format, timestamp).value, gracePeriod)))
  {
    match parse(format, timestamp)
    case None => ParseError
    case Some(t) =>
      var daysLeft := DaysLeft(now - t, gracePeriod);
      if currNotif < 0 then IndexPanic
      else if Descending(times) then
        FiresIffBelowDue(times, currNotif, daysLeft);
        Verdict(Fires(times, currNotif, daysLeft))
      else
        Verdict(Fires(times, currNotif, daysLeft))
  }

  // ---------------------------------------------------------------------
  // Catching up after missed passes

  /** The indices `lo, lo + 1, ..., hi - 1`. */
  function Range(lo: int, hi: int): (r: seq<int>)
    ensures |r| == if lo < hi then hi - lo else 0
    decreases hi - lo
  {
    if lo >= hi then [] else [lo] + Range(lo + 1, hi)
  }

  /** The checkpoints fired by `|daysLeft|` scheduler passes over one claim,
      in order, when each pass sees `daysLeft[j]` days left and a pass
      that fires advances the counter. */
  function FiredOver(times: seq<int>, daysLeft: seq<int>, counter: nat): (fired: seq<nat>)
  {
    if daysLeft == [] then []
    else if Fires(times, counter, daysLeft[0]) then [counter] + FiredOver(times, daysLeft[1..], counter + 1)
    else FiredOver(times, daysLeft[1..], counter)
  }

  /** Whatever the days left at each pass, checkpoints are fired one at a
      time in ascending order from the current counter, with no index
      skipped or repeated, and none at or beyond the end of the schedule. */
  lemma {:induction false} FiredInOrder(times: seq<int>, daysLeft: seq<int>, counter: nat)
    ensures var fired := FiredOver(times, daysLeft, counter);
      && fired == Range(counter, counter + |fired|)
      && |fired| <= |daysLeft|
      && (fired != [] ==> counter + |fired| <= |times|)
  {
    if daysLeft != [] {
      FiredInOrder(times, daysLeft[1..], counter + 1);
      FiredInOrder(times, daysLeft[1..], counter);
    }
  }

  /** Passes with the days left held fixed (the scheduler was down, then
      runs repeatedly on the same day): each pass fires the next due
      checkpoint, so `k` passes fire exactly checkpoints `counter` up to
      `min(counter + k, DueCount)`, and enough passes fire every due one;
      once the counter is at or past the due count nothing fires. */
  lemma {:induction false} CatchUp(times: seq<int>, daysLeft: int, k: nat, counter: nat)
    requires Descending(times)
    ensures var due := DueCount(times, daysLeft);
      FiredOver(times, seq(k, _ => daysLeft), counter) ==
        Range(counter, if counter + k < due then counter + k else due)
  {
    var ds := seq(k, _ => daysLeft);
    FiresIffBelowDue(times, counter, daysLeft);
    if k > 0 {
      assert ds[1..] == seq(k - 1, _ => daysLeft);
      if counter < DueCount(times, daysLeft) {
        CatchUp(times, daysLeft, k - 1, counter + 1);
      } else {
        CatchUp(times, daysLeft, k - 1, counter);
      }
    }
  }

  /** As time moves forward (days left never increase), the counter never
      overtakes the checkpoints due at the latest pass. */
  lemma {:induction false} CounterBoundedByDue(times: seq<int>, daysLeft: seq<int>, counter: nat)
    requires Descending(times)
    requires daysLeft != []
    requires forall j :: 0 < j < |daysLeft| ==> daysLeft[j] <= daysLeft[j - 1]
    requires counter <= DueCount(times, daysLeft[0])
    ensures counter + |FiredOver(times, daysLeft, counter)| <= DueCount(times, daysLeft[|daysLeft| - 1])
  {
    FiresIffBelowDue(times, counter, daysLeft[0]);
    var next := if Fires(times, counter, daysLeft[0]) then counter + 1 else counter;
    if |daysLeft| > 1 {
      var rest := daysLeft[1..];
      DueCountMonotone(times, rest[0], daysLeft[0]);
      CounterBoundedByDue(times, rest, next);
      assert rest[|rest| - 1] == daysLeft[|daysLeft| - 1];
    }
  }
}
