/** What one scheduler pass promises about claims, counters and tallies. */
module FinderProperties {
  import opened Claims
  import opened Decimal
  import opened Staleness
  import opened Finder

  /** The pass deletes only listed claims and, on the claims it keeps,
      changes nothing but the notification label of listed ones. */
  ghost predicate PassFrame(before: Store, after: Store, listed: set<ClaimId>, notifLabel: string)
  {
    && after.Keys <= before.Keys
    && (forall c :: c in before && c !in listed ==> c in after && after[c] == before[c])
    && (forall c :: c in after ==> after[c].storageClass == before[c].storageClass)
    && (forall c :: c in after ==> after[c].labels - {notifLabel} == before[c].labels - {notifLabel})
  }

  /** Each claim moves at most one tally, and by one; an error changes
      nothing in the store. */
  lemma StepTallies(cfg: SchedulerConfig, times: seq<int>, env: Environment, s: PassState, pvc: Listed)
    ensures var r := Step(cfg, times, env, s, pvc);
      || r.tallies == s.tallies
      || r.tallies == s.tallies.(errCount := s.tallies.errCount + 1)
      || r.tallies == s.tallies.(deleteCount := s.tallies.deleteCount + 1)
      || r.tallies == s.tallies.(emailCount := s.tallies.emailCount + 1)
    ensures var r := Step(cfg, times, env, s, pvc);
      r.tallies.errCount > s.tallies.errCount ==> r.store == s.store && r.panicked == s.panicked
  {
  }

  /** Over a whole pass each tally only grows, and together they grow by
      at most the number of listed claims. */
  lemma {:induction false} TalliesBounded(cfg: SchedulerConfig, times: seq<int>, env: Environment, s: PassState, pvcs: seq<Listed>)
    ensures var r := Pass(cfg, times, env, s, pvcs);
      && s.tallies.errCount <= r.tallies.errCount
      && s.tallies.deleteCount <= r.tallies.deleteCount
      && s.tallies.emailCount <= r.tallies.emailCount
      && Total(r.tallies) <= Total(s.tallies) + |pvcs|
    decreases |pvcs|
  {
    if pvcs != [] && !s.panicked {
      StepTallies(cfg, times, env, s, pvcs[0]);
      TalliesBounded(cfg, times, env, Step(cfg, times, env, s, pvcs[0]), pvcs[1..]);
    }
  }

  /** From a fresh start, the three tallies of a pass add up to at most the
      number of claims listed. */
  lemma TalliesAtMostListed(cfg: SchedulerConfig, times: seq<int>, env: Environment, store: Store, pvcs: seq<Listed>)
    ensures Total(Pass(cfg, times, env, Start(store), pvcs).tallies) <= |pvcs|
  {
    TalliesBounded(cfg, times, env, Start(store), pvcs);
  }

  /** The three inputs the pass counts as an error without touching the
      claim: a timestamp label that does not parse, a claim within its
      grace period without a counter label, and a counter label that is
      not an integer. */
  lemma ErrorCounted(cfg: SchedulerConfig, times: seq<int>, env: Environment, s: PassState, pvc: Listed)
    requires cfg.timeLabel in pvc.labels
    ensures env.parse(cfg.timeFormat, pvc.labels[cfg.timeLabel]).None? ==>
      Step(cfg, times, env, s, pvc) == CountError(s)
    ensures (IsStale(env.parse, env.now, pvc.labels[cfg.timeLabel], cfg.timeFormat, cfg.gracePeriod) == Verdict(false)
             && cfg.notifLabel !in pvc.labels) ==>
      Step(cfg, times, env, s, pvc) == CountError(s)
    ensures (IsStale(env.parse, env.now, pvc.labels[cfg.timeLabel], cfg.timeFormat, cfg.gracePeriod) == Verdict(false)
             && cfg.notifLabel in pvc.labels && Atoi(pvc.labels[cfg.notifLabel]).None?) ==>
      Step(cfg, times, env, s, pvc) == CountError(s)
  {
  }

  /** A claim without the timestamp label is skipped: no tally, no label,
      no deletion. */
  lemma UntrackedSkipped(cfg: SchedulerConfig, times: seq<int>, env: Environment, s: PassState, pvc: Listed)
    requires cfg.timeLabel !in pvc.labels
    ensures Step(cfg, times, env, s, pvc) == s
  {
  }

  /** The notification label of a claim is rewritten only after a mail was
      actually sent for it (no dry run, transport succeeded), only while the
      claim is not stale, and only to the counter it listed plus one; the
      email tally records the send. */
  lemma CounterMovesOnlyOnSend(cfg: SchedulerConfig, times: seq<int>, env: Environment, s: PassState, pvc: Listed)
    requires pvc.id in s.store
    ensures var r := Step(cfg, times, env, s, pvc);
      pvc.id in r.store && r.store[pvc.id] != s.store[pvc.id] ==>
        && !cfg.dryRun
        && env.mailOk(pvc.id)
        && cfg.timeLabel in pvc.labels
        && IsStale(env.parse, env.now, pvc.labels[cfg.timeLabel], cfg.timeFormat, cfg.gracePeriod) == Verdict(false)
        && cfg.notifLabel in pvc.labels
        && Atoi(pvc.labels[cfg.notifLabel]).Some?
        && 0 <= Atoi(pvc.labels[cfg.notifLabel]).value < |times|
        && r.store[pvc.id].labels == s.store[pvc.id].labels[cfg.notifLabel := Itoa(Atoi(pvc.labels[cfg.notifLabel]).value + 1)]
        && r.tallies.emailCount == s.tallies.emailCount + 1
  {
  }

  /** A stale claim is deleted or left as it is; its counter is never
      rewritten. In a dry run it is only counted. */
  lemma StaleNeverTouchesCounter(cfg: SchedulerConfig, times: seq<int>, env: Environment, s: PassState, pvc: Listed)
    requires cfg.timeLabel in pvc.labels
    requires IsStale(env.parse, env.now, pvc.labels[cfg.timeLabel], cfg.timeFormat, cfg.gracePeriod) == Verdict(true)
    ensures var r := Step(cfg, times, env, s, pvc);
      && (r.store == s.store || r.store == s.store - {pvc.id})
      && (cfg.dryRun ==> r.store == s.store && r.tallies.deleteCount == s.tallies.deleteCount + 1)
      && (!cfg.dryRun && env.deleteOk(pvc.id) ==>
            r.store == s.store - {pvc.id} && r.tallies == s.tallies.(deleteCount := s.tallies.deleteCount + 1))
      && (!cfg.dryRun && !env.deleteOk(pvc.id) ==> r.store == s.store && r.tallies.errCount == s.tallies.errCount + 1)
  {
  }

  /** A dry run changes no claim, whatever it finds. */
  lemma {:induction false} DryRunKeepsStore(cfg: SchedulerConfig, times: seq<int>, env: Environment, s: PassState, pvcs: seq<Listed>)
    requires cfg.dryRun
    ensures Pass(cfg, times, env, s, pvcs).store == s.store
    decreases |pvcs|
  {
    if pvcs != [] && !s.panicked {
      DryRunKeepsStore(cfg, times, env, Step(cfg, times, env, s, pvcs[0]), pvcs[1..]);
    }
  }

  lemma StepFrame(cfg: SchedulerConfig, times: seq<int>, env: Environment, s: PassState, pvc: Listed)
    ensures PassFrame(s.store, Step(cfg, times, env, s, pvc).store, {pvc.id}, cfg.notifLabel)
  {
    var o := Decide(cfg, times, env, pvc);
    var r := Apply(cfg, s, pvc, o).store;
    if o.Notified? {
      assert r == WithLabel(s.store, pvc.id, cfg.notifLabel, Itoa(o.counter + 1));
      forall c | c in r
        ensures r[c].labels - {cfg.notifLabel} == s.store[c].labels - {cfg.notifLabel}
      {
        if c == pvc.id {
          assert r[c].labels == s.store[c].labels[cfg.notifLabel := Itoa(o.counter + 1)];
        }
      }
    } else {
      assert r == s.store || r == s.store - {pvc.id};
    }
  }

  lemma PassFrameCompose(a: Store, b: Store, c: Store, first: set<ClaimId>, rest: set<ClaimId>, notifLabel: string)
    requires PassFrame(a, b, first, notifLabel)
    requires PassFrame(b, c, rest, notifLabel)
    ensures PassFrame(a, c, first + rest, notifLabel)
  {
  }

  /** A pass deletes only listed claims and changes no label but the
      notification label, and that only on listed claims. */
  lemma {:induction false} PassTouchesOnlyListed(cfg: SchedulerConfig, times: seq<int>, env: Environment, s: PassState, pvcs: seq<Listed>)
    ensures PassFrame(s.store, Pass(cfg, times, env, s, pvcs).store, ListedIds(pvcs), cfg.notifLabel)
    decreases |pvcs|
  {
    if pvcs != [] && !s.panicked {
      var s1 := Step(cfg, times, env, s, pvcs[0]);
      StepFrame(cfg, times, env, s, pvcs[0]);
      PassTouchesOnlyListed(cfg, times, env, s1, pvcs[1..]);
      PassFrameCompose(s.store, s1.store, Pass(cfg, times, env, s1, pvcs[1..]).store,
                       {pvcs[0].id}, ListedIds(pvcs[1..]), cfg.notifLabel);
    }
  }

  // ---------------------------------------------------------------------
  // A tracked claim across passes

  /** The branch taken for a tracked claim within its grace period whose
      counter label reads as `c`: when `c` is below the number of
      checkpoints due, a dry run only counts the mail and otherwise the
      mail is sent (or fails); when it is not, nothing happens. */
  lemma DecideWithinGrace(cfg: SchedulerConfig, times: seq<int>, env: Environment, pvc: Listed, t: int, c: nat)
    requires Descending(times)
    requires cfg.timeLabel in pvc.labels && env.parse(cfg.timeFormat, pvc.labels[cfg.timeLabel]) == Some(t)
    requires !PastGrace(env.now - t, cfg.gracePeriod)
    requires cfg.notifLabel in pvc.labels && Atoi(pvc.labels[cfg.notifLabel]) == Some(c)
    ensures Decide(cfg, times, env, pvc) ==
      if c < DueCount(times, DaysLeft(env.now - t, cfg.gracePeriod)) then
        (if cfg.dryRun then DryRunNotify else if env.mailOk(pvc.id) then Notified(c) else SendFailed)
      else NotDue
  {
    var timestamp := pvc.labels[cfg.timeLabel];
    var due := DueCount(times, DaysLeft(env.now - t, cfg.gracePeriod));
    assert IsStale(env.parse, env.now, timestamp, cfg.timeFormat, cfg.gracePeriod) == Verdict(false);
    assert ShouldSendMail(env.parse, env.now, timestamp, c, cfg.timeFormat, cfg.gracePeriod, times) == Verdict(c < due);
  }

  /** A dry run on a tracked claim within its grace period counts one
      mail when a checkpoint is due and changes nothing else; when none is
      due it changes nothing at all. */
  lemma DryRunWithinGrace(cfg: SchedulerConfig, times: seq<int>, env: Environment, s: PassState, pvc: Listed, t: int, c: nat)
    requires Descending(times) && cfg.dryRun
    requires cfg.timeLabel in pvc.labels && env.parse(cfg.timeFormat, pvc.labels[cfg.timeLabel]) == Some(t)
    requires !PastGrace(env.now - t, cfg.gracePeriod)
    requires cfg.notifLabel in pvc.labels && Atoi(pvc.labels[cfg.notifLabel]) == Some(c)
    ensures Step(cfg, times, env, s, pvc) ==
      if c < DueCount(times, DaysLeft(env.now - t, cfg.gracePeriod))
      then s.(tallies := s.tallies.(emailCount := s.tallies.emailCount + 1))
      else s
  {
    DecideWithinGrace(cfg, times, env, pvc, t, c);
  }

  /** A counter label that reads as a negative number passes the bound
      check against the schedule and then indexes it out of range: the
      pass panics on that claim and processes none after it. */
  lemma NegativeCounterPanics(cfg: SchedulerConfig, times: seq<int>, env: Environment, s: PassState,
                              pvc: Listed, rest: seq<Listed>, c: int)
    requires !s.panicked
    requires cfg.timeLabel in pvc.labels
    requires IsStale(env.parse, env.now, pvc.labels[cfg.timeLabel], cfg.timeFormat, cfg.gracePeriod) == Verdict(false)
    requires cfg.notifLabel in pvc.labels && Atoi(pvc.labels[cfg.notifLabel]) == Some(c) && c < 0
    ensures Pass(cfg, times, env, s, [pvc] + rest) == s.(panicked := true)
  {
    assert ([pvc] + rest)[0] == pvc;
    assert Step(cfg, times, env, s, pvc) == s.(panicked := true);
  }

  /** For a tracked claim that is not stale, whose counter label reads as `c`,
      and whose mail goes through: the pass advances the label to `c + 1`
      (which reads back as `c + 1` on the next pass) exactly when `c` is
      below the number of checkpoints due, and otherwise changes nothing.
      With `CatchUp`, repeated passes fire each due checkpoint once, in
      order. */
  lemma NotifyAdvancesCounter(cfg: SchedulerConfig, times: seq<int>, env: Environment, s: PassState, pvc: Listed, t: int, c: nat)
    requires Descending(times)
    requires !cfg.dryRun && env.mailOk(pvc.id)
    requires cfg.timeLabel in pvc.labels && env.parse(cfg.timeFormat, pvc.labels[cfg.timeLabel]) == Some(t)
    requires !PastGrace(env.now - t, cfg.gracePeriod)
    requires cfg.notifLabel in pvc.labels && Atoi(pvc.labels[cfg.notifLabel]) == Some(c)
    requires c < MaxInt64
    requires pvc.id in s.store
    ensures var r := Step(cfg, times, env, s, pvc);
      var due := DueCount(times, DaysLeft(env.now - t, cfg.gracePeriod));
      && (c < due ==>
            && r.store == WithLabel(s.store, pvc.id, cfg.notifLabel, Itoa(c + 1))
            && Atoi(r.store[pvc.id].labels[cfg.notifLabel]) == Some(c + 1)
            && r.tallies.emailCount == s.tallies.emailCount + 1)
      && (c >= due ==> r == s)
  {
    DecideWithinGrace(cfg, times, env, pvc, t, c);
    var r := Step(cfg, times, env, s, pvc);
    if c < DueCount(times, DaysLeft(env.now - t, cfg.gracePeriod)) {
      assert r.store == WithLabel(s.store, pvc.id, cfg.notifLabel, Itoa(c + 1));
      assert r.store[pvc.id].labels[cfg.notifLabel] == Itoa(c + 1);
      AtoiItoa(c + 1);
    }
  }

  /** A failed send leaves the counter where it was and counts an error;
      a later pass (the same or a later instant, the claim still within its
      grace period) whose send succeeds notifies for the same checkpoint. */
  lemma SendFailureRetried(cfg: SchedulerConfig, times: seq<int>, env: Environment, later: Environment,
                           s: PassState, pvc: Listed, t: int, c: nat)
    requires Descending(times)
    requires !cfg.dryRun && !env.mailOk(pvc.id)
    requires cfg.timeLabel in pvc.labels && env.parse(cfg.timeFormat, pvc.labels[cfg.timeLabel]) == Some(t)
    requires !PastGrace(env.now - t, cfg.gracePeriod)
    requires cfg.notifLabel in pvc.labels && Atoi(pvc.labels[cfg.notifLabel]) == Some(c)
    requires c < DueCount(times, DaysLeft(env.now - t, cfg.gracePeriod))
    requires later.parse == env.parse && later.now >= env.now && later.mailOk(pvc.id)
    requires !PastGrace(later.now - t, cfg.gracePeriod)
    ensures var r := Step(cfg, times, env, s, pvc);
      r.store == s.store && r.tallies == s.tallies.(errCount := s.tallies.errCount + 1)
    ensures Decide(cfg, times, later, pvc) == Notified(c)
  {
    var d0 := DaysLeft(env.now - t, cfg.gracePeriod);
    var d1 := DaysLeft(later.now - t, cfg.gracePeriod);
    assert d1 <= d0 by {
      assert (env.now - t) / NanosPerDay <= (later.now - t) / NanosPerDay;
    }
    DueCountMonotone(times, d1, d0);
  }

  // ---------------------------------------------------------------------
  // Worked cases

  /** Grace period 10 days, orphaned 11 days ago: the claim is deleted, or
      only counted as deleted in a dry run. */
  lemma ElevenDaysOldIsDeleted(cfg: SchedulerConfig, times: seq<int>, env: Environment, s: PassState, pvc: Listed, t: int)
    requires cfg.gracePeriod == 10
    requires cfg.timeLabel in pvc.labels && env.parse(cfg.timeFormat, pvc.labels[cfg.timeLabel]) == Some(t)
    requires env.now - t == 11 * NanosPerDay
    requires env.deleteOk(pvc.id)
    ensures var r := Step(cfg, times, env, s, pvc);
      && r.tallies == s.tallies.(deleteCount := s.tallies.deleteCount + 1)
      && r.store == if cfg.dryRun then s.store else s.store - {pvc.id}
  {
  }

  /** Schedule [7, 3, 1], grace period 10, orphaned 4 days ago, counter
      "0": six days are left, checkpoint 7 is due, the mail goes out and
      the counter becomes "1"; if the mail fails the counter stays "0"
      and an error is counted. */
  lemma FourDaysOldIsNotified(cfg: SchedulerConfig, env: Environment, s: PassState, pvc: Listed, t: int)
    requires cfg.gracePeriod == 10 && !cfg.dryRun
    requires cfg.timeLabel in pvc.labels && env.parse(cfg.timeFormat, pvc.labels[cfg.timeLabel]) == Some(t)
    requires env.now - t == 4 * NanosPerDay
    requires cfg.notifLabel in pvc.labels && pvc.labels[cfg.notifLabel] == "0"
    requires pvc.id in s.store
    ensures DaysLeft(env.now - t, cfg.gracePeriod) == 6
    ensures var r := Step(cfg, [7, 3, 1], env, s, pvc);
      if env.mailOk(pvc.id) then
        && r.store[pvc.id].labels == s.store[pvc.id].labels[cfg.notifLabel := "1"]
        && r.tallies == s.tallies.(emailCount := s.tallies.emailCount + 1)
      else
        && r.store == s.store
        && r.tallies == s.tallies.(errCount := s.tallies.errCount + 1)
  {
    assert Itoa(0) == "0";
    assert Atoi("0") == Some(0) by { AtoiItoa(0); }
    assert Itoa(1) == "1";
  }
}
