/** The scheduler's pass (`FindStale`): sort the notification schedule,
    then walk the listed claims once, deleting stale ones, mailing owners
    whose next checkpoint is due and advancing their counters, and
    tallying errors, deletions and notifications. */
module Finder {
  import opened Claims
  import opened Decimal
  import opened Staleness

  datatype SchedulerConfig = SchedulerConfig(
    timeLabel: string,
    notifLabel: string,
    timeFormat: string,
    gracePeriod: int,
    dryRun: bool)

  /** What the pass gets from outside: the current instant, the timestamp
      parser, and whether the cluster accepts a deletion and whether the
      mail transport accepts a notification for a given claim. */
  datatype Environment = Environment(
    now: int,
    parse: TimeParser,
    deleteOk: ClaimId -> bool,
    mailOk: ClaimId -> bool)

  datatype Tallies = Tallies(errCount: nat, deleteCount: nat, emailCount: nat)

  function Total(t: Tallies): nat { t.errCount + t.deleteCount + t.emailCount }

  /** The store as the pass leaves it, its tallies, and whether the pass
      was cut short by a runtime panic. */
  datatype PassState = PassState(store: Store, tallies: Tallies, panicked: bool)

  function Start(store: Store): PassState { PassState(store, Tallies(0, 0, 0), false) }

  /** What happens to one listed claim. */
  datatype Outcome =
    | Untracked          // no timestamp label: skipped
    | BadTimestamp       // timestamp does not parse: error
    | Deleted            // stale and deleted
    | DeleteFailed       // stale, the deletion failed: error
    | DryRunDelete       // stale, dry run: counted as deleted
    | MissingCounter     // not stale, no counter label: error
    | BadCounter         // not stale, counter is not an integer: error
    | NotDue             // not stale, next checkpoint not due: nothing
    | Notified(counter: nat)  // mail sent, counter advanced from `counter`
    | DryRunNotify       // checkpoint due, dry run: counted as mailed
    | SendFailed         // checkpoint due, the mail failed: error
    | Panicked           // negative counter indexed the schedule

  /** The branch the pass takes for one listed claim, in the order of the
      source's checks. */
  function Decide(cfg: SchedulerConfig, times: seq<int>, env: Environment, pvc: Listed): Outcome
  {
    if cfg.timeLabel !in pvc.labels then Untracked
    else
      var timestamp := pvc.labels[cfg.timeLabel];
      match IsStale(env.parse, env.now, timestamp, cfg.timeFormat, cfg.gracePeriod)
      case ParseError => BadTimestamp
      case IndexPanic => BadTimestamp
      case Verdict(true) =>
        if cfg.dryRun then DryRunDelete
        else if env.deleteOk(pvc.id) then Deleted
        else DeleteFailed
      case Verdict(false) =>
        if cfg.notifLabel !in pvc.labels then MissingCounter
        else match Atoi(pvc.labels[cfg.notifLabel])
          case None => BadCounter
          case Some(currNotif) =>
            match ShouldSendMail(env.parse, env.now, timestamp, currNotif, cfg.timeFormat, cfg.gracePeriod, times)
            case ParseError => BadTimestamp
            case IndexPanic => Panicked
            case Verdict(false) => NotDue
            case Verdict(true) =>
              if cfg.dryRun then DryRunNotify
              else if env.mailOk(pvc.id) then Notified(currNotif)
              else SendFailed
  }

  function CountError(s: PassState): PassState
  {
    s.(tallies := s.tallies.(errCount := s.tallies.errCount + 1))
  }

  /** The effect of an outcome on the store and the tallies. */
  function Apply(cfg: SchedulerConfig, s: PassState, pvc: Listed, o: Outcome): PassState
  {
    match o
    case Untracked => s
    case NotDue => s
    case BadTimestamp => CountError(s)
    case DeleteFailed => CountError(s)
    case MissingCounter => CountError(s)
    case BadCounter => CountError(s)
    case SendFailed => CountError(s)
    case Deleted =>
      s.(store := s.store - {pvc.id}, tallies := s.tallies.(deleteCount := s.tallies.deleteCount + 1))
    case DryRunDelete => s.(tallies := s.tallies.(deleteCount := s.tallies.deleteCount + 1))
    case Notified(c) =>
      s.(store := WithLabel(s.store, pvc.id, cfg.notifLabel, Itoa(c + 1)),
         tallies := s.tallies.(emailCount := s.tallies.emailCount + 1))
    case DryRunNotify => s.(tallies := s.tallies.(emailCount := s.tallies.emailCount + 1))
    case Panicked => s.(panicked := true)
  }

  function Step(cfg: SchedulerConfig, times: seq<int>, env: Environment, s: PassState, pvc: Listed): PassState
  {
    Apply(cfg, s, pvc, Decide(cfg, times, env, pvc))
  }

  /** One pass over the listed claims, in list order; a panic ends it. */
  function Pass(cfg: SchedulerConfig, times: seq<int>, env: Environment, s: PassState, pvcs: seq<Listed>): PassState
    decreases |pvcs|
  {
    if pvcs == [] || s.panicked then s
    else Pass(cfg, times, env, Step(cfg, times, env, s, pvcs[0]), pvcs[1..])
  }

  // ---------------------------------------------------------------------
  // Sorting the schedule in place, largest first

  /** The position of a largest element of `a[from..]`. */
  method IndexOfMax(a: array<int>, from: nat) returns (m: nat)
    requires from < a.Length
    ensures from <= m < a.Length
    ensures forall k :: from <= k < a.Length ==> a[k] <= a[m]
  {
    m := from;
    var i := from + 1;
    while i < a.Length
      invariant from <= m < i <= a.Length
      invariant forall k :: from <= k < i ==> a[k] <= a[m]
    {
      if a[i] > a[m] {
        m := i;
      }
      i := i + 1;
    }
  }

  method Swap(a: array<int>, i: nat, j: nat)
    requires i < a.Length && j < a.Length
    modifies a
    ensures a[i] == old(a[j]) && a[j] == old(a[i])
    ensures forall k :: 0 <= k < a.Length && k != i && k != j ==> a[k] == old(a[k])
    ensures multiset(a[..]) == old(multiset(a[..]))
  {
    a[i], a[j] := a[j], a[i];
  }

  /** `sort.Slice(NotifTimes, >)`: afterwards the schedule is descending
      and holds the same checkpoints. */
  method SortDescending(a: array<int>)
    modifies a
    ensures Descending(a[..])
    ensures multiset(a[..]) == old(multiset(a[..]))
  {
    var i := 0;
    while i < a.Length
      invariant 0 <= i <= a.Length
      invariant forall p, q :: 0 <= p < q < i ==> a[p] >= a[q]
      invariant forall p, q :: 0 <= p < i <= q < a.Length ==> a[p] >= a[q]
      invariant multiset(a[..]) == old(multiset(a[..]))
    {
      var m := IndexOfMax(a, i);
      Swap(a, i, m);
      i := i + 1;
    }
  }

  // ---------------------------------------------------------------------
  // The pass

  /** The body of `FindStale`'s loop for one listed claim: the counters
      on entry are `t`; each early `return` is one of the source's
      `continue`s. */
  method ProcessClaim(cluster: Cluster, cfg: SchedulerConfig, times: seq<int>, env: Environment, pvc: Listed, t: Tallies)
    returns (tallies: Tallies, panicked: bool)
    modifies cluster
    ensures PassState(cluster.claims, tallies, panicked)
         == Step(cfg, times, env, PassState(old(cluster.claims), t, false), pvc)
  {
    tallies, panicked := t, false;
    if cfg.timeLabel !in pvc.labels {
      return;
    }
    var timestamp := pvc.labels[cfg.timeLabel];

    var stale := IsStale(env.parse, env.now, timestamp, cfg.timeFormat, cfg.gracePeriod);
    if !stale.Verdict? {
      tallies := tallies.(errCount := tallies.errCount + 1);
      return;
    }

    if stale.holds {
      if cfg.dryRun {
        tallies := tallies.(deleteCount := tallies.deleteCount + 1);
        return;
      }
      if !env.deleteOk(pvc.id) {
        tallies := tallies.(errCount := tallies.errCount + 1);
        return;
      }
      cluster.Delete(pvc.id);
      tallies := tallies.(deleteCount := tallies.deleteCount + 1);
    } else {
      if cfg.notifLabel !in pvc.labels {
        tallies := tallies.(errCount := tallies.errCount + 1);
        return;
      }
      var count := Atoi(pvc.labels[cfg.notifLabel]);
      if count.None? {
        tallies := tallies.(errCount := tallies.errCount + 1);
        return;
      }
      var currNotif := count.value;

      var shouldSend := ShouldSendMail(env.parse, env.now, timestamp, currNotif, cfg.timeFormat, cfg.gracePeriod, times);
      if shouldSend.ParseError? {
        // the same timestamp parsed with the same layout a moment ago
        assert false;
      }
      if shouldSend.IndexPanic? {
        panicked := true;
        return;
      }

      if shouldSend.holds {
        if cfg.dryRun {
          tallies := tallies.(emailCount := tallies.emailCount + 1);
          return;
        }
        if !env.mailOk(pvc.id) {
          tallies := tallies.(errCount := tallies.errCount + 1);
          return;
        }
        tallies := tallies.(emailCount := tallies.emailCount + 1);
        cluster.SetLabel(pvc.id, cfg.notifLabel, Itoa(currNotif + 1));
      }
    }
  }

  /** `FindStale`: sorts the schedule in place, then processes the listed
      claims one by one, exactly as `Pass` describes, and returns the three
      tallies (and whether a negative counter made the pass panic). */
  method FindStale(cluster: Cluster, cfg: SchedulerConfig, notifTimes: array<int>, pvcs: seq<Listed>, env: Environment)
    returns (tallies: Tallies, panicked: bool)
    modifies cluster, notifTimes
    ensures Descending(notifTimes[..])
    ensures multiset(notifTimes[..]) == old(multiset(notifTimes[..]))
    ensures PassState(cluster.claims, tallies, panicked)
         == Pass(cfg, notifTimes[..], env, Start(old(cluster.claims)), pvcs)
  {
    tallies, panicked := Tallies(0, 0, 0), false;
    SortDescending(notifTimes);
    var times := notifTimes[..];
    ghost var start := Start(cluster.claims);

    var i := 0;
    while i < |pvcs| && !panicked
      modifies cluster
      invariant 0 <= i <= |pvcs|
      invariant notifTimes[..] == times
      invariant Pass(cfg, times, env, PassState(cluster.claims, tallies, panicked), pvcs[i..])
             == Pass(cfg, times, env, start, pvcs)
    {
      assert pvcs[i..][1..] == pvcs[i + 1..];
      tallies, panicked := ProcessClaim(cluster, cfg, times, env, pvcs[i], tallies);
      i := i + 1;
    }
  }
}
