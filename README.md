# Claim lifecycle of the volume cleaner, in Dafny

The volume cleaner tracks persistent volume claims (PVCs) that were left
behind when the StatefulSet that used them was deleted, mails the owner on a
schedule of checkpoints, and deletes the claim once a grace period has
passed. The tracking state lives in two labels on the claim: a timestamp
label (when the claim was orphaned) and a notification-counter label (how
many checkpoints have been mailed).

This project models the two control loops that read and write those labels:

- the scheduler pass `FindStale` and its two decisions `IsStale` and
  `ShouldSendMail` (`internal/kubernetes/finder.go`);
- the label controller: the start-up scan `InitialScan`, the handlers
  `handleAdded` and `handleDeleted`, and the event loop `WatchSts`
  (`internal/kubernetes/watcher.go`).

The cluster is an in-memory map from claim identity (namespace, name) to a
claim (label map, optional storage class), held in the class
`Claims.Cluster` and updated in place by the methods that model the loops.
Each loop method is proved equal to a specification function over maps
(`Finder.Pass`, `Watcher.AfterScan`, `Watcher.AfterStsAdded`,
`Watcher.AfterStsDeleted`, `Watcher.AfterEvents`), and the properties are
proved about those functions.

Files:

- `claims.dfy` — module `Claims`: claims, the store, label set/remove on the
  store, the `Cluster` class.
- `decimal.dfy` — module `Decimal`: `strconv.Atoi` / `strconv.Itoa`, the
  encoding of the counter label.
- `staleness.dfy` — module `Staleness`: `IsStale`, `ShouldSendMail`, the
  descending schedule and the catch-up behaviour across passes.
- `finder.dfy` — module `Finder`: the in-place sort of the schedule, the
  per-claim decision, and `FindStale`.
- `finder_properties.dfy` — module `FinderProperties`: what a pass
  guarantees.
- `watcher.dfy` — module `Watcher`: the storage-class filter, the handlers,
  `InitialScan` and `WatchSts`.
- `watcher_properties.dfy` — module `WatcherProperties`: what the controller
  guarantees.

Time is abstracted: a timestamp label is turned into an instant in
nanoseconds by a parser parameter that may fail (`time.Parse`), the current
instant is a parameter (`time.Now`), and the controller receives the current
time already formatted (`stamp`). Elapsed days are exact integer quotients:
`IsStale` truncates toward zero like Go's `int(...)`, `ShouldSendMail`
rounds down like `math.Floor`. Deleting a claim and sending a mail are
oracles (`deleteOk`, `mailOk`) that say whether the call succeeded.

Behaviour of the code that is easy to misread:

- `IsStale` truncates the elapsed days toward zero; it does not floor them.
  The two only differ for a timestamp in the future (`Staleness.TruncFloorDays`).
- `handleAdded` stops at the first volume that is not a claim, whose claim
  cannot be fetched, or whose class does not match (`return`). `handleDeleted`
  skips such a volume and goes on (`continue`). Both are modelled as written;
  see `WatcherProperties.AddedStopsAtFirstUnhandled` and
  `WatcherProperties.DeletedTracksEveryHandled`.
- A pass advances a claim's counter by at most one. After missed passes the
  counter catches up one checkpoint per pass. It does not jump to the number
  of checkpoints due in a single pass (`Staleness.CatchUp`,
  `Staleness.FiredInOrder`).
- A negative counter label passes the `currNotif < len(NotifTimes)` test and
  then indexes the schedule out of range. That is a runtime panic, which ends
  the pass. It is modelled as the `Panicked` outcome, which stops the pass.

## Model

| member | source | states |
|---|---|---|
| `Decimal.Atoi` | internal/kubernetes/finder.go:92 | a counter label parses iff it is an optional '+' or '-' followed by one or more decimal digits and its value lies in the signed 64-bit range; the result is the digits' value, negated after '-' |
| `Decimal.Itoa` | internal/kubernetes/finder.go:129 | the written counter is a non-empty digit string without a leading zero whose decimal value is the counter |
| `Decimal.AtoiItoa` | internal/kubernetes/finder.go:92-130 | a counter written by the pass is read back as the same number on the next pass |
| `Staleness.IsStale` | internal/kubernetes/finder.go:143-159 | a timestamp that does not parse is an error; otherwise the claim is stale iff at least `gracePeriod + 1` whole days have elapsed (for a non-negative grace period), so exactly `gracePeriod` days is not stale |
| `Staleness.TruncFloorDays` | internal/kubernetes/finder.go:150-170 | truncated and floored day counts agree for past timestamps and differ by one for future timestamps that are not a whole number of days away |
| `Staleness.ShouldSendMail` | internal/kubernetes/finder.go:163-183 | parse failure is an error; a negative counter panics on the index; a yes means the counter indexes the schedule; with a descending schedule, mail is due iff the counter is below the number of checkpoints already due |
| `Staleness.FiresIffBelowDue` | internal/kubernetes/finder.go:177 | in a descending schedule the due checkpoints form a prefix, so the mail rule fires exactly while the counter is below their number |
| `Staleness.DueCountMonotone` | internal/kubernetes/finder.go:170-177 | fewer days left never means fewer checkpoints due |
| `Staleness.FiredInOrder` | internal/kubernetes/finder.go:174-179 | over any sequence of passes the checkpoints fired are consecutive indices from the current counter, at most one per pass, never past the end of the schedule |
| `Staleness.CatchUp` | internal/kubernetes/finder.go:174-179 | with the days left held fixed, `k` passes fire exactly the checkpoints from the counter up to the smaller of `counter + k` and the number due, in ascending order (none when the counter is already at or past the number due) |
| `Staleness.CounterBoundedByDue` | internal/kubernetes/finder.go:170-179 | as time moves forward the counter never overtakes the number of checkpoints due at the latest pass |
| `Finder.IndexOfMax` | internal/kubernetes/finder.go:37-39 | returns the position of a largest element of the unsorted tail |
| `Finder.SortDescending` | internal/kubernetes/finder.go:36-39 | after the sort the schedule is in descending order and is a permutation of the input |
| `Finder.ProcessClaim` | internal/kubernetes/finder.go:43-133 | one iteration of the pass loop updates the store and the counters exactly as the per-claim decision `Finder.Step` says |
| `Finder.FindStale` | internal/kubernetes/finder.go:28-139 | sorts the schedule in place (descending, same elements), then leaves the store and the three tallies exactly as `Finder.Pass` over the listed claims in order |
| `FinderProperties.ErrorCounted` | internal/kubernetes/finder.go:55-97 | an unparseable timestamp, a claim within its grace period without a counter label, and a counter label that is not an integer each count exactly one error and change nothing else |
| `FinderProperties.StepTallies` | internal/kubernetes/finder.go:42-134 | each claim increments at most one of errors, deletions and emails, by one; an error leaves the store unchanged |
| `FinderProperties.TalliesBounded` | internal/kubernetes/finder.go:32-134 | over a pass the tallies only grow, and their sum grows by at most the number of listed claims |
| `FinderProperties.TalliesAtMostListed` | internal/kubernetes/finder.go:32-134 | the three tallies of a pass add up to at most the number of claims listed |
| `FinderProperties.UntrackedSkipped` | internal/kubernetes/finder.go:48-52 | a claim without the timestamp label changes no tally, no label and no claim |
| `FinderProperties.CounterMovesOnlyOnSend` | internal/kubernetes/finder.go:106-131 | a claim changes without being deleted only if it was not stale, not a dry run, the send succeeded, and then only its counter label, rewritten to the listed counter plus one, with the email tally incremented |
| `FinderProperties.StaleNeverTouchesCounter` | internal/kubernetes/finder.go:63-78 | a stale claim is deleted (or, in a dry run or on a failed delete, left exactly as it is) and its counter is never rewritten; the matching tally is incremented |
| `FinderProperties.DryRunKeepsStore` | internal/kubernetes/finder.go:63-111 | a dry run changes no claim |
| `FinderProperties.StepFrame` | internal/kubernetes/finder.go:42-134 | one claim's processing deletes or relabels only that claim, and only its counter label |
| `FinderProperties.PassTouchesOnlyListed` | internal/kubernetes/finder.go:42-134 | a pass deletes only listed claims and changes no label other than the counter label, and that only on listed claims |
| `FinderProperties.DecideWithinGrace` | internal/kubernetes/finder.go:85-131 | for a tracked claim within its grace period whose counter label reads as `c`: when `c` is below the number of due checkpoints the outcome is a counted-only mail in a dry run, a sent mail when the transport works and a failed send otherwise; when it is not, nothing is due |
| `FinderProperties.DryRunWithinGrace` | internal/kubernetes/finder.go:106-110 | in a dry run such a claim counts one email when a checkpoint is due and changes nothing else, and changes nothing at all when none is due |
| `FinderProperties.NegativeCounterPanics` | internal/kubernetes/finder.go:174-177 | a non-stale claim whose counter reads as a negative number makes the pass panic on the schedule index; no later claim is processed |
| `FinderProperties.NotifyAdvancesCounter` | internal/kubernetes/finder.go:85-131 | for a tracked, non-stale claim whose counter label reads as `c` (any form `Atoi` accepts) and a working mail transport, the label becomes `c + 1` (read back as `c + 1`) exactly when `c` is below the number of due checkpoints; otherwise nothing changes |
| `FinderProperties.SendFailureRetried` | internal/kubernetes/finder.go:116-123 | a failed send keeps the counter and counts an error, and a later pass whose send succeeds notifies for the same checkpoint |
| `FinderProperties.ElevenDaysOldIsDeleted` | internal/kubernetes/finder.go:55-78 | grace period 10 and a timestamp 11 days old: the claim is deleted (counted only, in a dry run) |
| `FinderProperties.FourDaysOldIsNotified` | internal/kubernetes/finder.go:85-131 | schedule [7, 3, 1], grace period 10, 4 days old, counter "0": six days are left, the mail goes out and the counter becomes "1"; if the mail fails the counter stays "0" and an error is counted |
| `Watcher.ClassMatches` | internal/kubernetes/watcher.go:107-113 | a claim without a class matches only the empty configured class; otherwise the classes must be equal |
| `Watcher.TrackClaim` | internal/kubernetes/watcher.go:138-161 | processing one volume on StatefulSet deletion changes at most the two tracking labels of the claim it names |
| `Watcher.AfterStsDeleted` | internal/kubernetes/watcher.go:134-163 | on StatefulSet deletion only the two tracking labels of the referenced claims change; no claim appears or disappears and no other label or storage class changes |
| `Watcher.HandleDeleted` | internal/kubernetes/watcher.go:134-163 | the handler's loop leaves the store exactly as `Watcher.AfterStsDeleted` |
| `Watcher.UntrackClaim` | internal/kubernetes/watcher.go:115-126 | afterwards the claim carries neither tracking label, and nothing else changed |
| `Watcher.AfterStsAdded` | internal/kubernetes/watcher.go:91-129 | on StatefulSet creation only the two tracking labels of the referenced claims change |
| `Watcher.HandleAdded` | internal/kubernetes/watcher.go:91-129 | the handler's loop, with its early returns, leaves the store exactly as `Watcher.AfterStsAdded` |
| `Watcher.ScanClaim` | internal/kubernetes/watcher.go:70-82 | scanning one listed claim changes at most its two tracking labels: a timestamp label missing from the listing becomes `stamp` (when the two labels differ), a missing counter label becomes "0", and a claim listed with both is left alone |
| `Watcher.AfterScan` | internal/kubernetes/watcher.go:65-86 | the start-up scan changes at most the two tracking labels of listed claims |
| `Watcher.InitialScan` | internal/kubernetes/watcher.go:65-86 | the scan's loop leaves the store exactly as `Watcher.AfterScan` |
| `Watcher.Dispatch` | internal/kubernetes/watcher.go:41-57 | one event changes at most the tracking labels of the claims its StatefulSet refers to; which handler each event type runs is stated through the event loop by `WatcherProperties.EventsAddedThenDeleted` (`Deleted` tracks) and `WatcherProperties.EventsDeletedThenAdded` (`Added` untracks) |
| `Watcher.AfterEvents` | internal/kubernetes/watcher.go:32-59 | a stream of events changes at most the tracking labels of claims referred to by the StatefulSets it carries |
| `Watcher.WatchSts` | internal/kubernetes/watcher.go:21-61 | the event loop leaves the store exactly as `Watcher.AfterEvents` |
| `WatcherProperties.HandledStable` | internal/kubernetes/watcher.go:99-113 | label updates never change whether a volume passes the lookup and the class filter |
| `WatcherProperties.DeletedTracksEveryHandled` | internal/kubernetes/watcher.go:137-162 | after StatefulSet deletion every referenced claim that exists and matches the class carries timestamp `stamp` and counter "0", whatever volumes were skipped before it |
| `WatcherProperties.DeletedSkipsOtherClass` | internal/kubernetes/watcher.go:150-156 | on StatefulSet deletion a claim whose storage class fails the filter is left exactly as it was |
| `WatcherProperties.AddedUntracksLeadingRun` | internal/kubernetes/watcher.go:94-128 | after StatefulSet creation the claims of the leading run of handled volumes carry neither tracking label |
| `WatcherProperties.AddedStopsAtFirstUnhandled` | internal/kubernetes/watcher.go:94-113 | StatefulSet creation ignores everything from the first volume that is not a claim, cannot be fetched or fails the class filter |
| `WatcherProperties.AddedThenDeleted` | internal/kubernetes/watcher.go:116-161 | creation followed by deletion of the same StatefulSet leaves each handled claim tracked with timestamp `stamp` and counter "0", and changes nothing else |
| `WatcherProperties.EventsAddedThenDeleted` | internal/kubernetes/watcher.go:42-57 | through the event loop, an `Added` event followed by a `Deleted` event for the same StatefulSet leaves each handled claim tracked with the deletion's stamp and counter "0", so a `Deleted` event runs `handleDeleted` |
| `WatcherProperties.EventsDeletedThenAdded` | internal/kubernetes/watcher.go:42-57 | through the event loop, a `Deleted` event followed by an `Added` event for the same StatefulSet leaves the claims of its leading run of handled volumes without either tracking label, so an `Added` event runs `handleAdded` |
| `WatcherProperties.ScanNeverOverwrites` | internal/kubernetes/watcher.go:68-83 | on a listing taken from the store the scan keeps every existing label value and adds only the missing tracking labels of listed claims |
| `WatcherProperties.ScanKeepsWritten` | internal/kubernetes/watcher.go:72-81 | the scan writes only `stamp` to the timestamp label and "0" to the counter label, so it never replaces those values by others |
| `WatcherProperties.ScanTracksListed` | internal/kubernetes/watcher.go:68-83 | after the scan every listed claim that exists carries both tracking labels; one listed without a timestamp carries `stamp` (when the two labels differ), one listed without a counter carries "0" |
| `WatcherProperties.ScanOfTrackedIsIdentity` | internal/kubernetes/watcher.go:70-82 | listed claims that already carry both labels are left untouched |
| `WatcherProperties.ScanIdempotent` | internal/kubernetes/watcher.go:65-86 | a second scan over a fresh listing of the same unattached claims changes nothing |
| `WatcherProperties.CancelEndsLoop` | internal/kubernetes/watcher.go:32-38 | events delivered after the loop observes cancellation change no label |
| `WatcherProperties.IrrelevantEventsDropped` | internal/kubernetes/watcher.go:42-57 | removing non-StatefulSet payloads and event types other than Added and Deleted from the stream leaves the result unchanged |

## Left out

- The Kubernetes client (`PvcList`, `FindUnattachedPVCs`, `Get`, `Delete`, `Watch`) is replaced by the in-memory store. The two listings are inputs.
- The source of `SetPvcLabel` and `RemovePvcLabel` is not part of this model. The model assumes each sets or removes the label on the claim if the claim exists, and does nothing otherwise.
- A `Get` in the handlers fails exactly when the claim does not exist. Transport errors are not distinguished.
- A failed deletion or mail is an oracle answer per claim (`deleteOk`, `mailOk`). Building the mail (`EmailDetails`) and sending it (`SendNotif`, the HTTP client) are not modelled.
- `time.Parse` is a parser parameter, `time.Now` is a parameter, and the formatted "now" is an opaque `stamp`. The model therefore does not capture that a fresh timestamp is later than an older one.
- Elapsed time is one exact integer per pass. Go calls `time.Since` separately in `IsStale` and `ShouldSendMail`, and computes `Hours()/24` in floating point. Float rounding near a day boundary is not modelled. Neither is the saturation of `time.Duration` at about ±292 years.
- `handleDeleted` calls `time.Now()` once per volume. The model uses one stamp per event.
- `InitialScan` calls `time.Now()` once per claim. The model uses one stamp per scan.
- Logging (`log.Printf`) and `log.Fatalf` when the watch cannot be created are not modelled. The model of `WatchSts` starts once the watch exists.
- The channel `select` and context cancellation are modelled as a finite sequence of events that may contain a cancellation marker. A closed result channel, which delivers empty events forever, is not modelled.
- The race between scheduler and controller on the same labels is not modelled; each loop is modelled on its own.
- `strconv.Atoi` and `strconv.Itoa` come from the Go standard library. They are modelled from their documented behaviour on a 64-bit platform.
- `Finder.SortDescending`: Go's `sort.Slice` algorithm is not modelled; a selection sort with the same postcondition (descending, same elements) stands in for it.
