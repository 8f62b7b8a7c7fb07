/** What the label controller promises about tracking labels. */
module WatcherProperties {
  import opened Claims
  import opened Watcher

  /** The handlers never create or delete claims nor change a storage
      class, so whether a volume is handled does not depend on earlier
      label updates. */
  lemma HandledStable(s: Store, r: Store, cfg: ControllerConfig, ns: string, v: Volume, touched: set<ClaimId>)
    requires OnlyLabelsChanged(s, r, touched, cfg.timeLabel, cfg.notifLabel)
    ensures Handled(s, cfg, ns, v) == Handled(r, cfg, ns, v)
  {
  }

  /** The claim `id` carries the tracking labels of a claim orphaned at `stamp`. */
  ghost predicate FreshlyTracked(s: Store, cfg: ControllerConfig, id: ClaimId, stamp: string)
  {
    && id in s
    && cfg.timeLabel in s[id].labels && s[id].labels[cfg.timeLabel] == stamp
    && cfg.notifLabel in s[id].labels && s[id].labels[cfg.notifLabel] == "0"
  }

  lemma {:induction false} DeletedKeepsTracked(s: Store, cfg: ControllerConfig, ns: string, vols: seq<Volume>, stamp: string, id: ClaimId)
    requires cfg.timeLabel != cfg.notifLabel
    requires FreshlyTracked(s, cfg, id, stamp)
    ensures FreshlyTracked(AfterStsDeleted(s, cfg, ns, vols, stamp), cfg, id, stamp)
    decreases |vols|
  {
    if vols != [] {
      DeletedKeepsTracked(TrackClaim(s, cfg, ns, vols[0], stamp), cfg, ns, vols[1..], stamp, id);
    }
  }

  /** After `handleDeleted`, every claim the StatefulSet referred to that
      exists and passes the class filter carries the timestamp `stamp` and
      the counter "0", wherever its volume appears in the list: volumes
      skipped before it do not stop the handler. */
  lemma {:induction false} DeletedTracksEveryHandled(s: Store, cfg: ControllerConfig, ns: string, vols: seq<Volume>, stamp: string, j: nat)
    requires cfg.timeLabel != cfg.notifLabel
    requires j < |vols| && Handled(s, cfg, ns, vols[j])
    ensures FreshlyTracked(AfterStsDeleted(s, cfg, ns, vols, stamp), cfg, ClaimId(ns, vols[j].claimName), stamp)
    decreases |vols|
  {
    var s1 := TrackClaim(s, cfg, ns, vols[0], stamp);
    if j == 0 {
      DeletedKeepsTracked(s1, cfg, ns, vols[1..], stamp, ClaimId(ns, vols[0].claimName));
    } else {
      HandledStable(s, s1, cfg, ns, vols[j], VolumeClaims(ns, [vols[0]]));
      DeletedTracksEveryHandled(s1, cfg, ns, vols[1..], stamp, j - 1);
    }
  }

  /** `handleDeleted` leaves a claim whose storage class fails the filter
      exactly as it was, even when the StatefulSet refers to it. */
  lemma {:induction false} DeletedSkipsOtherClass(s: Store, cfg: ControllerConfig, ns: string, vols: seq<Volume>, stamp: string, id: ClaimId)
    requires id in s && !ClassMatches(s[id].storageClass, cfg.storageClass)
    ensures AfterStsDeleted(s, cfg, ns, vols, stamp)[id] == s[id]
    decreases |vols|
  {
    if vols != [] {
      var s1 := TrackClaim(s, cfg, ns, vols[0], stamp);
      assert s1[id] == s[id];
      DeletedSkipsOtherClass(s1, cfg, ns, vols[1..], stamp, id);
    }
  }

  /** After `handleAdded`, the claims of the leading run of handled volumes
      carry neither tracking label. */
  lemma {:induction false} AddedUntracksLeadingRun(s: Store, cfg: ControllerConfig, ns: string, vols: seq<Volume>, j: nat)
    requires j < |vols| && Handled(s, cfg, ns, vols[j])
    requires forall i :: 0 <= i < j ==> Handled(s, cfg, ns, vols[i])
    ensures var r := AfterStsAdded(s, cfg, ns, vols);
      var id := ClaimId(ns, vols[j].claimName);
      id in r && cfg.timeLabel !in r[id].labels && cfg.notifLabel !in r[id].labels
    decreases |vols|
  {
    var id0 := ClaimId(ns, vols[0].claimName);
    var s1 := UntrackClaim(s, cfg, id0);
    var rest := vols[1..];
    if j == 0 {
      AddedKeepsUntracked(s1, cfg, ns, rest, id0);
    } else {
      forall i | 0 <= i < j ensures Handled(s1, cfg, ns, rest[i]) {
        HandledStable(s, s1, cfg, ns, rest[i], {id0});
      }
      AddedUntracksLeadingRun(s1, cfg, ns, rest, j - 1);
    }
  }

  lemma {:induction false} AddedKeepsUntracked(s: Store, cfg: ControllerConfig, ns: string, vols: seq<Volume>, id: ClaimId)
    requires id in s && cfg.timeLabel !in s[id].labels && cfg.notifLabel !in s[id].labels
    ensures var r := AfterStsAdded(s, cfg, ns, vols);
      id in r && cfg.timeLabel !in r[id].labels && cfg.notifLabel !in r[id].labels
    decreases |vols|
  {
    if vols != [] && Handled(s, cfg, ns, vols[0]) {
      AddedKeepsUntracked(UntrackClaim(s, cfg, ClaimId(ns, vols[0].claimName)), cfg, ns, vols[1..], id);
    }
  }

  /** `handleAdded` returns at the first volume that is not a claim, names
      a missing claim or fails the class filter: everything from that
      volume on is ignored, unlike in `handleDeleted`. */
  lemma {:induction false} AddedStopsAtFirstUnhandled(s: Store, cfg: ControllerConfig, ns: string, vols: seq<Volume>, k: nat)
    requires k < |vols| && !Handled(s, cfg, ns, vols[k])
    ensures AfterStsAdded(s, cfg, ns, vols) == AfterStsAdded(s, cfg, ns, vols[..k])
    decreases |vols|
  {
    if k > 0 && Handled(s, cfg, ns, vols[0]) {
      var s1 := UntrackClaim(s, cfg, ClaimId(ns, vols[0].claimName));
      HandledStable(s, s1, cfg, ns, vols[k], {ClaimId(ns, vols[0].claimName)});
      AddedStopsAtFirstUnhandled(s1, cfg, ns, vols[1..], k - 1);
      assert vols[..k][1..] == vols[1..][..k - 1];
    }
  }

  /** A StatefulSet created and then deleted again leaves each of its
      handled claims tracked afresh (timestamp `stamp`, counter "0"), and
      no other label and no other claim changed. */
  lemma AddedThenDeleted(s: Store, cfg: ControllerConfig, sts: StatefulSet, stamp: string, j: nat)
    requires cfg.timeLabel != cfg.notifLabel
    requires j < |sts.volumes| && Handled(s, cfg, sts.namespace, sts.volumes[j])
    ensures var r := AfterStsDeleted(AfterStsAdded(s, cfg, sts.namespace, sts.volumes), cfg, sts.namespace, sts.volumes, stamp);
      && FreshlyTracked(r, cfg, ClaimId(sts.namespace, sts.volumes[j].claimName), stamp)
      && OnlyLabelsChanged(s, r, VolumeClaims(sts.namespace, sts.volumes), cfg.timeLabel, cfg.notifLabel)
  {
    var ns := sts.namespace;
    var a := AfterStsAdded(s, cfg, ns, sts.volumes);
    HandledStable(s, a, cfg, ns, sts.volumes[j], VolumeClaims(ns, sts.volumes));
    DeletedTracksEveryHandled(a, cfg, ns, sts.volumes, stamp, j);
    var r := AfterStsDeleted(a, cfg, ns, sts.volumes, stamp);
    OnlyLabelsChangedCompose(s, a, r, VolumeClaims(ns, sts.volumes), VolumeClaims(ns, sts.volumes),
                             cfg.timeLabel, cfg.notifLabel);
    assert VolumeClaims(ns, sts.volumes) + VolumeClaims(ns, sts.volumes) == VolumeClaims(ns, sts.volumes);
  }

  /** The same round trip through the event loop: an `Added` event runs
      `handleAdded` and a `Deleted` event runs `handleDeleted`, so a
      StatefulSet created and then deleted leaves each handled claim
      tracked with the stamp of the deletion. */
  lemma EventsAddedThenDeleted(s: Store, cfg: ControllerConfig, sts: StatefulSet, st1: string, st2: string, j: nat)
    requires cfg.timeLabel != cfg.notifLabel
    requires j < |sts.volumes| && Handled(s, cfg, sts.namespace, sts.volumes[j])
    ensures FreshlyTracked(AfterEvents(s, cfg, [Delivered(Added, StsPayload(sts), st1), Delivered(Deleted, StsPayload(sts), st2)]),
                           cfg, ClaimId(sts.namespace, sts.volumes[j].claimName), st2)
  {
    TwoEvents(s, cfg, Delivered(Added, StsPayload(sts), st1), Delivered(Deleted, StsPayload(sts), st2));
    AddedThenDeleted(s, cfg, sts, st2, j);
  }

  /** Through the event loop the other way round: a `Deleted` event
      followed by an `Added` event for the same StatefulSet leaves the
      claims of its leading run of handled volumes without either tracking
      label, so a re-attached claim is no longer a candidate for deletion. */
  lemma EventsDeletedThenAdded(s: Store, cfg: ControllerConfig, sts: StatefulSet, st1: string, st2: string, j: nat)
    requires j < |sts.volumes| && Handled(s, cfg, sts.namespace, sts.volumes[j])
    requires forall i :: 0 <= i < j ==> Handled(s, cfg, sts.namespace, sts.volumes[i])
    ensures var r := AfterEvents(s, cfg, [Delivered(Deleted, StsPayload(sts), st1), Delivered(Added, StsPayload(sts), st2)]);
      var id := ClaimId(sts.namespace, sts.volumes[j].claimName);
      id in r && cfg.timeLabel !in r[id].labels && cfg.notifLabel !in r[id].labels
  {
    var ns := sts.namespace;
    DeletedThenAddedHandlers(s, cfg, sts, st1, st2);
    var d := AfterStsDeleted(s, cfg, ns, sts.volumes, st1);
    HandledPrefixStable(s, d, cfg, ns, sts.volumes, j, VolumeClaims(ns, sts.volumes));
    AddedUntracksLeadingRun(d, cfg, ns, sts.volumes, j);
  }

  /** A `Deleted` then an `Added` event run `handleDeleted` then `handleAdded`. */
  lemma DeletedThenAddedHandlers(s: Store, cfg: ControllerConfig, sts: StatefulSet, st1: string, st2: string)
    ensures AfterEvents(s, cfg, [Delivered(Deleted, StsPayload(sts), st1), Delivered(Added, StsPayload(sts), st2)])
         == AfterStsAdded(AfterStsDeleted(s, cfg, sts.namespace, sts.volumes, st1), cfg, sts.namespace, sts.volumes)
  {
    TwoEvents(s, cfg, Delivered(Deleted, StsPayload(sts), st1), Delivered(Added, StsPayload(sts), st2));
  }

  /** `HandledStable` for every volume up to index `j`. */
  lemma HandledPrefixStable(s: Store, r: Store, cfg: ControllerConfig, ns: string, vols: seq<Volume>, j: nat, touched: set<ClaimId>)
    requires OnlyLabelsChanged(s, r, touched, cfg.timeLabel, cfg.notifLabel)
    requires j < |vols|
    requires forall i :: 0 <= i <= j ==> Handled(s, cfg, ns, vols[i])
    ensures forall i :: 0 <= i <= j ==> Handled(r, cfg, ns, vols[i])
  {
    forall i | 0 <= i <= j
      ensures Handled(r, cfg, ns, vols[i])
    {
      HandledStable(s, r, cfg, ns, vols[i], touched);
    }
  }

  /** Two delivered events are dispatched one after the other. */
  lemma TwoEvents(s: Store, cfg: ControllerConfig, e1: Event, e2: Event)
    requires e1.Delivered? && e2.Delivered?
    ensures AfterEvents(s, cfg, [e1, e2]) ==
      Dispatch(Dispatch(s, cfg, e1.kind, e1.payload, e1.stamp), cfg, e2.kind, e2.payload, e2.stamp)
  {
    var s1 := Dispatch(s, cfg, e1.kind, e1.payload, e1.stamp);
    assert [e1, e2][1..] == [e2];
    assert [e2][1..] == [];
    assert AfterEvents(s1, cfg, [e2]) == Dispatch(s1, cfg, e2.kind, e2.payload, e2.stamp);
  }

  // ---------------------------------------------------------------------
  // Start-up scan

  /** A listing taken from the store: each listed claim that exists is
      listed with its current labels. */
  ghost predicate ListedFrom(s: Store, pvcs: seq<Listed>)
  {
    forall i :: 0 <= i < |pvcs| && pvcs[i].id in s ==> pvcs[i].labels == s[pvcs[i].id].labels
  }

  /** `r` keeps every label value `s0` had and every label `s` had. */
  ghost predicate KeepsLabels(s0: Store, s: Store, r: Store)
  {
    && r.Keys == s.Keys
    && (forall c, k :: c in s && k in s[c].labels ==> k in r[c].labels)
    && (forall c, k ::
          (c in s0 && c in s && k in s0[c].labels && k in s[c].labels && s[c].labels[k] == s0[c].labels[k])
          ==> r[c].labels[k] == s0[c].labels[k])
  }

  lemma {:induction false} ScanKeeps(s0: Store, s: Store, cfg: ControllerConfig, pvcs: seq<Listed>, stamp: string)
    requires ListedFrom(s0, pvcs)
    requires s.Keys == s0.Keys
    ensures KeepsLabels(s0, s, AfterScan(s, cfg, pvcs, stamp))
    decreases |pvcs|
  {
    if pvcs != [] {
      var s1 := ScanClaim(s, cfg, pvcs[0], stamp);
      assert ListedFrom(s0, pvcs[1..]) by {
        forall i | 0 <= i < |pvcs[1..]| && pvcs[1..][i].id in s0
          ensures pvcs[1..][i].labels == s0[pvcs[1..][i].id].labels
        {
          assert pvcs[1..][i] == pvcs[i + 1];
        }
      }
      assert KeepsLabels(s0, s, s1);
      ScanKeeps(s0, s1, cfg, pvcs[1..], stamp);
    }
  }

  /** `InitialScan` on a listing taken from the store never overwrites a
      label value that was there, and adds no label but the two tracking
      labels on listed claims. */
  lemma ScanNeverOverwrites(s: Store, cfg: ControllerConfig, pvcs: seq<Listed>, stamp: string)
    requires ListedFrom(s, pvcs)
    ensures var r := AfterScan(s, cfg, pvcs, stamp);
      && OnlyLabelsChanged(s, r, ListedIds(pvcs), cfg.timeLabel, cfg.notifLabel)
      && (forall c, k :: c in s && k in s[c].labels ==> k in r[c].labels && r[c].labels[k] == s[c].labels[k])
  {
    ScanKeeps(s, s, cfg, pvcs, stamp);
  }

  /** The claim `id` carries both tracking labels. */
  ghost predicate Tracked(s: Store, cfg: ControllerConfig, id: ClaimId)
  {
    id in s && cfg.timeLabel in s[id].labels && cfg.notifLabel in s[id].labels
  }

  /** Scanning never replaces a timestamp `stamp` or a counter "0" by
      anything else: the scan writes only those two values. */
  lemma {:induction false} ScanKeepsWritten(s: Store, cfg: ControllerConfig, pvcs: seq<Listed>, stamp: string, id: ClaimId)
    requires id in s
    ensures var r := AfterScan(s, cfg, pvcs, stamp);
      && (cfg.timeLabel != cfg.notifLabel && cfg.timeLabel in s[id].labels && s[id].labels[cfg.timeLabel] == stamp ==>
            cfg.timeLabel in r[id].labels && r[id].labels[cfg.timeLabel] == stamp)
      && (cfg.notifLabel in s[id].labels && s[id].labels[cfg.notifLabel] == "0" ==>
            cfg.notifLabel in r[id].labels && r[id].labels[cfg.notifLabel] == "0")
    decreases |pvcs|
  {
    if pvcs != [] {
      var s1 := ScanClaim(s, cfg, pvcs[0], stamp);
      ScanClaimKeepsWritten(s, cfg, pvcs[0], stamp, id);
      ScanKeepsWritten(s1, cfg, pvcs[1..], stamp, id);
    }
  }

  lemma ScanClaimKeepsWritten(s: Store, cfg: ControllerConfig, pvc: Listed, stamp: string, id: ClaimId)
    requires id in s
    ensures var r := ScanClaim(s, cfg, pvc, stamp);
      && (cfg.timeLabel != cfg.notifLabel && cfg.timeLabel in s[id].labels && s[id].labels[cfg.timeLabel] == stamp ==>
            cfg.timeLabel in r[id].labels && r[id].labels[cfg.timeLabel] == stamp)
      && (cfg.notifLabel in s[id].labels && s[id].labels[cfg.notifLabel] == "0" ==>
            cfg.notifLabel in r[id].labels && r[id].labels[cfg.notifLabel] == "0")
  {
    var s1 := if cfg.timeLabel !in pvc.labels then WithLabel(s, pvc.id, cfg.timeLabel, stamp) else s;
    if id == pvc.id {
      assert s1[id].labels == if cfg.timeLabel !in pvc.labels then s[id].labels[cfg.timeLabel := stamp] else s[id].labels;
    } else {
      assert s1[id] == s[id];
    }
  }

  /** After `InitialScan` on a listing taken from the store, every listed
      claim that exists is tracked; a timestamp label it was listed without
      is `stamp`, and a counter label it was listed without is "0". */
  lemma {:induction false} ScanTracksListed(s0: Store, s: Store, cfg: ControllerConfig, pvcs: seq<Listed>, stamp: string, j: nat)
    requires ListedFrom(s0, pvcs)
    requires s.Keys == s0.Keys
    requires forall c, k :: c in s0 && k in s0[c].labels ==> k in s[c].labels
    requires j < |pvcs| && pvcs[j].id in s0
    ensures Tracked(AfterScan(s, cfg, pvcs, stamp), cfg, pvcs[j].id)
    ensures var r := AfterScan(s, cfg, pvcs, stamp);
      var id := pvcs[j].id;
      && (cfg.timeLabel !in s0[id].labels && cfg.timeLabel != cfg.notifLabel ==> r[id].labels[cfg.timeLabel] == stamp)
      && (cfg.notifLabel !in s0[id].labels ==> r[id].labels[cfg.notifLabel] == "0")
  {
    ScanLabelsPresent(s0, s, cfg, pvcs, stamp, j);
    ScanWritesMissing(s0, s, cfg, pvcs, stamp, j);
  }

  lemma {:induction false} ScanLabelsPresent(s0: Store, s: Store, cfg: ControllerConfig, pvcs: seq<Listed>, stamp: string, j: nat)
    requires ListedFrom(s0, pvcs)
    requires s.Keys == s0.Keys
    requires forall c, k :: c in s0 && k in s0[c].labels ==> k in s[c].labels
    requires j < |pvcs| && pvcs[j].id in s0
    ensures Tracked(AfterScan(s, cfg, pvcs, stamp), cfg, pvcs[j].id)
    decreases |pvcs|
  {
    var s1 := ScanClaim(s, cfg, pvcs[0], stamp);
    ScanClaimAddsOnly(s, cfg, pvcs[0], stamp);
    ListedFromTail(s0, pvcs);
    ScanKeeps(s0, s1, cfg, pvcs[1..], stamp);
    if j == 0 {
      assert pvcs[0].labels == s0[pvcs[0].id].labels;
      assert Tracked(s1, cfg, pvcs[0].id);
    } else {
      ScanLabelsPresent(s0, s1, cfg, pvcs[1..], stamp, j - 1);
    }
  }

  /** One scan step only adds labels: every claim keeps every label it had,
      and the listed claim gains the tracking labels its listing lacked. */
  lemma ScanClaimAddsOnly(s: Store, cfg: ControllerConfig, pvc: Listed, stamp: string)
    ensures var r := ScanClaim(s, cfg, pvc, stamp);
      && r.Keys == s.Keys
      && (forall c, k :: c in s && k in s[c].labels ==> k in r[c].labels)
      && (pvc.id in s && cfg.timeLabel !in pvc.labels ==> cfg.timeLabel in r[pvc.id].labels)
      && (pvc.id in s && cfg.notifLabel !in pvc.labels ==> cfg.notifLabel in r[pvc.id].labels)
  {
  }

  /** The values the scan leaves in the labels a listed claim lacked. */
  lemma {:induction false} ScanWritesMissing(s0: Store, s: Store, cfg: ControllerConfig, pvcs: seq<Listed>, stamp: string, j: nat)
    requires ListedFrom(s0, pvcs)
    requires s.Keys == s0.Keys
    requires j < |pvcs| && pvcs[j].id in s0
    ensures var r := AfterScan(s, cfg, pvcs, stamp);
      var id := pvcs[j].id;
      && (cfg.timeLabel !in s0[id].labels && cfg.timeLabel != cfg.notifLabel ==>
            cfg.timeLabel in r[id].labels && r[id].labels[cfg.timeLabel] == stamp)
      && (cfg.notifLabel !in s0[id].labels ==>
            cfg.notifLabel in r[id].labels && r[id].labels[cfg.notifLabel] == "0")
    decreases |pvcs|
  {
    var s1 := ScanClaim(s, cfg, pvcs[0], stamp);
    if j == 0 {
      assert pvcs[0].labels == s0[pvcs[0].id].labels;
      ScanKeepsWritten(s1, cfg, pvcs[1..], stamp, pvcs[0].id);
    } else {
      ListedFromTail(s0, pvcs);
      ScanWritesMissing(s0, s1, cfg, pvcs[1..], stamp, j - 1);
    }
  }

  lemma ListedFromTail(s0: Store, pvcs: seq<Listed>)
    requires pvcs != [] && ListedFrom(s0, pvcs)
    ensures ListedFrom(s0, pvcs[1..])
  {
    forall i | 0 <= i < |pvcs[1..]| && pvcs[1..][i].id in s0
      ensures pvcs[1..][i].labels == s0[pvcs[1..][i].id].labels
    {
      assert pvcs[1..][i] == pvcs[i + 1];
    }
  }

  /** A claim listed with both tracking labels is left as it is. */
  lemma {:induction false} ScanOfTrackedIsIdentity(s: Store, cfg: ControllerConfig, pvcs: seq<Listed>, stamp: string)
    requires forall i :: 0 <= i < |pvcs| ==> cfg.timeLabel in pvcs[i].labels && cfg.notifLabel in pvcs[i].labels
    ensures AfterScan(s, cfg, pvcs, stamp) == s
    decreases |pvcs|
  {
    if pvcs != [] {
      ScanOfTrackedIsIdentity(s, cfg, pvcs[1..], stamp);
    }
  }

  /** Running `InitialScan` a second time, on a fresh listing of the same
      unattached claims, changes nothing. */
  lemma ScanIdempotent(s: Store, cfg: ControllerConfig, pvcs: seq<Listed>, again: seq<Listed>, stamp: string, stamp2: string)
    requires ListedFrom(s, pvcs)
    requires ListedFrom(AfterScan(s, cfg, pvcs, stamp), again)
    requires forall i :: 0 <= i < |again| ==> again[i].id in s && again[i].id in ListedIds(pvcs)
    ensures AfterScan(AfterScan(s, cfg, pvcs, stamp), cfg, again, stamp2) == AfterScan(s, cfg, pvcs, stamp)
  {
    var r := AfterScan(s, cfg, pvcs, stamp);
    forall i | 0 <= i < |again|
      ensures cfg.timeLabel in again[i].labels && cfg.notifLabel in again[i].labels
    {
      var j := ListedIndex(pvcs, again[i].id);
      ScanTracksListed(s, s, cfg, pvcs, stamp, j);
    }
    ScanOfTrackedIsIdentity(r, cfg, again, stamp2);
  }

  /** Where in the listing a listed claim appears. */
  lemma {:induction false} ListedIndexExists(pvcs: seq<Listed>, id: ClaimId)
    requires id in ListedIds(pvcs)
    ensures exists j :: 0 <= j < |pvcs| && pvcs[j].id == id
  {
    if pvcs[0].id != id {
      ListedIndexExists(pvcs[1..], id);
      var j :| 0 <= j < |pvcs[1..]| && pvcs[1..][j].id == id;
      assert pvcs[j + 1].id == id;
    }
  }

  ghost function ListedIndex(pvcs: seq<Listed>, id: ClaimId): (j: nat)
    requires id in ListedIds(pvcs)
    ensures j < |pvcs| && pvcs[j].id == id
  {
    ListedIndexExists(pvcs, id);
    var j :| 0 <= j < |pvcs| && pvcs[j].id == id; j
  }

  // ---------------------------------------------------------------------
  // The event loop

  /** Once the loop observes cancellation it returns: nothing delivered
      afterwards changes a label. */
  lemma {:induction false} CancelEndsLoop(s: Store, cfg: ControllerConfig, before: seq<Event>, after: seq<Event>)
    ensures AfterEvents(s, cfg, before + [Cancelled] + after) == AfterEvents(s, cfg, before)
    decreases |before|
  {
    if before == [] {
      assert (before + [Cancelled] + after)[0] == Cancelled;
    } else {
      assert (before + [Cancelled] + after)[1..] == before[1..] + [Cancelled] + after;
      match before[0]
      case Cancelled =>
      case Delivered(kind, payload, stamp) =>
        CancelEndsLoop(Dispatch(s, cfg, kind, payload, stamp), cfg, before[1..], after);
    }
  }

  /** The events that can change a label: cancellations, and `Added` or
      `Deleted` events that carry a StatefulSet. */
  predicate Relevant(e: Event)
  {
    e.Cancelled? || (e.payload.StsPayload? && (e.kind == Added || e.kind == Deleted))
  }

  function RelevantOnly(events: seq<Event>): (r: seq<Event>)
    ensures forall i :: 0 <= i < |r| ==> Relevant(r[i])
  {
    if events == [] then []
    else if Relevant(events[0]) then [events[0]] + RelevantOnly(events[1..])
    else RelevantOnly(events[1..])
  }

  /** Payloads that are not StatefulSets and event types other than
      `Added` and `Deleted` are dropped: removing them from the stream
      leaves the outcome unchanged. */
  lemma {:induction false} IrrelevantEventsDropped(s: Store, cfg: ControllerConfig, events: seq<Event>)
    ensures AfterEvents(s, cfg, events) == AfterEvents(s, cfg, RelevantOnly(events))
    decreases |events|
  {
    if events != [] {
      var e := events[0];
      if e.Delivered? {
        var s1 := Dispatch(s, cfg, e.kind, e.payload, e.stamp);
        IrrelevantEventsDropped(s1, cfg, events[1..]);
        if Relevant(e) {
          assert ([e] + RelevantOnly(events[1..]))[1..] == RelevantOnly(events[1..]);
        }
      }
    }
  }
}
