/** The label controller: the start-up scan that tracks claims already
    orphaned, and the event loop that untracks the claims of a StatefulSet
    when it is created and tracks them again when it is deleted.

    A claim is tracked when it carries the timestamp label and the
    notification-counter label. `stamp` is the current time already
    formatted with the configured layout (`time.Now().Format(...)`). */
module Watcher {
  import opened Claims

  /** The controller settings the handlers read. The configured namespace
      only scopes the watch and the listing, which arrive here as inputs,
      and the time layout is applied before `stamp` reaches the handlers. */
  datatype ControllerConfig = ControllerConfig(
    timeLabel: string,
    notifLabel: string,
    storageClass: string)

  /** A volume of the StatefulSet's pod template: a reference to a claim by
      name, or a volume of another kind. */
  datatype Volume = ClaimVolume(claimName: string) | OtherVolume

  datatype StatefulSet = StatefulSet(namespace: string, name: string, volumes: seq<Volume>)

  datatype EventType = Added | Modified | Deleted | Bookmark | Error

  /** What the watch channel delivers: an object that may or may not be a
      StatefulSet. */
  datatype Payload = StsPayload(sts: StatefulSet) | OtherPayload

  /** One turn of the controller's loop: the cancellation it observed, or
      an event together with the formatted time at which it is handled. */
  datatype Event = Cancelled | Delivered(kind: EventType, payload: Payload, stamp: string)

  /** The storage-class filter: a claim without a class matches only the
      empty configured class; otherwise the classes must be equal. */
  function ClassMatches(claimClass: Option<string>, configured: string): (r: bool)
    ensures r <==> claimClass == Some(configured) || (claimClass == None && configured == "")
  {
    if claimClass.None? then configured == "" else claimClass.value == configured
  }

  /** The claims a list of volumes refers to, in namespace `ns`. */
  function VolumeClaims(ns: string, vols: seq<Volume>): set<ClaimId>
  {
    if vols == [] then {}
    else (if vols[0].ClaimVolume? then {ClaimId(ns, vols[0].claimName)} else {}) + VolumeClaims(ns, vols[1..])
  }

  /** A volume the handlers act on: it names a claim that exists and whose
      storage class passes the filter. */
  predicate Handled(s: Store, cfg: ControllerConfig, ns: string, v: Volume)
  {
    v.ClaimVolume? && ClaimId(ns, v.claimName) in s
    && ClassMatches(s[ClaimId(ns, v.claimName)].storageClass, cfg.storageClass)
  }

  lemma OnlyLabelsChangedCompose(a: Store, b: Store, c: Store, first: set<ClaimId>, rest: set<ClaimId>, k1: string, k2: string)
    requires OnlyLabelsChanged(a, b, first, k1, k2)
    requires OnlyLabelsChanged(b, c, rest, k1, k2)
    ensures OnlyLabelsChanged(a, c, first + rest, k1, k2)
  {
  }

  // ---------------------------------------------------------------------
  // StatefulSet deleted: track its claims

  function TrackClaim(s: Store, cfg: ControllerConfig, ns: string, v: Volume, stamp: string): (r: Store)
    ensures OnlyLabelsChanged(s, r, VolumeClaims(ns, [v]), cfg.timeLabel, cfg.notifLabel)
  {
    if Handled(s, cfg, ns, v) then
      var id := ClaimId(ns, v.claimName);
      WithLabel(WithLabel(s, id, cfg.timeLabel, stamp), id, cfg.notifLabel, "0")
    else s
  }

  /** The store after `handleDeleted`: every volume is looked at; one that
      is not a claim, names a missing claim or fails the class filter is
      skipped and the next one is still processed. Only the two tracking
      labels of referenced claims can change. */
  function AfterStsDeleted(s: Store, cfg: ControllerConfig, ns: string, vols: seq<Volume>, stamp: string): (r: Store)
    ensures OnlyLabelsChanged(s, r, VolumeClaims(ns, vols), cfg.timeLabel, cfg.notifLabel)
    decreases |vols|
  {
    if vols == [] then s
    else
      var s1 := TrackClaim(s, cfg, ns, vols[0], stamp);
      var r := AfterStsDeleted(s1, cfg, ns, vols[1..], stamp);
      OnlyLabelsChangedCompose(s, s1, r, VolumeClaims(ns, [vols[0]]), VolumeClaims(ns, vols[1..]),
                               cfg.timeLabel, cfg.notifLabel);
      r
  }

  /** `handleDeleted`. */
  method HandleDeleted(cluster: Cluster, cfg: ControllerConfig, sts: StatefulSet, stamp: string)
    modifies cluster
    ensures cluster.claims == AfterStsDeleted(old(cluster.claims), cfg, sts.namespace, sts.volumes, stamp)
  {
    var vols := sts.volumes;
    var i := 0;
    while i < |vols|
      invariant 0 <= i <= |vols|
      invariant AfterStsDeleted(cluster.claims, cfg, sts.namespace, vols[i..], stamp)
             == AfterStsDeleted(old(cluster.claims), cfg, sts.namespace, vols, stamp)
    {
      var vol := vols[i];
      assert vols[i..][1..] == vols[i + 1..];
      i := i + 1;
      if vol.OtherVolume? {
        continue;
      }
      var id := ClaimId(sts.namespace, vol.claimName);
      if id !in cluster.claims {
        continue;
      }
      var pvcObj := cluster.claims[id];
      if pvcObj.storageClass.None? {
        if cfg.storageClass != "" {
          continue;
        }
      } else if pvcObj.storageClass.value != cfg.storageClass {
        continue;
      }
      cluster.SetLabel(id, cfg.timeLabel, stamp);
      cluster.SetLabel(id, cfg.notifLabel, "0");
    }
  }

  // ---------------------------------------------------------------------
  // StatefulSet added: untrack its claims

  /** Removes each tracking label the claim carries when it is fetched. */
  function UntrackClaim(s: Store, cfg: ControllerConfig, id: ClaimId): (r: Store)
    requires id in s
    ensures OnlyLabelsChanged(s, r, {id}, cfg.timeLabel, cfg.notifLabel)
    ensures cfg.timeLabel !in r[id].labels && cfg.notifLabel !in r[id].labels
  {
    var labels := s[id].labels;
    var s1 := if cfg.timeLabel in labels then WithoutLabel(s, id, cfg.timeLabel) else s;
    if cfg.notifLabel in labels then WithoutLabel(s1, id, cfg.notifLabel) else s1
  }

  /** The store after `handleAdded`: volumes are processed in order until
      the first one that is not a claim, names a missing claim or fails the
      class filter; that one and all after it are ignored. Only the two
      tracking labels of referenced claims can change. */
  function AfterStsAdded(s: Store, cfg: ControllerConfig, ns: string, vols: seq<Volume>): (r: Store)
    ensures OnlyLabelsChanged(s, r, VolumeClaims(ns, vols), cfg.timeLabel, cfg.notifLabel)
    decreases |vols|
  {
    if vols == [] || !Handled(s, cfg, ns, vols[0]) then s
    else
      var id := ClaimId(ns, vols[0].claimName);
      var s1 := UntrackClaim(s, cfg, id);
      var r := AfterStsAdded(s1, cfg, ns, vols[1..]);
      OnlyLabelsChangedCompose(s, s1, r, {id}, VolumeClaims(ns, vols[1..]), cfg.timeLabel, cfg.notifLabel);
      r
  }

  /** `handleAdded`. */
  method HandleAdded(cluster: Cluster, cfg: ControllerConfig, sts: StatefulSet)
    modifies cluster
    ensures cluster.claims == AfterStsAdded(old(cluster.claims), cfg, sts.namespace, sts.volumes)
  {
    var vols := sts.volumes;
    var i := 0;
    while i < |vols|
      invariant 0 <= i <= |vols|
      invariant AfterStsAdded(cluster.claims, cfg, sts.namespace, vols[i..])
             == AfterStsAdded(old(cluster.claims), cfg, sts.namespace, vols)
    {
      var vol := vols[i];
      assert vols[i..][1..] == vols[i + 1..];
      if vol.OtherVolume? {
        return;
      }
      var id := ClaimId(sts.namespace, vol.claimName);
      if id !in cluster.claims {
        return;
      }
      var pvcObj := cluster.claims[id];
      if pvcObj.storageClass.None? {
        if cfg.storageClass != "" {
          return;
        }
      } else if pvcObj.storageClass.value != cfg.storageClass {
        return;
      }
      if cfg.timeLabel in pvcObj.labels {
        cluster.RemoveLabel(id, cfg.timeLabel);
      }
      if cfg.notifLabel in pvcObj.labels {
        cluster.RemoveLabel(id, cfg.notifLabel);
      }
      i := i + 1;
    }
  }

  // ---------------------------------------------------------------------
  // Start-up scan

  /** One listed unattached claim: each tracking label missing from the
      listing is set, the timestamp to now and the counter to "0". */
  function ScanClaim(s: Store, cfg: ControllerConfig, pvc: Listed, stamp: string): (r: Store)
    ensures OnlyLabelsChanged(s, r, {pvc.id}, cfg.timeLabel, cfg.notifLabel)
    ensures pvc.id in s && cfg.timeLabel !in pvc.labels && cfg.timeLabel != cfg.notifLabel ==>
      cfg.timeLabel in r[pvc.id].labels && r[pvc.id].labels[cfg.timeLabel] == stamp
    ensures pvc.id in s && cfg.notifLabel !in pvc.labels ==>
      cfg.notifLabel in r[pvc.id].labels && r[pvc.id].labels[cfg.notifLabel] == "0"
    ensures cfg.timeLabel in pvc.labels && cfg.notifLabel in pvc.labels ==> r == s
  {
    var s1 := if cfg.timeLabel !in pvc.labels then WithLabel(s, pvc.id, cfg.timeLabel, stamp) else s;
    if cfg.notifLabel !in pvc.labels then WithLabel(s1, pvc.id, cfg.notifLabel, "0") else s1
  }

  /** The store after `InitialScan` over the listed unattached claims. */
  function AfterScan(s: Store, cfg: ControllerConfig, pvcs: seq<Listed>, stamp: string): (r: Store)
    ensures OnlyLabelsChanged(s, r, ListedIds(pvcs), cfg.timeLabel, cfg.notifLabel)
    decreases |pvcs|
  {
    if pvcs == [] then s
    else
      var s1 := ScanClaim(s, cfg, pvcs[0], stamp);
      var r := AfterScan(s1, cfg, pvcs[1..], stamp);
      OnlyLabelsChangedCompose(s, s1, r, {pvcs[0].id}, ListedIds(pvcs[1..]), cfg.timeLabel, cfg.notifLabel);
      r
  }

  /** `InitialScan`. */
  method InitialScan(cluster: Cluster, cfg: ControllerConfig, unattached: seq<Listed>, stamp: string)
    modifies cluster
    ensures cluster.claims == AfterScan(old(cluster.claims), cfg, unattached, stamp)
  {
    var i := 0;
    while i < |unattached|
      invariant 0 <= i <= |unattached|
      invariant AfterScan(cluster.claims, cfg, unattached[i..], stamp)
             == AfterScan(old(cluster.claims), cfg, unattached, stamp)
    {
      var pvc := unattached[i];
      ghost var before := cluster.claims;
      assert unattached[i..][1..] == unattached[i + 1..];
      if cfg.timeLabel !in pvc.labels {
        cluster.SetLabel(pvc.id, cfg.timeLabel, stamp);
      }
      if cfg.notifLabel !in pvc.labels {
        cluster.SetLabel(pvc.id, cfg.notifLabel, "0");
      }
      assert cluster.claims == ScanClaim(before, cfg, pvc, stamp);
      i := i + 1;
    }
  }

  // ---------------------------------------------------------------------
  // The event loop

  /** The claims a payload's StatefulSet refers to. */
  function PayloadClaims(payload: Payload): set<ClaimId>
  {
    if payload.StsPayload? then VolumeClaims(payload.sts.namespace, payload.sts.volumes) else {}
  }

  /** The claims referred to by the StatefulSets of a stream of events. */
  function EventClaims(events: seq<Event>): set<ClaimId>
  {
    if events == [] then {}
    else (if events[0].Delivered? then PayloadClaims(events[0].payload) else {}) + EventClaims(events[1..])
  }

  /** One event: a payload that is not a StatefulSet is dropped; only
      `Added` and `Deleted` reach a handler. */
  function Dispatch(s: Store, cfg: ControllerConfig, kind: EventType, payload: Payload, stamp: string): (r: Store)
    ensures OnlyLabelsChanged(s, r, PayloadClaims(payload), cfg.timeLabel, cfg.notifLabel)
  {
    match payload
    case OtherPayload => s
    case StsPayload(sts) =>
      match kind
      case Added => AfterStsAdded(s, cfg, sts.namespace, sts.volumes)
      case Deleted => AfterStsDeleted(s, cfg, sts.namespace, sts.volumes, stamp)
      case _ => s
  }

  /** The store after the loop has consumed `events`; it returns at the
      first cancellation. */
  function AfterEvents(s: Store, cfg: ControllerConfig, events: seq<Event>): (r: Store)
    ensures OnlyLabelsChanged(s, r, EventClaims(events), cfg.timeLabel, cfg.notifLabel)
    decreases |events|
  {
    if events == [] then s
    else match events[0]
      case Cancelled => s
      case Delivered(kind, payload, stamp) =>
        var s1 := Dispatch(s, cfg, kind, payload, stamp);
        var r := AfterEvents(s1, cfg, events[1..]);
        OnlyLabelsChangedCompose(s, s1, r, PayloadClaims(payload), EventClaims(events[1..]),
                                 cfg.timeLabel, cfg.notifLabel);
        r
  }

  /** `WatchSts`, from the moment the watch is established. */
  method WatchSts(cluster: Cluster, cfg: ControllerConfig, events: seq<Event>)
    modifies cluster
    ensures cluster.claims == AfterEvents(old(cluster.claims), cfg, events)
  {
    var i := 0;
    while i < |events|
      invariant 0 <= i <= |events|
      invariant AfterEvents(cluster.claims, cfg, events[i..]) == AfterEvents(old(cluster.claims), cfg, events)
    {
      var event := events[i];
      assert events[i..][1..] == events[i + 1..];
      i := i + 1;
      match event
      case Cancelled =>
        return;
      case Delivered(kind, payload, stamp) =>
        if !payload.StsPayload? {
          continue;
        }
        var sts := payload.sts;
        match kind
        case Added =>
          HandleAdded(cluster, cfg, sts);
        case Deleted =>
          HandleDeleted(cluster, cfg, sts, stamp);
        case _ =>
    }
  }
}
