/** The alert handlers of src/convex/alerts.ts: the record `createAlert`
    stores, the patches of `acknowledgeAlert` and `resolveAlert`, the
    lifecycle state the dashboard reads off an alert, and `getFieldAlerts`.
    (The three mutations themselves live on `DataStore.Store`.) */
module Alerts {
  import opened Schema
  import opened Database

  /** The arguments of `createAlert`. */
  datatype AlertInput = AlertInput(
    fieldId: Id,
    alertType: AlertType,
    severity: Severity,
    title: string,
    description: string,
    location: Option<LatLng>)

  // ---------------------------------------------------------------------------
  // Lifecycle
  // ---------------------------------------------------------------------------

  datatype AlertState = Active | Acknowledged | Resolved

  /** The state the alerts panel shows (src/components/AlertsPanel.tsx): resolved
      wins; otherwise an acknowledger makes the alert acknowledged. */
  function StateOf(a: Alert): AlertState
  {
    if a.resolved then Resolved
    else if a.acknowledgedBy.Some? then Acknowledged
    else Active
  }

  function Rank(s: AlertState): nat
  {
    match s
    case Active => 0
    case Acknowledged => 1
    case Resolved => 2
  }

  /** The lifecycle: Active -> Acknowledged -> Resolved, Active -> Resolved,
      and the tolerated repeats (re-acknowledging, re-resolving). Nothing goes
      back, and nothing returns to Active. */
  predicate LegalStep(from: AlertState, to: AlertState)
  {
    to != Active && Rank(from) <= Rank(to)
  }

  /** What `createAlert` stores: its arguments, `resolved: false`, and neither
      acknowledgement nor resolution stamps. */
  function NewAlert(input: AlertInput): (a: Alert)
    ensures a.fieldId == input.fieldId && a.alertType == input.alertType && a.severity == input.severity
    ensures a.title == input.title && a.description == input.description && a.location == input.location
    ensures !a.resolved && a.acknowledgedBy.None? && a.acknowledgedAt.None? && a.resolvedAt.None?
    ensures StateOf(a) == Active
  {
    Alert(input.fieldId, input.alertType, input.severity, input.title, input.description, input.location,
          None, None, false, None)
  }

  /** The patch of `acknowledgeAlert`: no guard on the prior state, so a second
      acknowledgement overwrites the first, even on a resolved alert. */
  function Acknowledge(a: Alert, user: UserId, now: int): (b: Alert)
    ensures b.acknowledgedBy == Some(user) && b.acknowledgedAt == Some(now)
    ensures b.resolved == a.resolved && b.resolvedAt == a.resolvedAt
    ensures b.fieldId == a.fieldId && b.alertType == a.alertType && b.severity == a.severity
    ensures b.title == a.title && b.description == a.description && b.location == a.location
    ensures StateOf(b) == (if StateOf(a) == Resolved then Resolved else Acknowledged)
  {
    a.(acknowledgedBy := Some(user), acknowledgedAt := Some(now))
  }

  /** The patch of `resolveAlert`: legal from every state, it keeps the
      acknowledger. */
  function Resolve(a: Alert, now: int): (b: Alert)
    ensures b.resolved && b.resolvedAt == Some(now)
    ensures b.acknowledgedBy == a.acknowledgedBy && b.acknowledgedAt == a.acknowledgedAt
    ensures b.fieldId == a.fieldId && b.alertType == a.alertType && b.severity == a.severity
    ensures b.title == a.title && b.description == a.description && b.location == a.location
    ensures StateOf(b) == Resolved
  {
    a.(resolved := true, resolvedAt := Some(now))
  }

  /** Both patches move along the lifecycle. */
  lemma PatchesAreLegalSteps(a: Alert, user: UserId, now: int)
    ensures LegalStep(StateOf(a), StateOf(Acknowledge(a, user, now)))
    ensures LegalStep(StateOf(a), StateOf(Resolve(a, now)))
  {
  }

  /** A patch one of the two transition handlers applies. */
  datatype Transition = AcknowledgeBy(user: UserId, at: int) | ResolveAt(at: int)

  function Apply(a: Alert, t: Transition): Alert
  {
    match t
    case AcknowledgeBy(user, at) => Acknowledge(a, user, at)
    case ResolveAt(at) => Resolve(a, at)
  }

  /** An alert after a run of transitions, first to last. */
  function Replay(a: Alert, ts: seq<Transition>): Alert
    decreases ts
  {
    if ts == [] then a else Replay(Apply(a, ts[0]), ts[1..])
  }

  /** Lifecycle monotonicity over any run of transitions: the state never moves
      back, an acknowledger is never cleared, and a resolved alert stays
      resolved. */
  lemma {:induction false} ReplayMonotone(a: Alert, ts: seq<Transition>)
    ensures Rank(StateOf(a)) <= Rank(StateOf(Replay(a, ts)))
    ensures a.acknowledgedBy.Some? ==> Replay(a, ts).acknowledgedBy.Some?
    ensures a.resolved ==> Replay(a, ts).resolved
    ensures ts != [] ==> StateOf(Replay(a, ts)) != Active
    decreases ts
  {
    if ts != [] {
      ReplayMonotone(Apply(a, ts[0]), ts[1..]);
    }
  }

  /** No alert that was resolved in `before` is unresolved (or gone) in `after`. */
  ghost predicate ResolvedKept(before: map<Id, Alert>, after: map<Id, Alert>)
  {
    forall id | id in before && before[id].resolved :: id in after && after[id].resolved
  }

  /** The guard of `acknowledgeAlert` and `resolveAlert`, checked in this
      order: no caller, a missing alert, a missing field, a missing or foreign
      farm. */
  function CheckAlert(db: Db, caller: Option<UserId>, alertId: Id): (r: Result<Alert>)
    ensures r.Ok? <==> alertId in db.alerts && OwnsField(db, caller, db.alerts[alertId].fieldId)
    ensures r.Ok? ==> r.value == db.alerts[alertId]
    ensures r.Err? ==> r.error == (if caller.None? then Unauthenticated
                                   else if alertId !in db.alerts then AlertNotFound
                                   else if db.alerts[alertId].fieldId !in db.fields then FieldNotFound
                                   else AccessDenied)
  {
    if caller.None? then Err(Unauthenticated)
    else if alertId !in db.alerts then Err(AlertNotFound)
    else
      var alert := db.alerts[alertId];
      match CheckField(db, caller, alert.fieldId)
      case Ok(_) => Ok(alert)
      case Err(e) => Err(e)
  }

  // ---------------------------------------------------------------------------
  // getFieldAlerts
  // ---------------------------------------------------------------------------

  /** `getFieldAlerts`: empty unless the caller owns the field; otherwise the
      field's alerts, without the resolved ones unless `includeResolved` is
      true, newest first. */
  function GetFieldAlerts(db: Db, caller: Option<UserId>, fieldId: Id, includeResolved: Option<bool>): (r: seq<Doc<Alert>>)
    requires Valid(db)
    ensures !OwnsField(db, caller, fieldId) ==> r == []
    ensures forall d :: d in r <==>
              && OwnsField(db, caller, fieldId)
              && Stored(db.alerts, d)
              && d.body.fieldId == fieldId
              && (includeResolved == Some(true) || !d.body.resolved)
    ensures Descending(r)
  {
    if !OwnsField(db, caller, fieldId) then []
    else
      // The `by_field` index, listed in the order the closing sort by
      // `_creationTime` descending leaves it (creation times are distinct).
      var alerts := ScanDesc(db.alerts, db.nextId, (a: Alert) => a.fieldId == fieldId);
      assert forall d | Stored(db.alerts, d) && d.body.fieldId == fieldId :: d == Doc(d.id, db.alerts[d.id]);
      if includeResolved != Some(true) then
        FilterKeepsDescending(alerts, (a: Alert) => !a.resolved);
        Filter(alerts, (a: Alert) => !a.resolved)
      else
        alerts
  }
}
