/**
 * The broadcast receiver that runs when a scheduled alarm fires: it removes the
 * fired alarm from the persisted alarm list, then posts the notification.
 */
module AlarmReceiver {
  import opened Wrappers
  import opened Host

  /** Key of the persisted alarm list in the "FlutterSharedPreferences" file. */
  const AlarmsKey: string := "flutter.scheduled_alarms"

  /** Every element of the list can be read as an object with an integer id. */
  predicate AllReadable(rs: seq<Record>) {
    forall i :: 0 <= i < |rs| ==> rs[i].id.Some?
  }

  /** Whether record `r` is the alarm with id `alarmId`. */
  predicate Fired(r: Record, alarmId: int) {
    r.id == Some(alarmId)
  }

  /** The records whose id differs from `alarmId`, in their original order. */
  function Without(rs: seq<Record>, alarmId: int): (r: seq<Record>)
    ensures |r| <= |rs|
    ensures forall x :: x in r ==> x in rs && !Fired(x, alarmId)
  {
    if rs == [] then []
    else (if Fired(rs[0], alarmId) then [] else [rs[0]]) + Without(rs[1..], alarmId)
  }

  /** How many records carry `alarmId`. */
  function CountFired(rs: seq<Record>, alarmId: int): nat {
    if rs == [] then 0
    else (if Fired(rs[0], alarmId) then 1 else 0) + CountFired(rs[1..], alarmId)
  }

  /** The alarm list held in the store, when it is present and every record is readable. */
  function StoredList(prefs: Prefs): (r: Option<seq<Record>>)
    ensures r.Some? <==> AlarmsKey in prefs && prefs[AlarmsKey].AlarmsV? && AllReadable(prefs[AlarmsKey].records)
    ensures r.Some? ==> r.value == prefs[AlarmsKey].records
  {
    if AlarmsKey in prefs && prefs[AlarmsKey].AlarmsV? && AllReadable(prefs[AlarmsKey].records)
    then Some(prefs[AlarmsKey].records)
    else None
  }

  /**
   * The store after the alarm `alarmId` fired: the list written back without
   * that alarm, or the store unchanged when the list is absent or unreadable.
   */
  function Reconciled(prefs: Prefs, alarmId: int): (r: Prefs)
    ensures r.Keys == prefs.Keys
    ensures forall k :: k in prefs && k != AlarmsKey ==> r[k] == prefs[k]
    ensures StoredList(prefs).None? ==> r == prefs
    ensures StoredList(prefs).Some? ==> r[AlarmsKey] == AlarmsV(Without(StoredList(prefs).value, alarmId))
  {
    match StoredList(prefs)
    case None => prefs
    case Some(rs) => prefs[AlarmsKey := AlarmsV(Without(rs, alarmId))]
  }

  /** The store write that reconciliation performs, if any. */
  function ReconcileWrites(prefs: Prefs, alarmId: int): (es: seq<Event>)
    ensures |es| <= 1
    ensures es != [] <==> StoredList(prefs).Some?
    ensures es != [] ==> es[0] == AlarmsWritten(Reconciled(prefs, alarmId)[AlarmsKey].records)
  {
    match StoredList(prefs)
    case None => []
    case Some(rs) => [AlarmsWritten(Without(rs, alarmId))]
  }

  // ---------------------------------------------------------------------------
  // Properties of the filter

  /** Filtering a concatenation filters each part: kept records keep their relative order. */
  lemma {:induction false} WithoutAppend(a: seq<Record>, b: seq<Record>, alarmId: int)
    ensures Without(a + b, alarmId) == Without(a, alarmId) + Without(b, alarmId)
  {
    if a == [] {
      assert a + b == b;
    } else {
      assert (a + b)[1..] == a[1..] + b;
      WithoutAppend(a[1..], b, alarmId);
    }
  }

  /** Records before position `k` stay before the records after it. */
  lemma WithoutSplit(rs: seq<Record>, alarmId: int, k: nat)
    requires k <= |rs|
    ensures Without(rs, alarmId) == Without(rs[..k], alarmId) + Without(rs[k..], alarmId)
  {
    assert rs == rs[..k] + rs[k..];
    WithoutAppend(rs[..k], rs[k..], alarmId);
  }

  /**
   * Every other record is kept, as many times as it occurred; every record
   * with the fired id is dropped, duplicates included.
   */
  lemma {:induction false} WithoutKeepsOthers(rs: seq<Record>, alarmId: int, r: Record)
    ensures multiset(Without(rs, alarmId))[r] == if Fired(r, alarmId) then 0 else multiset(rs)[r]
  {
    if rs != [] {
      WithoutKeepsOthers(rs[1..], alarmId, r);
      var head := if Fired(rs[0], alarmId) then [] else [rs[0]];
      assert multiset(Without(rs, alarmId)) == multiset(head) + multiset(Without(rs[1..], alarmId));
      assert rs == [rs[0]] + rs[1..];
      assert multiset(rs) == multiset([rs[0]]) + multiset(rs[1..]);
    }
  }

  /** The new list is shorter by exactly the number of records with the fired id. */
  lemma {:induction false} WithoutLength(rs: seq<Record>, alarmId: int)
    ensures |Without(rs, alarmId)| == |rs| - CountFired(rs, alarmId)
  {
    if rs != [] {
      WithoutLength(rs[1..], alarmId);
    }
  }

  /** When no record has the fired id the list is unchanged. */
  lemma {:induction false} WithoutNoMatch(rs: seq<Record>, alarmId: int)
    requires forall i :: 0 <= i < |rs| ==> !Fired(rs[i], alarmId)
    ensures Without(rs, alarmId) == rs
  {
    if rs != [] {
      WithoutNoMatch(rs[1..], alarmId);
      assert rs == [rs[0]] + rs[1..];
    }
  }

  /** Filtering twice with the same id is filtering once. */
  lemma WithoutIdempotent(rs: seq<Record>, alarmId: int)
    ensures Without(Without(rs, alarmId), alarmId) == Without(rs, alarmId)
  {
    var w := Without(rs, alarmId);
    forall i | 0 <= i < |w| ensures !Fired(w[i], alarmId) {
      assert w[i] in w;
    }
    WithoutNoMatch(w, alarmId);
  }

  /** Readable lists stay readable. */
  lemma {:induction false} WithoutReadable(rs: seq<Record>, alarmId: int)
    requires AllReadable(rs)
    ensures AllReadable(Without(rs, alarmId))
  {
    if rs != [] {
      assert AllReadable(rs[1..]) by {
        forall i | 0 <= i < |rs[1..]| ensures rs[1..][i].id.Some? {
          assert rs[1..][i] == rs[i + 1];
        }
      }
      WithoutReadable(rs[1..], alarmId);
    }
  }

  /** Two firings remove both alarms whichever fires first. */
  lemma {:induction false} WithoutCommutes(rs: seq<Record>, a: int, b: int)
    ensures Without(Without(rs, a), b) == Without(Without(rs, b), a)
  {
    if rs != [] {
      WithoutCommutes(rs[1..], a, b);
      var h := if Fired(rs[0], a) then [] else [rs[0]];
      WithoutAppend(h, Without(rs[1..], a), b);
      var g := if Fired(rs[0], b) then [] else [rs[0]];
      WithoutAppend(g, Without(rs[1..], b), a);
    }
  }

  /** No two readable records share an id (the list as the scheduling side intends it). */
  predicate DistinctIds(rs: seq<Record>) {
    forall i, j :: 0 <= i < j < |rs| && rs[i].id.Some? ==> rs[i].id != rs[j].id
  }

  /** With distinct ids a firing removes at most one record. */
  lemma {:induction false} DistinctRemovesAtMostOne(rs: seq<Record>, alarmId: int)
    requires DistinctIds(rs)
    ensures CountFired(rs, alarmId) <= 1
    ensures |Without(rs, alarmId)| >= |rs| - 1
  {
    WithoutLength(rs, alarmId);
    if rs != [] {
      if Fired(rs[0], alarmId) {
        forall i | 0 <= i < |rs[1..]| ensures !Fired(rs[1..][i], alarmId) {
          assert rs[1..][i] == rs[i + 1];
        }
        NoneFiredCountsZero(rs[1..], alarmId);
      } else {
        assert DistinctIds(rs[1..]) by {
          forall i, j | 0 <= i < j < |rs[1..]| && rs[1..][i].id.Some? ensures rs[1..][i].id != rs[1..][j].id {
            assert rs[1..][i] == rs[i + 1] && rs[1..][j] == rs[j + 1];
          }
        }
        DistinctRemovesAtMostOne(rs[1..], alarmId);
      }
    }
  }

  lemma {:induction false} NoneFiredCountsZero(rs: seq<Record>, alarmId: int)
    requires forall i :: 0 <= i < |rs| ==> !Fired(rs[i], alarmId)
    ensures CountFired(rs, alarmId) == 0
  {
    if rs != [] {
      NoneFiredCountsZero(rs[1..], alarmId);
    }
  }

  // ---------------------------------------------------------------------------
  // Properties of reconciliation on the store

  /** After a firing the stored list, if it was readable, holds no record with the fired id. */
  lemma ReconcileRemovesFired(prefs: Prefs, alarmId: int)
    requires StoredList(prefs).Some?
    ensures StoredList(Reconciled(prefs, alarmId)).Some?
    ensures forall r :: r in StoredList(Reconciled(prefs, alarmId)).value ==> !Fired(r, alarmId)
  {
    WithoutReadable(StoredList(prefs).value, alarmId);
  }

  /** Firing an id no stored record carries leaves the store as it was. */
  lemma ReconcileNoMatch(prefs: Prefs, alarmId: int)
    requires StoredList(prefs).Some?
    requires forall r :: r in StoredList(prefs).value ==> !Fired(r, alarmId)
    ensures Reconciled(prefs, alarmId) == prefs
  {
    var rs := StoredList(prefs).value;
    forall i | 0 <= i < |rs| ensures !Fired(rs[i], alarmId) {
      assert rs[i] in rs;
    }
    WithoutNoMatch(rs, alarmId);
    assert prefs[AlarmsKey] == AlarmsV(rs);
  }

  /** A second firing of the same id changes nothing in the store. */
  lemma ReconcileIdempotent(prefs: Prefs, alarmId: int)
    ensures Reconciled(Reconciled(prefs, alarmId), alarmId) == Reconciled(prefs, alarmId)
  {
    if StoredList(prefs).Some? {
      var rs := StoredList(prefs).value;
      WithoutReadable(rs, alarmId);
      WithoutIdempotent(rs, alarmId);
    }
  }

  /** Two firings in sequence leave the same store in either order. */
  lemma ReconcileCommutes(prefs: Prefs, a: int, b: int)
    ensures Reconciled(Reconciled(prefs, a), b) == Reconciled(Reconciled(prefs, b), a)
  {
    if StoredList(prefs).Some? {
      var rs := StoredList(prefs).value;
      WithoutReadable(rs, a);
      WithoutReadable(rs, b);
      WithoutCommutes(rs, a, b);
    }
  }

  // ---------------------------------------------------------------------------
  // The receiver

  /**
   * Reading one more record of the list: it is kept exactly when it is not the fired one,
   * and the longer prefix is readable exactly when the shorter one and the new record are.
   */
  lemma WithoutOneMore(rs: seq<Record>, i: nat, alarmId: int)
    requires i < |rs|
    ensures Without(rs[..i + 1], alarmId) == Without(rs[..i], alarmId) + (if Fired(rs[i], alarmId) then [] else [rs[i]])
    ensures AllReadable(rs[..i + 1]) <==> AllReadable(rs[..i]) && rs[i].id.Some?
  {
    assert rs[..i + 1] == rs[..i] + [rs[i]];
    WithoutAppend(rs[..i], [rs[i]], alarmId);
  }

  /**
   * The loop of removeScheduledAlarm: copies every record whose id differs
   * from `alarmId` into a fresh list, and gives up (the exception path) at the
   * first record it cannot read.
   */
  method FilterFired(alarms: seq<Record>, alarmId: int) returns (updated: Option<seq<Record>>)
    ensures updated == if AllReadable(alarms) then Some(Without(alarms, alarmId)) else None
  {
    var kept: seq<Record> := [];
    var i := 0;
    while i < |alarms|
      invariant 0 <= i <= |alarms|
      invariant AllReadable(alarms[..i])
      invariant kept == Without(alarms[..i], alarmId)
    {
      WithoutOneMore(alarms, i, alarmId);
      if alarms[i].id.None? {
        assert !AllReadable(alarms) by { assert alarms[i].id.None?; }
        return None;
      }
      if alarms[i].id.value != alarmId {
        kept := kept + [alarms[i]];
      }
      i := i + 1;
    }
    assert alarms[..i] == alarms;
    updated := Some(kept);
  }

  /** removeScheduledAlarm: write back the alarm list without the fired alarm. */
  method RemoveScheduledAlarm(device: Device, alarmId: int)
    modifies device`flutterPrefs, device`log
    ensures device.flutterPrefs == Reconciled(old(device.flutterPrefs), alarmId)
    ensures device.log == old(device.log) + ReconcileWrites(old(device.flutterPrefs), alarmId)
  {
    if AlarmsKey !in device.flutterPrefs {
      return;
    }
    var stored := device.flutterPrefs[AlarmsKey];
    if !stored.AlarmsV? {
      // getString on a non-string, or text org.json rejects: the exception is swallowed
      return;
    }
    var updated := FilterFired(stored.records, alarmId);
    if updated.None? {
      return;
    }
    device.flutterPrefs := device.flutterPrefs[AlarmsKey := AlarmsV(updated.value)];
    device.log := device.log + [AlarmsWritten(updated.value)];
  }

  /** The intent extras the alarm was scheduled with; any of them may be missing. */
  datatype Intent = Intent(title: Option<string>, body: Option<string>, notificationId: Option<int>)

  /** The notification slot: the "notificationId" extra, 0 when it is missing. */
  function SlotOf(intent: Intent): (slot: int)
    ensures intent.notificationId.Some? ==> slot == intent.notificationId.value
    ensures intent.notificationId.None? ==> slot == 0
  {
    intent.notificationId.GetOr(0)
  }

  /**
   * onReceive: reconcile the alarm list for the fired id, then post the
   * notification in the slot of that same id, whether or not the list could
   * be reconciled.
   */
  method OnReceive(device: Device, intent: Intent)
    modifies device`flutterPrefs, device`notifications, device`log
    ensures device.flutterPrefs == Reconciled(old(device.flutterPrefs), SlotOf(intent))
    ensures device.notifications == old(device.notifications)[SlotOf(intent) := Notification(intent.title, intent.body)]
    ensures device.log == old(device.log) + ReconcileWrites(old(device.flutterPrefs), SlotOf(intent)) + [Posted(SlotOf(intent))]
  {
    var notificationId := intent.notificationId.GetOr(0);
    RemoveScheduledAlarm(device, notificationId);
    device.notifications := device.notifications[notificationId := Notification(intent.title, intent.body)];
    device.log := device.log + [Posted(notificationId)];
  }
}
