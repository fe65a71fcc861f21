/**
 * The state of the Android device that the app's native code reads and changes:
 * two shared-preferences files, the alarms registered with AlarmManager, the
 * notifications on display, the views painted into home-screen widgets, and a
 * log of the observable effects in the order they happen.
 */
module Host {
  import opened Wrappers

  /**
   * One element of the persisted alarm list. `id` is `None` when the element
   * cannot be read as an object with an integer "id" member; `rest` stands for
   * the object's other members, which the native code never inspects.
   */
  datatype Record = Record(id: Option<int>, rest: string)

  /**
   * A value held in a shared-preferences file. A string that org.json parses
   * as an array of alarm objects is represented by its parse, `AlarmsV`;
   * `StrV` is any other string.
   */
  datatype Value =
    | FloatV(f: real)
    | IntV(i: int)
    | StrV(s: string)
    | AlarmsV(records: seq<Record>)

  /** A shared-preferences file: key to value. */
  type Prefs = map<string, Value>

  /** A posted notification; the title and body are the intent extras, which may be null. */
  datatype Notification = Notification(title: Option<string>, body: Option<string>)

  /** What a home-screen widget instance shows (the RemoteViews a render pass builds). */
  datatype RemoteView = RemoteView(
    emfValue: real,         // shown with "%.3f"
    satCount: int,          // shown as String.valueOf(satCount)
    percentLimit: real,     // shown with "%.4f%% of safety limit"
    nextPassText: string,
    lastUpdateText: string,
    progressMax: int,
    progress: int,
    progressTint: Option<int>)

  /** The AlarmManager call used to register an alarm. */
  datatype AlarmMode =
    | SetExactAndAllowWhileIdle
    | SetAndAllowWhileIdle
    | SetExact

  /** An alarm registered with AlarmManager under its request code. */
  datatype PendingAlarm = PendingAlarm(title: string, body: string, timestamp: int, mode: AlarmMode)

  /** Observable effects, logged in the order they happen. */
  datatype Event =
    | AlarmsWritten(records: seq<Record>)
    | Posted(slot: int)
    | Rendered(widgetId: int)
    | SettingsOpened

  /** Android SDK levels the code branches on (Build.VERSION_CODES). */
  const M: int := 23
  const S: int := 31

  class Device {
    /** Build.VERSION.SDK_INT */
    const sdk: int
    /** Whether the user lets the app schedule exact alarms (consulted from SDK S on). */
    var exactAlarmPermission: bool
    /** The "FlutterSharedPreferences" file. */
    var flutterPrefs: Prefs
    /** The "emf_widget_data" file. */
    var widgetPrefs: Prefs
    /** AlarmManager: alarms by request code. */
    var alarms: map<int, PendingAlarm>
    /** NotificationManager: notifications by slot id. */
    var notifications: map<int, Notification>
    /** AppWidgetManager: the view last painted into each widget instance. */
    var widgetViews: map<int, RemoteView>
    ghost var log: seq<Event>

    constructor (sdk: int, exactAlarmPermission: bool, flutterPrefs: Prefs, widgetPrefs: Prefs)
      ensures this.sdk == sdk && this.exactAlarmPermission == exactAlarmPermission
      ensures this.flutterPrefs == flutterPrefs && this.widgetPrefs == widgetPrefs
      ensures alarms == map[] && notifications == map[] && widgetViews == map[] && log == []
    {
      this.sdk := sdk;
      this.exactAlarmPermission := exactAlarmPermission;
      this.flutterPrefs := flutterPrefs;
      this.widgetPrefs := widgetPrefs;
      alarms := map[];
      notifications := map[];
      widgetViews := map[];
      log := [];
    }
  }
}
