/**
 * The bridge between the UI layer and the native facilities: two method
 * channels whose handlers validate the call's arguments, answer it, and
 * schedule or cancel alarms or rewrite the widget's cached snapshot.
 */
module MainActivity {
  import opened Wrappers
  import opened Host
  import opened EMFWidgetProvider

  /** The two method channels, registered under these names. */
  datatype Channel = WidgetChannel | AlarmChannel {
    function Name(): string {
      match this
      case WidgetChannel => "com.ziehro.satwatcher/widget"
      case AlarmChannel => "com.ziehro.satwatcher/alarms"
    }
  }

  /** The arguments a call may carry; each may be missing (null on the Java side). */
  datatype Args = Args(
    id: Option<int>,
    title: Option<string>,
    body: Option<string>,
    timestamp: Option<int>,
    emfValue: Option<real>,
    satCount: Option<int>,
    percentLimit: Option<real>,
    nextPass: Option<string>)

  /** What the handler sends back to the caller. */
  datatype Reply =
    | SuccessNull
    | SuccessBool(value: bool)
    | Error(code: string, message: string)
    | NotImplemented

  /** The side effect a call asks for. */
  datatype Command =
    | NoCommand
    | OpenSettings
    | Schedule(id: int, title: string, body: string, timestamp: int)
    | Cancel(id: int)
    | WriteWidget(emfValue: real, satCount: int, percentLimit: real, nextPass: string)

  datatype Outcome = Outcome(reply: Reply, command: Command)

  const InvalidArgs: string := "INVALID_ARGS"

  // ---------------------------------------------------------------------------
  // Exact-alarm capability and schedule mode

  /** canScheduleExactAlarms: the user's permission from SDK S on, always true before. */
  function CanScheduleExactAlarms(sdk: int, permission: bool): (r: bool)
    ensures sdk < S ==> r
    ensures sdk >= S ==> r == permission
  {
    if sdk >= S then permission else true
  }

  /** The AlarmManager call scheduleAlarm uses. */
  function ScheduleMode(sdk: int, permission: bool): (mode: AlarmMode)
    ensures sdk >= S && permission ==> mode == SetExactAndAllowWhileIdle
    ensures sdk >= S && !permission ==> mode == SetAndAllowWhileIdle
    ensures M <= sdk < S ==> mode == SetExactAndAllowWhileIdle
    ensures sdk < M ==> mode == SetExact
  {
    if sdk >= S then
      if permission then SetExactAndAllowWhileIdle else SetAndAllowWhileIdle
    else if sdk >= M then SetExactAndAllowWhileIdle
    else SetExact
  }

  /**
   * Scheduling degrades to inexact delivery exactly when canScheduleExactAlarms
   * would answer false; otherwise the alarm is exact.
   */
  lemma InexactIffNoExactCapability(sdk: int, permission: bool)
    ensures ScheduleMode(sdk, permission) == SetAndAllowWhileIdle <==> !CanScheduleExactAlarms(sdk, permission)
  {
  }

  // ---------------------------------------------------------------------------
  // Dispatch

  /** The method names each channel's handler answers. */
  function KnownMethods(channel: Channel): set<string> {
    match channel
    case WidgetChannel => {"updateWidget"}
    case AlarmChannel => {"canScheduleExactAlarms", "openAlarmSettings", "scheduleAlarm", "cancelAlarm", "cancelAllAlarms"}
  }

  /** The handler of `channel` for a call of method `name` with `args`. */
  function Dispatch(channel: Channel, name: string, args: Args, sdk: int, permission: bool): (r: Outcome)
    ensures r.reply == NotImplemented <==> name !in KnownMethods(channel)
    ensures !r.reply.SuccessNull? ==> r.command == NoCommand
    ensures r.reply.Error? ==> r.reply.code == InvalidArgs && channel == AlarmChannel
                               && name in {"scheduleAlarm", "cancelAlarm"}
    ensures r.reply.SuccessBool? <==> channel == AlarmChannel && name == "canScheduleExactAlarms"
    ensures r.reply.SuccessBool? ==> r.reply.value == CanScheduleExactAlarms(sdk, permission)
  {
    match channel
    case WidgetChannel =>
      if name == "updateWidget" then
        Outcome(SuccessNull, WriteWidget(args.emfValue.GetOr(0.0), args.satCount.GetOr(0),
                                         args.percentLimit.GetOr(0.0), args.nextPass.GetOr(DefaultNextPass)))
      else Outcome(NotImplemented, NoCommand)
    case AlarmChannel =>
      if name == "canScheduleExactAlarms" then
        Outcome(SuccessBool(CanScheduleExactAlarms(sdk, permission)), NoCommand)
      else if name == "openAlarmSettings" then
        Outcome(SuccessNull, OpenSettings)
      else if name == "scheduleAlarm" then
        if args.id.Some? && args.title.Some? && args.body.Some? && args.timestamp.Some? then
          Outcome(SuccessNull, Schedule(args.id.value, args.title.value, args.body.value, args.timestamp.value))
        else Outcome(Error(InvalidArgs, "Missing required arguments"), NoCommand)
      else if name == "cancelAlarm" then
        if args.id.Some? then Outcome(SuccessNull, Cancel(args.id.value))
        else Outcome(Error(InvalidArgs, "Missing id"), NoCommand)
      else if name == "cancelAllAlarms" then
        Outcome(SuccessNull, NoCommand)
      else Outcome(NotImplemented, NoCommand)
  }

  /** A call is answered notImplemented exactly when its channel does not know the method. */
  lemma NotImplementedIffUnknown(channel: Channel, name: string, args: Args, sdk: int, permission: bool)
    ensures Dispatch(channel, name, args, sdk, permission).reply == NotImplemented <==> name !in KnownMethods(channel)
  {
  }

  /** A call that is refused or not implemented has no side effect. */
  lemma FailedCallsHaveNoEffect(channel: Channel, name: string, args: Args, sdk: int, permission: bool)
    requires !Dispatch(channel, name, args, sdk, permission).reply.SuccessNull?
    ensures Dispatch(channel, name, args, sdk, permission).command == NoCommand
  {
  }

  /** scheduleAlarm succeeds exactly when id, title, body and timestamp are all given. */
  lemma ScheduleAlarmNeedsAllArgs(args: Args, sdk: int, permission: bool)
    ensures var o := Dispatch(AlarmChannel, "scheduleAlarm", args, sdk, permission);
      if args.id.Some? && args.title.Some? && args.body.Some? && args.timestamp.Some?
      then o == Outcome(SuccessNull, Schedule(args.id.value, args.title.value, args.body.value, args.timestamp.value))
      else o == Outcome(Error(InvalidArgs, "Missing required arguments"), NoCommand)
  {
  }

  /** cancelAlarm succeeds exactly when the id is given. */
  lemma CancelAlarmNeedsId(args: Args, sdk: int, permission: bool)
    ensures var o := Dispatch(AlarmChannel, "cancelAlarm", args, sdk, permission);
      if args.id.Some? then o == Outcome(SuccessNull, Cancel(args.id.value))
      else o == Outcome(Error(InvalidArgs, "Missing id"), NoCommand)
  {
  }

  /** cancelAllAlarms always succeeds and does nothing. */
  lemma CancelAllAlarmsIsNoop(args: Args, sdk: int, permission: bool)
    ensures Dispatch(AlarmChannel, "cancelAllAlarms", args, sdk, permission) == Outcome(SuccessNull, NoCommand)
  {
  }

  /** updateWidget always succeeds, each missing argument replaced by its default. */
  lemma UpdateWidgetDefaults(args: Args, sdk: int, permission: bool)
    ensures var o := Dispatch(WidgetChannel, "updateWidget", args, sdk, permission);
      && o.reply == SuccessNull
      && o.command.WriteWidget?
      && o.command.emfValue == (if args.emfValue.Some? then args.emfValue.value else 0.0)
      && o.command.satCount == (if args.satCount.Some? then args.satCount.value else 0)
      && o.command.percentLimit == (if args.percentLimit.Some? then args.percentLimit.value else 0.0)
      && o.command.nextPass == (if args.nextPass.Some? then args.nextPass.value else "No upcoming passes")
  {
  }

  // ---------------------------------------------------------------------------
  // updateWidget

  /** The widget store after updateWidget writes its five keys; `now` is the "HH:mm" time. */
  function WriteSnapshot(p: Prefs, emfValue: real, satCount: int, percentLimit: real, nextPass: string, now: string): (r: Prefs)
    ensures r.Keys == p.Keys + {EmfValueKey, SatCountKey, PercentLimitKey, NextPassKey, LastUpdateKey}
    ensures forall k :: k in p && k !in {EmfValueKey, SatCountKey, PercentLimitKey, NextPassKey, LastUpdateKey} ==> r[k] == p[k]
  {
    p[EmfValueKey := FloatV(emfValue)]
     [SatCountKey := IntV(satCount)]
     [PercentLimitKey := FloatV(percentLimit)]
     [NextPassKey := StrV(nextPass)]
     [LastUpdateKey := StrV(now)]
  }

  /**
   * What updateWidget writes is what the next render pass reads: the store
   * stays readable and loads exactly the snapshot just written.
   */
  lemma WriteThenLoad(p: Prefs, emfValue: real, satCount: int, percentLimit: real, nextPass: string, now: string)
    ensures WidgetTyped(WriteSnapshot(p, emfValue, satCount, percentLimit, nextPass, now))
    ensures LoadSnapshot(WriteSnapshot(p, emfValue, satCount, percentLimit, nextPass, now))
            == Snapshot(emfValue, satCount, percentLimit, nextPass, now)
  {
  }

  /** A render after updateWidget shows exactly the values just written. */
  lemma WriteThenRender(p: Prefs, emfValue: real, satCount: int, percentLimit: real, nextPass: string, now: string, sdk: int)
    ensures WidgetTyped(WriteSnapshot(p, emfValue, satCount, percentLimit, nextPass, now))
    ensures Shown(Render(LoadSnapshot(WriteSnapshot(p, emfValue, satCount, percentLimit, nextPass, now)), sdk))
            == Some(Snapshot(emfValue, satCount, percentLimit, nextPass, now))
  {
  }

  /** updateWidget: write the five keys, then repaint every widget instance. */
  method UpdateWidget(device: Device, emfValue: real, satCount: int, percentLimit: real, nextPass: string,
                      now: string, widgetIds: seq<int>)
    modifies device`widgetPrefs, device`widgetViews, device`log
    ensures device.widgetPrefs == WriteSnapshot(old(device.widgetPrefs), emfValue, satCount, percentLimit, nextPass, now)
    ensures WidgetTyped(device.widgetPrefs)
    ensures device.widgetViews == old(device.widgetViews)
      + PaintAll(widgetIds, Render(Snapshot(emfValue, satCount, percentLimit, nextPass, now), device.sdk))
    ensures device.log == old(device.log) + RenderEvents(widgetIds)
  {
    WriteThenLoad(device.widgetPrefs, emfValue, satCount, percentLimit, nextPass, now);
    device.widgetPrefs := device.widgetPrefs[EmfValueKey := FloatV(emfValue)]
                                            [SatCountKey := IntV(satCount)]
                                            [PercentLimitKey := FloatV(percentLimit)]
                                            [NextPassKey := StrV(nextPass)]
                                            [LastUpdateKey := StrV(now)];
    UpdateAll(device, widgetIds);
  }

  // ---------------------------------------------------------------------------
  // Executing a call

  /** AlarmManager's alarms after a command: scheduling replaces the alarm under its id, cancelling drops it. */
  function AlarmsAfter(alarms: map<int, PendingAlarm>, command: Command, sdk: int, permission: bool): (r: map<int, PendingAlarm>)
    ensures command.Schedule? ==> r.Keys == alarms.Keys + {command.id}
    ensures command.Schedule? ==>
      r[command.id] == PendingAlarm(command.title, command.body, command.timestamp, ScheduleMode(sdk, permission))
    ensures command.Cancel? ==> r.Keys == alarms.Keys - {command.id}
    ensures command.Schedule? || command.Cancel? ==> forall k :: k in alarms && k != command.id ==> r[k] == alarms[k]
    ensures !command.Schedule? && !command.Cancel? ==> r == alarms
  {
    match command
    case Schedule(id, title, body, timestamp) => alarms[id := PendingAlarm(title, body, timestamp, ScheduleMode(sdk, permission))]
    case Cancel(id) => alarms - {id}
    case _ => alarms
  }

  /**
   * A call on either channel: the reply is the handler's, and the device changes
   * as the command asks and in no other way. openAlarmSettings opens the
   * settings screen only from SDK S on.
   */
  method HandleCall(device: Device, channel: Channel, name: string, args: Args, now: string, widgetIds: seq<int>)
    returns (reply: Reply)
    modifies device`widgetPrefs, device`widgetViews, device`alarms, device`log
    ensures var o := Dispatch(channel, name, args, device.sdk, device.exactAlarmPermission);
      && reply == o.reply
      && device.alarms == AlarmsAfter(old(device.alarms), o.command, device.sdk, device.exactAlarmPermission)
      && (o.command.WriteWidget? ==>
            && device.widgetPrefs == WriteSnapshot(old(device.widgetPrefs), o.command.emfValue, o.command.satCount,
                                                   o.command.percentLimit, o.command.nextPass, now)
            && device.widgetViews == old(device.widgetViews)
                 + PaintAll(widgetIds, Render(Snapshot(o.command.emfValue, o.command.satCount, o.command.percentLimit,
                                                       o.command.nextPass, now), device.sdk))
            && device.log == old(device.log) + RenderEvents(widgetIds))
      && (!o.command.WriteWidget? ==>
            && device.widgetPrefs == old(device.widgetPrefs)
            && device.widgetViews == old(device.widgetViews)
            && device.log == old(device.log) + (if o.command.OpenSettings? && device.sdk >= S then [SettingsOpened] else []))
  {
    var o := Dispatch(channel, name, args, device.sdk, device.exactAlarmPermission);
    match o.command {
      case NoCommand =>
      case OpenSettings =>
        if device.sdk >= S {
          device.log := device.log + [SettingsOpened];
        }
      case Schedule(id, title, body, timestamp) =>
        var mode := ScheduleMode(device.sdk, device.exactAlarmPermission);
        device.alarms := device.alarms[id := PendingAlarm(title, body, timestamp, mode)];
      case Cancel(id) =>
        device.alarms := device.alarms - {id};
      case WriteWidget(emfValue, satCount, percentLimit, nextPass) =>
        UpdateWidget(device, emfValue, satCount, percentLimit, nextPass, now, widgetIds);
    }
    reply := o.reply;
  }
}
