/**
 * The home-screen widget: a render pass that reads the cached snapshot from the
 * "emf_widget_data" file and paints it, and the periodic worker that restamps
 * the update time and repaints every widget instance.
 */
module EMFWidgetProvider {
  import opened Wrappers
  import opened Host

  const EmfValueKey: string := "emf_value"
  const SatCountKey: string := "sat_count"
  const PercentLimitKey: string := "percent_limit"
  const NextPassKey: string := "next_pass"
  const LastUpdateKey: string := "last_update"

  const DefaultNextPass: string := "No upcoming passes"
  const DefaultLastUpdate: string := "--:--"
  const NextPrefix: string := "Next: "

  /** The five cached values a render pass shows. */
  datatype Snapshot = Snapshot(emfValue: real, satCount: int, percentLimit: real, nextPass: string, lastUpdate: string)

  /**
   * Each of the five keys, when present, holds the kind of value its getter
   * expects; a getter meeting another kind throws ClassCastException, which
   * nothing catches.
   */
  predicate WidgetTyped(p: Prefs) {
    && (EmfValueKey in p ==> p[EmfValueKey].FloatV?)
    && (SatCountKey in p ==> p[SatCountKey].IntV?)
    && (PercentLimitKey in p ==> p[PercentLimitKey].FloatV?)
    && (NextPassKey in p ==> p[NextPassKey].StrV?)
    && (LastUpdateKey in p ==> p[LastUpdateKey].StrV?)
  }

  /** The cached snapshot, each missing key replaced by its default. */
  function LoadSnapshot(p: Prefs): (s: Snapshot)
    requires WidgetTyped(p)
    ensures s.emfValue == if EmfValueKey in p then p[EmfValueKey].f else 0.0
    ensures s.satCount == if SatCountKey in p then p[SatCountKey].i else 0
    ensures s.percentLimit == if PercentLimitKey in p then p[PercentLimitKey].f else 0.0
    ensures s.nextPass == if NextPassKey in p then p[NextPassKey].s else DefaultNextPass
    ensures s.lastUpdate == if LastUpdateKey in p then p[LastUpdateKey].s else DefaultLastUpdate
  {
    Snapshot(
      if EmfValueKey in p then p[EmfValueKey].f else 0.0,
      if SatCountKey in p then p[SatCountKey].i else 0,
      if PercentLimitKey in p then p[PercentLimitKey].f else 0.0,
      if NextPassKey in p then p[NextPassKey].s else DefaultNextPass,
      if LastUpdateKey in p then p[LastUpdateKey].s else DefaultLastUpdate)
  }

  // ---------------------------------------------------------------------------
  // Progress bar

  const IntMax: int := 0x7fff_ffff
  const IntMin: int := -0x8000_0000

  /** Java's `(int)` cast of a (non-NaN) number: truncation toward zero, saturating at the int range. */
  function JavaIntCast(x: real): (r: int)
    ensures IntMin <= r <= IntMax
    ensures 0.0 <= x < IntMax as real ==> 0 <= r && r as real <= x < r as real + 1.0
    ensures IntMin as real < x <= 0.0 ==> r <= 0 && r as real - 1.0 < x <= r as real
    ensures x >= IntMax as real ==> r == IntMax
    ensures x <= IntMin as real ==> r == IntMin
  {
    if x >= IntMax as real then IntMax
    else if x <= IntMin as real then IntMin
    else if x >= 0.0 then x.Floor
    else -((-x).Floor)
  }

  /** The progress bar value: `max(0, min(100, (int) percentLimit))`. */
  function Progress(p: real): (r: int)
    ensures 0 <= r <= 100
    ensures p < 0.0 ==> r == 0
    ensures p >= 100.0 ==> r == 100
    ensures 0.0 <= p < 100.0 ==> r == p.Floor
  {
    var t := JavaIntCast(p);
    if t < 0 then 0 else if t > 100 then 100 else t
  }

  /** A larger percentage never shows a shorter bar. */
  lemma ProgressMonotone(p: real, q: real)
    requires p <= q
    ensures Progress(p) <= Progress(q)
  {
  }

  // ---------------------------------------------------------------------------
  // Colour tier

  datatype Tier = Green | Yellow | Orange | Red

  /** The severity order green < yellow < orange < red. */
  function Rank(t: Tier): (n: nat)
    ensures n <= 3
  {
    match t
    case Green => 0
    case Yellow => 1
    case Orange => 2
    case Red => 3
  }

  /** The colour tier of a percentage of the safety limit. */
  function TierOf(p: real): (t: Tier)
    ensures t == Red <==> p >= 50.0
    ensures t == Orange <==> 25.0 <= p < 50.0
    ensures t == Yellow <==> 10.0 <= p < 25.0
    ensures t == Green <==> p < 10.0
  {
    if p >= 50.0 then Red
    else if p >= 25.0 then Orange
    else if p >= 10.0 then Yellow
    else Green
  }

  /** A larger percentage is never in a milder tier. */
  lemma TierMonotone(p: real, q: real)
    requires p <= q
    ensures Rank(TierOf(p)) <= Rank(TierOf(q))
  {
  }

  /** The tier agrees with the bar: the bar's value alone determines the colour. */
  lemma TierAgreesWithProgress(p: real)
    ensures TierOf(p) == TierOf(Progress(p) as real)
  {
  }

  /** The tier boundaries and clamping on sample inputs. */
  lemma TierAndProgressSamples()
    ensures TierOf(5.0) == Green && TierOf(10.0) == Yellow && TierOf(24.0) == Yellow
    ensures TierOf(25.0) == Orange && TierOf(49.0) == Orange && TierOf(50.0) == Red && TierOf(90.0) == Red
    ensures Progress(-5.0) == 0 && Progress(150.0) == 100 && Progress(73.2) == 73
  {
  }

  /** ARGB colour of `Color.rgb(r, g, b)`, as an unsigned 32-bit value. */
  function Rgb(r: int, g: int, b: int): (c: int)
    requires 0 <= r < 256 && 0 <= g < 256 && 0 <= b < 256
    ensures 0xFF00_0000 <= c < 0x1_0000_0000
  {
    0xFF00_0000 + r * 65536 + g * 256 + b
  }

  /** The tint painted for each tier: Color.RED, orange, Color.YELLOW, green. */
  function ColorOf(t: Tier): (c: int)
    ensures 0xFF00_0000 <= c < 0x1_0000_0000
    ensures c == 0xFFFF_0000 <==> t == Red
    ensures c == 0xFFFF_A500 <==> t == Orange
    ensures c == 0xFFFF_FF00 <==> t == Yellow
    ensures c == 0xFF4C_AF50 <==> t == Green
  {
    match t
    case Red => 0xFFFF_0000
    case Orange => Rgb(255, 165, 0)
    case Yellow => 0xFFFF_FF00
    case Green => Rgb(76, 175, 80)
  }

  lemma TierColorsDistinct(t: Tier, u: Tier)
    requires t != u
    ensures ColorOf(t) != ColorOf(u)
  {
  }

  // ---------------------------------------------------------------------------
  // Render pass

  /** The view a render pass builds; the progress tint is set only from SDK S on. */
  function Render(s: Snapshot, sdk: int): (v: RemoteView)
    ensures v.progressMax == 100 && 0 <= v.progress <= 100
    ensures v.progress == Progress(s.percentLimit)
    ensures v.progressTint == if sdk >= S then Some(ColorOf(TierOf(s.percentLimit))) else None
  {
    RemoteView(
      s.emfValue,
      s.satCount,
      s.percentLimit,
      NextPrefix + s.nextPass,
      s.lastUpdate,
      100,
      Progress(s.percentLimit),
      if sdk >= S then Some(ColorOf(TierOf(s.percentLimit))) else None)
  }

  /** Reads the snapshot back from a rendered view; `None` when the next-pass text lacks its prefix. */
  function Shown(v: RemoteView): Option<Snapshot> {
    if |v.nextPassText| >= |NextPrefix| && v.nextPassText[..|NextPrefix|] == NextPrefix
    then Some(Snapshot(v.emfValue, v.satCount, v.percentLimit, v.nextPassText[|NextPrefix|..], v.lastUpdateText))
    else None
  }

  /**
   * Rendering loses nothing: the next-pass text is exactly "Next: " followed by
   * the stored label, and every other field shows the stored value unchanged.
   */
  lemma RenderShowsSnapshot(s: Snapshot, sdk: int)
    ensures Shown(Render(s, sdk)) == Some(s)
  {
  }

  /** With an empty store the widget shows all the defaults, an empty bar and the green tier. */
  lemma EmptyStoreShowsDefaults(sdk: int)
    ensures LoadSnapshot(map[]) == Snapshot(0.0, 0, 0.0, DefaultNextPass, DefaultLastUpdate)
    ensures Render(LoadSnapshot(map[]), sdk).progress == 0
    ensures Render(LoadSnapshot(map[]), sdk).progressTint == if sdk >= S then Some(ColorOf(Green)) else None
  {
  }

  // ---------------------------------------------------------------------------
  // Repainting the widget instances

  /** The views after painting `v` into every listed widget. */
  function PaintAll(ids: seq<int>, v: RemoteView): map<int, RemoteView> {
    map w | w in ids :: v
  }

  /** Painting one more listed widget over the views `m`. */
  lemma PaintOneMore(m: map<int, RemoteView>, ids: seq<int>, i: nat, v: RemoteView)
    requires i < |ids|
    ensures m + PaintAll(ids[..i + 1], v) == (m + PaintAll(ids[..i], v))[ids[i] := v]
  {
    assert ids[..i + 1] == ids[..i] + [ids[i]];
  }

  /** Rendering one more listed widget logs one more event. */
  lemma RenderOneMore(ids: seq<int>, i: nat)
    requires i < |ids|
    ensures RenderEvents(ids[..i + 1]) == RenderEvents(ids[..i]) + [Rendered(ids[i])]
  {
    assert ids[..i + 1][..i] == ids[..i];
  }

  /** One render event per listed widget, in list order. */
  function RenderEvents(ids: seq<int>): (es: seq<Event>)
    ensures |es| == |ids|
  {
    if ids == [] then [] else RenderEvents(ids[..|ids| - 1]) + [Rendered(ids[|ids| - 1])]
  }

  /** Every listed widget is rendered once per time it is listed, and no other widget is. */
  lemma {:induction false} RenderEventsOncePerId(ids: seq<int>, w: int)
    ensures multiset(RenderEvents(ids))[Rendered(w)] == multiset(ids)[w]
    ensures forall e :: e in RenderEvents(ids) ==> e.Rendered? && e.widgetId in ids
  {
    if ids != [] {
      var init := ids[..|ids| - 1];
      RenderEventsOncePerId(init, w);
      assert ids == init + [ids[|ids| - 1]];
      assert multiset(ids) == multiset(init) + multiset([ids[|ids| - 1]]);
    }
  }

  /** The view the current store gives on this device. */
  function CurrentView(device: Device): RemoteView
    reads device`widgetPrefs
    requires WidgetTyped(device.widgetPrefs)
  {
    Render(LoadSnapshot(device.widgetPrefs), device.sdk)
  }

  /** updateAppWidget: paint one widget instance from the store, which it only reads. */
  method UpdateAppWidget(device: Device, widgetId: int)
    requires WidgetTyped(device.widgetPrefs)
    modifies device`widgetViews, device`log
    ensures device.widgetPrefs == old(device.widgetPrefs)
    ensures device.widgetViews == old(device.widgetViews)[widgetId := CurrentView(device)]
    ensures device.log == old(device.log) + [Rendered(widgetId)]
  {
    var view := Render(LoadSnapshot(device.widgetPrefs), device.sdk);
    device.widgetViews := device.widgetViews[widgetId := view];
    device.log := device.log + [Rendered(widgetId)];
  }

  /** The loop over widget ids shared by onUpdate, the worker and the bridge's updateWidget. */
  method UpdateAll(device: Device, ids: seq<int>)
    requires WidgetTyped(device.widgetPrefs)
    modifies device`widgetViews, device`log
    ensures device.widgetPrefs == old(device.widgetPrefs)
    ensures device.widgetViews == old(device.widgetViews) + PaintAll(ids, CurrentView(device))
    ensures device.log == old(device.log) + RenderEvents(ids)
  {
    ghost var view := CurrentView(device);
    ghost var before := device.widgetViews;
    var i := 0;
    while i < |ids|
      invariant 0 <= i <= |ids|
      invariant device.widgetViews == before + PaintAll(ids[..i], view)
      invariant device.log == old(device.log) + RenderEvents(ids[..i])
    {
      UpdateAppWidget(device, ids[i]);
      RenderOneMore(ids, i);
      PaintOneMore(before, ids, i, view);
      i := i + 1;
    }
    assert ids[..i] == ids;
  }

  /** onUpdate: repaint every widget instance (the periodic-work registration is not modelled). */
  method OnUpdate(device: Device, appWidgetIds: seq<int>)
    requires WidgetTyped(device.widgetPrefs)
    modifies device`widgetViews, device`log
    ensures device.widgetPrefs == old(device.widgetPrefs)
    ensures device.widgetViews == old(device.widgetViews) + PaintAll(appWidgetIds, CurrentView(device))
    ensures device.log == old(device.log) + RenderEvents(appWidgetIds)
  {
    UpdateAll(device, appWidgetIds);
  }

  // ---------------------------------------------------------------------------
  // The periodic worker

  /** The store after the worker stamps the update time `now` ("HH:mm"). */
  function Stamped(p: Prefs, now: string): (r: Prefs)
    ensures r.Keys == p.Keys + {LastUpdateKey}
    ensures r[LastUpdateKey] == StrV(now)
    ensures forall k :: k in p && k != LastUpdateKey ==> r[k] == p[k]
  {
    p[LastUpdateKey := StrV(now)]
  }

  /**
   * The worker changes only the update time: the other four cached values read
   * back as before, and the store stays readable.
   */
  lemma StampedChangesOnlyLastUpdate(p: Prefs, now: string)
    requires WidgetTyped(p)
    ensures WidgetTyped(Stamped(p, now))
    ensures LoadSnapshot(Stamped(p, now)) == LoadSnapshot(p).(lastUpdate := now)
  {
  }

  /** WidgetUpdateWorker.calculateAndUpdateWidget: stamp the time, then repaint every widget. */
  method CalculateAndUpdateWidget(device: Device, now: string, widgetIds: seq<int>)
    requires WidgetTyped(Stamped(device.widgetPrefs, now))
    modifies device`widgetPrefs, device`widgetViews, device`log
    ensures device.widgetPrefs == Stamped(old(device.widgetPrefs), now)
    ensures WidgetTyped(device.widgetPrefs)
    ensures device.widgetViews == old(device.widgetViews) + PaintAll(widgetIds, CurrentView(device))
    ensures device.log == old(device.log) + RenderEvents(widgetIds)
  {
    device.widgetPrefs := device.widgetPrefs[LastUpdateKey := StrV(now)];
    UpdateAll(device, widgetIds);
  }
}
