/**
 * The watch face's engine: the state the host's callbacks update in place, and one
 * method per callback. Host-owned state the source reads through `isVisible()` and
 * `isInAmbientMode()` and the engine's Handler queue are fields here too.
 */
module WatchFaceEngine {
  import opened Wrappers
  import opened UpdateTimer
  import opened WeatherSync
  import opened IconFetch
  import opened FaceLayout

  /** A call the engine makes to the system about its time-zone broadcast receiver. */
  datatype ReceiverCall = Register | Unregister

  /** The calls strictly alternate, starting with a registration. */
  predicate Alternating(log: seq<ReceiverCall>) {
    forall i :: 0 <= i < |log| ==> log[i] == (if i % 2 == 0 then Register else Unregister)
  }

  class Engine {
    // State held by the host framework.
    var visible: bool            // isVisible()
    var hostAmbient: bool        // isInAmbientMode()
    var invalidations: nat       // invalidate() calls so far

    /** Due times (ms) of the MSG_UPDATE_TIME messages queued on the engine's Handler. */
    var pendingTicks: seq<int>

    // The engine's own fields.
    var registeredTimeZoneReceiver: bool
    ghost var receiverLog: seq<ReceiverCall>
    var ambient: bool
    var lowBitAmbient: bool
    var timeAntiAlias: bool
    var dateAntiAlias: bool
    var tempAntiAlias: bool
    var timeZone: string
    var connected: bool          // the sync client is connected
    var listening: bool          // the engine is registered as the client's data listener
    var high: Option<string>
    var low: Option<string>
    var icon: Option<Bitmap>
    /** Assets of the icon downloads started and not yet completed, oldest first. */
    var iconFetches: seq<Option<Asset>>

    const sizes: TextSizes

    /** At most one tick is queued, and only while the timer should run. */
    ghost predicate TimerValid()
      reads this
    {
      && |pendingTicks| <= 1
      && (pendingTicks != [] ==> ShouldTimerBeRunning(visible, ambient))
    }

    /** The flag says whether the receiver is registered; register and unregister calls alternate. */
    ghost predicate ReceiverValid()
      reads this
    {
      && Alternating(receiverLog)
      && (registeredTimeZoneReceiver <==> |receiverLog| % 2 == 1)
    }

    ghost predicate Valid()
      reads this
    {
      && TimerValid()
      && ReceiverValid()
      && ambient == hostAmbient
      && timeAntiAlias == dateAntiAlias == tempAntiAlias
      && (listening ==> connected)
      && (icon.Some? ==> IsIcon(icon.value))
    }

    /** The part of the state a batch of data events changes. */
    function SyncView(): SyncState
      reads this
    {
      SyncState(high, low, iconFetches, invalidations)
    }

    /** `onCreate`: text paints anti-aliased, no weather yet, invisible, interactive, no timer. */
    constructor (timeSize: nat, dateSize: nat, temperatureSize: nat, zone: string)
      ensures Valid()
      ensures sizes == TextSizes(timeSize as real, dateSize as real, temperatureSize as real)
      ensures !visible && !ambient && !lowBitAmbient && pendingTicks == [] && invalidations == 0
      ensures !registeredTimeZoneReceiver && receiverLog == []
      ensures timeAntiAlias && dateAntiAlias && tempAntiAlias && timeZone == zone
      ensures !connected && !listening
      ensures high == None && low == None && icon == None && iconFetches == []
    {
      visible, hostAmbient, invalidations, pendingTicks := false, false, 0, [];
      registeredTimeZoneReceiver, receiverLog := false, [];
      ambient, lowBitAmbient := false, false;
      timeAntiAlias, dateAntiAlias, tempAntiAlias := true, true, true;
      timeZone := zone;
      connected, listening := false, false;
      high, low, icon, iconFetches := None, None, None, [];
      sizes := TextSizes(timeSize as real, dateSize as real, temperatureSize as real);
    }

    /** `onConnected`: the client reports a connection and the engine adds itself as data listener. */
    method OnConnected()
      requires Valid()
      modifies this`connected, this`listening
      ensures Valid() && connected && listening
    {
      connected := true;
      listening := true;
    }

    /** `onDataChanged`: the batch is applied event by event. */
    method OnDataChanged(events: seq<DataEvent>)
      requires Valid()
      modifies this`high, this`low, this`iconFetches, this`invalidations
      ensures Valid()
      ensures SyncView() == ApplyEvents(old(SyncView()), events)
    {
      var i := 0;
      while i < |events|
        invariant 0 <= i <= |events|
        invariant Valid()
        invariant SyncView() == ApplyEvents(old(SyncView()), events[..i])
      {
        OnDataEvent(events[i]);
        assert events[..i + 1][..i] == events[..i];
        i := i + 1;
      }
      assert events[..i] == events;
    }

    /** One iteration of the `onDataChanged` loop: present keys of a change at "/weather" are merged. */
    method OnDataEvent(e: DataEvent)
      requires Valid()
      modifies this`high, this`low, this`iconFetches, this`invalidations
      ensures Valid()
      ensures SyncView() == ApplyEvent(old(SyncView()), e)
    {
      if e.kind == Changed {
        if e.path == WEATHER_PATH {
          var high', low', fetches' := high, low, iconFetches;
          if HIGH_KEY in e.data {
            high' := GetString(e.data, HIGH_KEY);
          }
          if LOW_KEY in e.data {
            low' := GetString(e.data, LOW_KEY);
          }
          if ICON_KEY in e.data {
            fetches' := fetches' + [GetAsset(e.data, ICON_KEY)];
          }
          high, low, iconFetches := high', low', fetches';
          invalidations := invalidations + 1;
        }
      }
    }

    /**
     * `loadBitmapFromAsset` followed by `onPostExecute`, for the oldest download still running.
     * A download that yields a bitmap replaces the icon with it, scaled; one that yields none is
     * skipped; a null asset is the fault the background task raises, and the icon is left alone.
     */
    method CompleteIconFetch(stream: Option<Stream>, decode: Stream -> Option<Bitmap>)
      returns (r: Result<Option<Bitmap>, Fault>)
      requires Valid() && iconFetches != []
      modifies this`icon, this`iconFetches
      ensures Valid()
      ensures iconFetches == old(iconFetches[1..])
      ensures r == LoadBitmapFromAsset(old(iconFetches[0]), connected, stream, decode)
      ensures icon == if r.Success? then PostExecute(old(icon), r.value) else old(icon)
    {
      r := LoadBitmapFromAsset(iconFetches[0], connected, stream, decode);
      iconFetches := iconFetches[1..];
      if r.Success? {
        icon := PostExecute(icon, r.value);
      }
    }

    /** `registerReceiver`: registers the time-zone receiver unless it already is. */
    method RegisterReceiver()
      requires ReceiverValid()
      modifies this`registeredTimeZoneReceiver, this`receiverLog
      ensures ReceiverValid() && registeredTimeZoneReceiver
      ensures receiverLog == old(receiverLog) + (if old(registeredTimeZoneReceiver) then [] else [Register])
    {
      if registeredTimeZoneReceiver {
        return;
      }
      registeredTimeZoneReceiver := true;
      receiverLog := receiverLog + [Register];
    }

    /** `unregisterReceiver`: unregisters the time-zone receiver if it is registered. */
    method UnregisterReceiver()
      requires ReceiverValid()
      modifies this`registeredTimeZoneReceiver, this`receiverLog
      ensures ReceiverValid() && !registeredTimeZoneReceiver
      ensures receiverLog == old(receiverLog) + (if old(registeredTimeZoneReceiver) then [Unregister] else [])
    {
      if !registeredTimeZoneReceiver {
        return;
      }
      registeredTimeZoneReceiver := false;
      receiverLog := receiverLog + [Unregister];
    }

    /** The time-zone receiver's `onReceive`: the clock switches to the broadcast zone. */
    method OnTimeZoneChanged(zone: string)
      requires Valid()
      modifies this`timeZone
      ensures Valid() && timeZone == zone
    {
      timeZone := zone;
    }

    /**
     * `onVisibilityChanged`: becoming visible registers the receiver, asks the client to connect
     * (the connection arrives later, through OnConnected) and refreshes the time zone; becoming
     * invisible unregisters the receiver and, if connected, removes the data listener and
     * disconnects. Either way the timer is restarted or stopped.
     */
    method OnVisibilityChanged(isVisible: bool, defaultZone: string, now: int)
      requires Valid()
      modifies this
      ensures Valid()
      ensures visible == isVisible && registeredTimeZoneReceiver == isVisible
      ensures pendingTicks == if ShouldTimerBeRunning(isVisible, ambient) then [now] else []
      ensures receiverLog == old(receiverLog) +
        (if isVisible == old(registeredTimeZoneReceiver) then []
         else if isVisible then [Register] else [Unregister])
      ensures timeZone == if isVisible then defaultZone else old(timeZone)
      ensures connected == (old(connected) && isVisible) && listening == (old(listening) && isVisible)
      ensures ambient == old(ambient) && hostAmbient == old(hostAmbient)
      ensures invalidations == old(invalidations) && lowBitAmbient == old(lowBitAmbient)
      ensures timeAntiAlias == old(timeAntiAlias) && dateAntiAlias == old(dateAntiAlias)
      ensures tempAntiAlias == old(tempAntiAlias)
      ensures high == old(high) && low == old(low) && icon == old(icon) && iconFetches == old(iconFetches)
    {
      visible := isVisible;
      if isVisible {
        RegisterReceiver();
        timeZone := defaultZone;
      } else {
        UnregisterReceiver();
        if connected {
          listening := false;
          connected := false;
        }
      }
      UpdateTimer(now);
    }

    /** `onPropertiesChanged`: the low-bit-ambient property, false when absent. */
    method OnPropertiesChanged(lowBit: Option<bool>)
      requires Valid()
      modifies this`lowBitAmbient
      ensures Valid() && lowBitAmbient == lowBit.GetOr(false)
    {
      lowBitAmbient := lowBit.GetOr(false);
    }

    /** `onTimeTick`: the host's once-a-minute tick asks for a repaint. */
    method OnTimeTick()
      requires Valid()
      modifies this`invalidations
      ensures Valid() && invalidations == old(invalidations) + 1
    {
      invalidations := invalidations + 1;
    }

    /**
     * `onAmbientModeChanged`: a changed mode is recorded, switches the text paints' anti-aliasing
     * on low-bit displays and asks for a repaint; an unchanged mode does neither. Either way the
     * timer is restarted or stopped.
     */
    method OnAmbientModeChanged(inAmbientMode: bool, now: int)
      requires Valid()
      modifies this`hostAmbient, this`ambient, this`timeAntiAlias, this`dateAntiAlias,
        this`tempAntiAlias, this`invalidations, this`pendingTicks
      ensures Valid()
      ensures ambient == inAmbientMode && hostAmbient == inAmbientMode
      ensures old(ambient) == inAmbientMode ==>
        invalidations == old(invalidations) && timeAntiAlias == old(timeAntiAlias)
      ensures old(ambient) != inAmbientMode ==>
        invalidations == old(invalidations) + 1
        && timeAntiAlias == (if lowBitAmbient then !inAmbientMode else old(timeAntiAlias))
      ensures pendingTicks == if ShouldTimerBeRunning(visible, inAmbientMode) then [now] else []
    {
      hostAmbient := inAmbientMode;
      if ambient != inAmbientMode {
        ambient := inAmbientMode;
        if lowBitAmbient {
          timeAntiAlias := !inAmbientMode;
          dateAntiAlias := !inAmbientMode;
          tempAntiAlias := !inAmbientMode;
        }
        invalidations := invalidations + 1;
      }
      UpdateTimer(now);
    }

    /**
     * `updateTimer`: drops every queued tick, then queues one for right away if the timer should
     * run. Afterwards exactly one tick is pending when the face is visible and interactive, none otherwise.
     */
    method UpdateTimer(now: int)
      requires ambient == hostAmbient
      modifies this`pendingTicks
      ensures pendingTicks == if ShouldTimerBeRunning(visible, hostAmbient) then [now] else []
      ensures |pendingTicks| == (if visible && !ambient then 1 else 0)
    {
      pendingTicks := [];
      if ShouldTimerBeRunning(visible, hostAmbient) {
        pendingTicks := pendingTicks + [now];
      }
    }

    /**
     * `handleUpdateTimeMessage`, run when the Handler delivers the queued tick (which leaves the
     * queue): asks for a repaint and, while the timer should run, queues the next tick on the
     * next whole second. A queued tick implies the timer should run (TimerValid), because every
     * change of visibility or ambient mode calls UpdateTimer on the same thread; so the
     * no-reschedule branch of the source is never taken here.
     */
    method HandleUpdateTimeMessage(now: int)
      requires Valid() && pendingTicks != []
      modifies this`pendingTicks, this`invalidations
      ensures Valid()
      ensures invalidations == old(invalidations) + 1
      ensures pendingTicks == if ShouldTimerBeRunning(visible, hostAmbient) then [now + TickDelay(now)] else []
      ensures pendingTicks != [] && pendingTicks[0] % INTERACTIVE_UPDATE_RATE_MS == 0
      ensures now >= 0 ==> now < pendingTicks[0] <= now + INTERACTIVE_UPDATE_RATE_MS
    {
      pendingTicks := pendingTicks[1..];
      invalidations := invalidations + 1;
      if ShouldTimerBeRunning(visible, hostAmbient) {
        var delayMs := TickDelay(now);
        pendingTicks := pendingTicks + [now + delayMs];
      }
    }

    /** `onDestroy`: drops every queued tick. */
    method OnDestroy()
      requires Valid()
      modifies this`pendingTicks
      ensures Valid() && pendingTicks == []
    {
      pendingTicks := [];
    }

    /** The frame `onDraw` issues now, given the clock reading and the measured text widths. */
    function Frame(bounds: Rect, measure: (TextRole, string) -> real, date: string, hour: int, minute: int)
      : (ops: seq<DrawOp>)
      reads this
      requires Valid()
      ensures (|ops| == 5) == (high.Some? && low.Some? && !ambient && icon.Some?)
      ensures |ops| == 5 ==> ops[4].DrawIcon? && ops[4].icon == icon.value && IsIcon(ops[4].icon)
    {
      Draw(bounds, hostAmbient, sizes, measure, date, hour, minute, high, low, icon)
    }
  }
}
