# Weather watch face engine — a Dafny model

This project models the engine of the Sunshine weather watch face for Android Wear
(`WeatherWatchFace.java`): a digital face that shows the time, the date, the day's high
and low temperature and a weather icon received from the paired phone.

What is modelled:

- **The engine as a state machine** (`WatchFaceEngine.Engine`): one method per host
  callback (`onCreate`, `onVisibilityChanged`, `onAmbientModeChanged`, `onPropertiesChanged`,
  `onTimeTick`, `onDestroy`, `onConnected`, `onDataChanged`, the time-zone receiver), the
  idempotent `registerReceiver`/`unregisterReceiver`, the timer (`updateTimer`,
  `handleUpdateTimeMessage`) with the Handler's queue as a sequence of due times, and the
  completion of an icon download. `invalidate()` is a counter of repaint requests. The
  object invariant says that at most one tick is queued and only while the face is visible
  and interactive, that register/unregister calls to the system strictly alternate and the
  flag tells which came last, that the engine's ambient flag agrees with the host's, that
  the three text paints agree on anti-aliasing, and that a stored icon is 60x60.
- **The data-sync listener** (`WeatherSync`): `onDataChanged` is specified by a fold over the
  event batch; the lemmas say that only changes at exactly `/weather` matter, that a key
  absent from every such event leaves its field alone, that the last event carrying a key
  decides its value, that one repaint is requested per `/weather` event and that one icon
  download starts per ICON key, in order.
- **The icon download** (`IconFetch`): `loadBitmapFromAsset` and `onPostExecute`, with the
  data layer's stream lookup and the bitmap codec as parameters.
- **The timer arithmetic** (`UpdateTimer`): `shouldTimerBeRunning` and the delay
  `1000 - now % 1000` with Java's sign-of-dividend remainder.
- **The draw pass** (`FaceLayout`): `onDraw` as a pure function returning the list of draw
  calls with their coordinates; text sizes and measured widths are exact reals and each
  `(int)` cast is a truncation toward zero.
- **The time text** (`TimeFormat`): `String.format("%d:%02d", hour, minute)`, with a parser
  proving that the text determines the clock reading.

Two behaviours of the code worth knowing, which the model follows:

- A repaint is requested once per `/weather` change event inside the loop
  (`WeatherWatchFace.java:192`), not once per batch and not for batches without such an event.
- A download that yields no bitmap (`loadBitmapFromAsset` returns null at
  `WeatherWatchFace.java:433` and `:443`) is not skipped: `onPostExecute` hands null to the
  scaler (see "## Findings"). The engine model uses the corrected completion.

## Model

| member | source | states |
|---|---|---|
| `TimeFormat.Digits` | wearable/src/main/java/com/example/android/sunshine/app/WeatherWatchFace.java:356 | `%d` of a non-negative int yields at least one character, all decimal digits, with no leading zero unless the value is 0 |
| `TimeFormat.ValueOfDigits` | wearable/src/main/java/com/example/android/sunshine/app/WeatherWatchFace.java:356 | the decimal text of n reads back as n |
| `TimeFormat.DecimalString` | wearable/src/main/java/com/example/android/sunshine/app/WeatherWatchFace.java:356 | `%d` writes a non-negative int as digits without leading zeros that read back as it, and a negative one as '-' followed by the digits of its magnitude, again without leading zeros |
| `TimeFormat.ZeroPad2` | wearable/src/main/java/com/example/android/sunshine/app/WeatherWatchFace.java:356 | `%02d` writes at least two characters; a non-negative value is all digits and reads back as itself, and a minute (0..99) is exactly two digits |
| `TimeFormat.FormatTime` | wearable/src/main/java/com/example/android/sunshine/app/WeatherWatchFace.java:356 | for a clock reading the time text is the hour's digits without zero padding, a colon third from the end, and two minute digits |
| `TimeFormat.FormatTimeRoundTrip` | wearable/src/main/java/com/example/android/sunshine/app/WeatherWatchFace.java:355-356 | the hour:minute text parses back to the hour and minute it was made from |
| `TimeFormat.FormatTimeInjective` | wearable/src/main/java/com/example/android/sunshine/app/WeatherWatchFace.java:356 | two different clock readings never give the same time text |
| `UpdateTimer.ShouldTimerBeRunning` | wearable/src/main/java/com/example/android/sunshine/app/WeatherWatchFace.java:398-400 | the timer should run exactly when the face is visible and not in ambient mode |
| `UpdateTimer.JavaRemRate` | wearable/src/main/java/com/example/android/sunshine/app/WeatherWatchFace.java:409-410 | the remainder of the clock by 1000 has the clock's sign, is smaller than 1000 in magnitude and differs from the clock by a multiple of 1000 |
| `UpdateTimer.TickDelay` | wearable/src/main/java/com/example/android/sunshine/app/WeatherWatchFace.java:408-411 | the delay is positive, lands the next tick on a whole second, and is at most one second for a clock at or after the epoch |
| `UpdateTimer.TickIsNextSecond` | wearable/src/main/java/com/example/android/sunshine/app/WeatherWatchFace.java:408-411 | for a clock at or after the epoch no whole second lies strictly between now and the next tick: the tick falls on the next second boundary |
| `WeatherSync.GetString` | wearable/src/main/java/com/example/android/sunshine/app/WeatherWatchFace.java:173-174 | a string is read under a key exactly when the map holds a string there |
| `WeatherSync.GetAsset` | wearable/src/main/java/com/example/android/sunshine/app/WeatherWatchFace.java:185-186 | an asset is read under a key exactly when the map holds an asset there |
| `WeatherSync.IsWeatherUpdate` | wearable/src/main/java/com/example/android/sunshine/app/WeatherWatchFace.java:167-171 | the listener acts on an event exactly when its type is TYPE_CHANGED and its path is exactly "/weather" |
| `WeatherSync.ApplyEvent` | wearable/src/main/java/com/example/android/sunshine/app/WeatherWatchFace.java:166-193 | an event that is not a change at "/weather" changes nothing; one that is requests one repaint; an absent HIGH, LOW or ICON key leaves its field alone |
| `WeatherSync.WeatherUpdates` | wearable/src/main/java/com/example/android/sunshine/app/WeatherWatchFace.java:166-171 | the events the listener acts on: every change at "/weather" of the batch is among them, each of them is one from the batch, and there is one per such position |
| `WeatherSync.WeatherUpdatesInOrder` | wearable/src/main/java/com/example/android/sunshine/app/WeatherWatchFace.java:166-171 | the events the listener acts on keep batch order: the change at "/weather" preceded by k such changes is entry k |
| `WeatherSync.ApplyEvents` | wearable/src/main/java/com/example/android/sunshine/app/WeatherWatchFace.java:166-195 | the loop over a batch keeps the downloads already running as a prefix and requests between zero and one repaint per event |
| `WeatherSync.OnlyWeatherUpdatesMatter` | wearable/src/main/java/com/example/android/sunshine/app/WeatherWatchFace.java:166-171 | dropping every event that is not a change at "/weather" leaves the outcome of a batch unchanged |
| `WeatherSync.NoWeatherUpdateNoChange` | wearable/src/main/java/com/example/android/sunshine/app/WeatherWatchFace.java:166-194 | a batch without a change at "/weather" changes no state and requests no repaint |
| `WeatherSync.RepaintPerWeatherUpdate` | wearable/src/main/java/com/example/android/sunshine/app/WeatherWatchFace.java:192 | a batch requests exactly as many repaints as it has positions holding a change at "/weather" |
| `WeatherSync.IconFetchesInOrder` | wearable/src/main/java/com/example/android/sunshine/app/WeatherWatchFace.java:185-188 | a batch starts one icon download per ICON key of a "/weather" change, in batch order, appended to those already running |
| `WeatherSync.AbsentKeyKeepsValue` | wearable/src/main/java/com/example/android/sunshine/app/WeatherWatchFace.java:173-184 | when no "/weather" change of the batch carries HIGH (LOW), the high (low) temperature keeps its previous value |
| `WeatherSync.LastHighWins` | wearable/src/main/java/com/example/android/sunshine/app/WeatherWatchFace.java:173-175 | after a batch the high temperature is what the last "/weather" change carrying HIGH held under it |
| `WeatherSync.LastLowWins` | wearable/src/main/java/com/example/android/sunshine/app/WeatherWatchFace.java:179-181 | after a batch the low temperature is what the last "/weather" change carrying LOW held under it |
| `IconFetch.LoadBitmapFromAsset` | wearable/src/main/java/com/example/android/sunshine/app/WeatherWatchFace.java:428-447 | a null asset is a fault; a bitmap comes back exactly when the client is connected, the data layer has a stream and the codec decodes it, and it is the decoded one |
| `IconFetch.ScaleToIcon` | wearable/src/main/java/com/example/android/sunshine/app/WeatherWatchFace.java:425 | the stored icon is 60x60 |
| `IconFetch.PostExecuteAsWritten` | wearable/src/main/java/com/example/android/sunshine/app/WeatherWatchFace.java:424-426 | the as-written completion succeeds exactly when the download produced a bitmap |
| `IconFetch.PostExecuteAsWrittenCrashesWithoutBitmap` | wearable/src/main/java/com/example/android/sunshine/app/WeatherWatchFace.java:424-444 | a download with a disconnected client, no stream or an undecodable stream yields null, and the as-written completion then faults |
| `IconFetch.PostExecute` | wearable/src/main/java/com/example/android/sunshine/app/WeatherWatchFace.java:424-426 | a downloaded bitmap replaces the icon, scaled to 60x60; a failed download keeps the previous icon; a stored icon is never cleared and stays 60x60 |
| `FaceLayout.Trunc` | wearable/src/main/java/com/example/android/sunshine/app/WeatherWatchFace.java:351-352 | the int cast truncates toward zero: the result is within one of the value, on the side of zero |
| `FaceLayout.TemperatureLine` | wearable/src/main/java/com/example/android/sunshine/app/WeatherWatchFace.java:366 | the temperature line is the high text, one space, the low text |
| `FaceLayout.Draw` | wearable/src/main/java/com/example/android/sunshine/app/WeatherWatchFace.java:338-381 | a frame is the background (black iff ambient), the date, the time text, then the temperature line iff both temperatures are known, then the icon iff also interactive and an icon is known |
| `FaceLayout.WhatIsDrawn` | wearable/src/main/java/com/example/android/sunshine/app/WeatherWatchFace.java:365-379 | date and time are always drawn; the temperature iff both temperatures are known; the icon iff the temperature is drawn, the face is interactive and an icon is known |
| `FaceLayout.LayoutMargins` | wearable/src/main/java/com/example/android/sunshine/app/WeatherWatchFace.java:351-378 | with non-negative text sizes the time baseline is at least MARGIN above the date's, the temperature's at least MARGIN below it, the icon's right edge exactly MARGIN left of the temperature, and an even-height icon is centred MARGIN below the middle of the temperature line |
| `FaceLayout.TextCentred` | wearable/src/main/java/com/example/android/sunshine/app/WeatherWatchFace.java:350-368 | each text line's midpoint lies within one pixel right of the centre (the temperature's of a point 3 * MARGIN right of it) |
| `FaceLayout.AmbientOnlyHidesIcon` | wearable/src/main/java/com/example/android/sunshine/app/WeatherWatchFace.java:340-379 | an ambient frame is the interactive frame with a black background and without the icon |
| `WatchFaceEngine.Engine.constructor` | wearable/src/main/java/com/example/android/sunshine/app/WeatherWatchFace.java:200-237 | a new engine is invisible, interactive, anti-aliased, unregistered, disconnected, without weather, icon or pending tick |
| `WatchFaceEngine.Engine.OnConnected` | wearable/src/main/java/com/example/android/sunshine/app/WeatherWatchFace.java:146-151 | once connected the engine listens for data |
| `WatchFaceEngine.Engine.OnDataChanged` | wearable/src/main/java/com/example/android/sunshine/app/WeatherWatchFace.java:163-197 | the loop leaves temperatures, downloads and repaints as the fold over the batch specifies, and keeps the invariant |
| `WatchFaceEngine.Engine.OnDataEvent` | wearable/src/main/java/com/example/android/sunshine/app/WeatherWatchFace.java:167-193 | one loop iteration does what one event of the fold does |
| `WatchFaceEngine.Engine.CompleteIconFetch` | wearable/src/main/java/com/example/android/sunshine/app/WeatherWatchFace.java:416-447 | the oldest download completes: it leaves the queue, and the icon is updated only by a bitmap it produced |
| `WatchFaceEngine.Engine.RegisterReceiver` | wearable/src/main/java/com/example/android/sunshine/app/WeatherWatchFace.java:281-288 | afterwards the receiver is registered; the system is called only if it was not, so a second call is a no-op |
| `WatchFaceEngine.Engine.UnregisterReceiver` | wearable/src/main/java/com/example/android/sunshine/app/WeatherWatchFace.java:290-296 | afterwards the receiver is unregistered; the system is called only if it was registered, so a second call is a no-op |
| `WatchFaceEngine.Engine.OnTimeZoneChanged` | wearable/src/main/java/com/example/android/sunshine/app/WeatherWatchFace.java:120-126 | the clock switches to the broadcast time zone |
| `WatchFaceEngine.Engine.OnVisibilityChanged` | wearable/src/main/java/com/example/android/sunshine/app/WeatherWatchFace.java:254-279 | the receiver is registered iff visible, with one system call per actual change; becoming visible refreshes the time zone, becoming invisible disconnects; one tick is pending iff visible and interactive; weather is untouched |
| `WatchFaceEngine.Engine.OnPropertiesChanged` | wearable/src/main/java/com/example/android/sunshine/app/WeatherWatchFace.java:308-311 | the low-bit flag takes the property's value, false when absent |
| `WatchFaceEngine.Engine.OnTimeTick` | wearable/src/main/java/com/example/android/sunshine/app/WeatherWatchFace.java:313-317 | one repaint is requested |
| `WatchFaceEngine.Engine.OnAmbientModeChanged` | wearable/src/main/java/com/example/android/sunshine/app/WeatherWatchFace.java:320-335 | an unchanged mode neither repaints nor touches the paints; a changed one is recorded, repaints once and sets anti-aliasing to not-ambient only on low-bit displays; one tick is pending iff visible and interactive |
| `WatchFaceEngine.Engine.UpdateTimer` | wearable/src/main/java/com/example/android/sunshine/app/WeatherWatchFace.java:387-400 | queued ticks are dropped, then exactly one is queued iff visible and not ambient |
| `WatchFaceEngine.Engine.HandleUpdateTimeMessage` | wearable/src/main/java/com/example/android/sunshine/app/WeatherWatchFace.java:405-413 | a delivered tick repaints and is replaced by exactly one tick on a whole second; for a clock at or after the epoch that is the next second, at most one second later |
| `WatchFaceEngine.Engine.OnDestroy` | wearable/src/main/java/com/example/android/sunshine/app/WeatherWatchFace.java:240-243 | no tick stays queued |
| `WatchFaceEngine.Engine.Frame` | wearable/src/main/java/com/example/android/sunshine/app/WeatherWatchFace.java:338-381 | the engine's frame draws its stored icon, 60x60, iff both temperatures are known, the face is interactive and an icon is stored |

## Left out

- Canvas, `Paint`, `Typeface`, colours and pixels: a frame is a list of draw calls; the paints' anti-aliasing is three booleans.
- Floating point: text sizes and measured widths are exact reals, so float rounding and the cast of NaN or out-of-range values are not modelled.
- Java `int` and `long` overflow in the layout coordinates and in the clock arithmetic.
- `measureText` is a parameter (any function from paint and text to a width); the text sizes come from resources at creation.
- The date text (`SimpleDateFormat`), `Time.setToNow`, `TimeZone.getDefault` and `System.currentTimeMillis` are inputs; the time zone is kept only as its identifier.
- TimeFormat.FormatTime: `String.format` without a `Locale` writes the default locale's digits (and minus sign); the model takes the default locale to write ASCII digits, as English and most other locales do, and does not model locales with other digits (Arabic-Indic, for one).
- `android.graphics.Rect` is not part of this model: the bounds' centre is taken as `(left + right) >> 1`, its documented definition.
- `DataMap` is not part of this model: `getString`/`getAsset` are taken to return null for a value of another type.
- The sync client's connection handshake: `connect()` is asynchronous, so `connected` becomes true only through `OnConnected`; `onConnectionSuspended` and `onConnectionFailed` have empty bodies and are not modelled.
- Threads: the background download, the data layer's blocking stream lookup and the bitmap codec are parameters of `CompleteIconFetch`; downloads complete in launch order, as the serial task executor runs them.
- WatchFaceEngine.Engine.CompleteIconFetch: where the source ends the process, the model carries on. A null asset raises an IllegalArgumentException in the background download (:429-431); the model returns `Failure(NullAsset)` and leaves the icon alone. A download that yields no bitmap makes `onPostExecute` throw a NullPointerException (:425); the model returns `Success(None)` and keeps the previous icon (see "## Findings").
- WatchFaceEngine.Engine.HandleUpdateTimeMessage: models delivery of the queued tick (it requires one); when a message falls due and the Handler's weak reference are not modelled.
- `BroadcastReceiver` delivery, logging, `onApplyWindowInsets` (no effect), the watch-face style and `mYOffset` (never read by the draw pass).

## Findings

| source | as written | input that shows it | evidently intended | confidence | as-written member | corrected member |
|---|---|---|---|---|---|---|
| wearable/src/main/java/com/example/android/sunshine/app/WeatherWatchFace.java:424-426 | `onPostExecute` passes the download's result to `Bitmap.createScaledBitmap` unchecked, which throws a NullPointerException on null | an ICON asset downloaded while the client is disconnected (:432-434), or with no stream for it (:441-444), or whose bytes do not decode (:446) | skip the update and keep the previous icon | medium; not executed | `IconFetch.PostExecuteAsWrittenCrashesWithoutBitmap` | `IconFetch.PostExecute` |
