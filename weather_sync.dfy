/**
 * The data-sync listener of the watch face: how a batch of data events from the
 * paired handheld changes the weather the face shows.
 *
 * `ApplyEvents` is the specification of the engine's `onDataChanged` loop. Its
 * state is the part of the engine that the loop touches: the high and low
 * temperature texts, the icon downloads started (one background task per ICON
 * asset, in launch order), and the number of repaints requested.
 */
module WeatherSync {
  import opened Wrappers

  const WEATHER_PATH: string := "/weather"
  const HIGH_KEY: string := "HIGH"
  const LOW_KEY: string := "LOW"
  const ICON_KEY: string := "ICON"

  /** `DataEvent.TYPE_CHANGED` and `DataEvent.TYPE_DELETED`. */
  datatype EventType = Changed | Deleted

  /** An opaque reference to a binary blob held by the data layer. */
  datatype Asset = Asset(digest: string)

  /** A value in a DataMap: a string, an asset, or anything else (other types, null). */
  datatype DataValue = StringValue(s: string) | AssetValue(asset: Asset) | OtherValue

  /** A data event: its type, the path of its data item, and the item's DataMap. */
  datatype DataEvent = DataEvent(kind: EventType, path: string, data: map<string, DataValue>)

  /** `DataMap.getString`: the string under `key`, or null when the key is absent or holds another type. */
  function GetString(data: map<string, DataValue>, key: string): (r: Option<string>)
    ensures r.Some? <==> key in data && data[key].StringValue?
    ensures r.Some? ==> data[key] == StringValue(r.value)
  {
    if key in data && data[key].StringValue? then Some(data[key].s) else None
  }

  /** `DataMap.getAsset`: the asset under `key`, or null when the key is absent or holds another type. */
  function GetAsset(data: map<string, DataValue>, key: string): (r: Option<Asset>)
    ensures r.Some? <==> key in data && data[key].AssetValue?
    ensures r.Some? ==> data[key] == AssetValue(r.value)
  {
    if key in data && data[key].AssetValue? then Some(data[key].asset) else None
  }

  /** An event the listener acts on: a change of the data item at exactly "/weather". */
  predicate IsWeatherUpdate(e: DataEvent) {
    e.kind == Changed && e.path == WEATHER_PATH
  }

  datatype SyncState = SyncState(
    high: Option<string>,
    low: Option<string>,
    iconFetches: seq<Option<Asset>>,
    repaints: nat)

  /** One iteration of the `onDataChanged` loop. */
  function ApplyEvent(s: SyncState, e: DataEvent): (r: SyncState)
    ensures !IsWeatherUpdate(e) ==> r == s
    ensures IsWeatherUpdate(e) ==> r.repaints == s.repaints + 1
    ensures HIGH_KEY !in e.data ==> r.high == s.high
    ensures LOW_KEY !in e.data ==> r.low == s.low
    ensures ICON_KEY !in e.data ==> r.iconFetches == s.iconFetches
  {
    if !IsWeatherUpdate(e) then s
    else
      var high := if HIGH_KEY in e.data then GetString(e.data, HIGH_KEY) else s.high;
      var low := if LOW_KEY in e.data then GetString(e.data, LOW_KEY) else s.low;
      var fetches :=
        if ICON_KEY in e.data then s.iconFetches + [GetAsset(e.data, ICON_KEY)] else s.iconFetches;
      SyncState(high, low, fetches, s.repaints + 1)
  }

  /** The whole batch, events taken in order. */
  function ApplyEvents(s: SyncState, es: seq<DataEvent>): (r: SyncState)
    ensures |s.iconFetches| <= |r.iconFetches| && r.iconFetches[..|s.iconFetches|] == s.iconFetches
    ensures s.repaints <= r.repaints <= s.repaints + |es|
    decreases |es|
  {
    if es == [] then s
    else
      var prev := ApplyEvents(s, es[..|es| - 1]);
      assert prev.iconFetches[..|s.iconFetches|] == s.iconFetches;
      ApplyEvent(prev, es[|es| - 1])
  }

  /** The positions of a batch holding an event the listener acts on. */
  ghost function WeatherIndices(es: seq<DataEvent>): set<int> {
    set i | 0 <= i < |es| && IsWeatherUpdate(es[i])
  }

  /** Extending a batch by one event adds its position exactly when it is a weather update. */
  lemma WeatherIndicesStep(es: seq<DataEvent>)
    requires es != []
    ensures var n := |es| - 1;
      |WeatherIndices(es)| == |WeatherIndices(es[..n])| + (if IsWeatherUpdate(es[n]) then 1 else 0)
  {
    var n := |es| - 1;
    var init := es[..n];
    var a := WeatherIndices(init);
    assert forall i :: 0 <= i < n ==> init[i] == es[i];
    if IsWeatherUpdate(es[n]) {
      assert WeatherIndices(es) == a + {n};
      assert n !in a;
    } else {
      assert WeatherIndices(es) == a;
    }
  }

  /**
   * The events of a batch the listener acts on: every change at "/weather" of the batch and
   * nothing else, one entry per such position, in batch order (the k-th such change is entry k).
   */
  function WeatherUpdates(es: seq<DataEvent>): (r: seq<DataEvent>)
    ensures |r| == |WeatherIndices(es)| && |r| <= |es|
    ensures forall i :: 0 <= i < |r| ==> IsWeatherUpdate(r[i]) && r[i] in es
    ensures forall i :: 0 <= i < |es| && IsWeatherUpdate(es[i]) ==> es[i] in r
    decreases |es|
  {
    if es == [] then
      assert WeatherIndices(es) == {};
      []
    else
      var n := |es| - 1;
      var init := WeatherUpdates(es[..n]);
      WeatherIndicesStep(es);
      assert forall i :: 0 <= i < n ==> es[..n][i] == es[i];
      if IsWeatherUpdate(es[n]) then init + [es[n]] else init
  }

  /**
   * The weather updates keep their batch order: the update at position i, preceded by k
   * updates, is entry k of the list the listener acts on.
   */
  lemma {:induction false} WeatherUpdatesInOrder(es: seq<DataEvent>, i: int)
    requires 0 <= i < |es| && IsWeatherUpdate(es[i])
    ensures |WeatherIndices(es[..i])| < |WeatherUpdates(es)|
    ensures WeatherUpdates(es)[|WeatherIndices(es[..i])|] == es[i]
    decreases |es|
  {
    var n := |es| - 1;
    var init := es[..n];
    WeatherIndicesStep(es);
    if i == n {
      assert init == es[..i];
    } else {
      assert init[..i] == es[..i];
      assert init[i] == es[i];
      WeatherUpdatesInOrder(init, i);
    }
  }

  /** The assets named by the weather updates that carry an ICON key, in order. */
  function IconRequests(es: seq<DataEvent>): seq<Option<Asset>>
    decreases |es|
  {
    if es == [] then []
    else
      var init := IconRequests(es[..|es| - 1]);
      var e := es[|es| - 1];
      if IsWeatherUpdate(e) && ICON_KEY in e.data then init + [GetAsset(e.data, ICON_KEY)] else init
  }

  /** Whether some weather update of the batch carries `key`. */
  predicate Carries(es: seq<DataEvent>, key: string) {
    exists i :: 0 <= i < |es| && IsWeatherUpdate(es[i]) && key in es[i].data
  }

  /** Events that are not changes at "/weather" leave the state exactly as the other events alone would. */
  lemma {:induction false} OnlyWeatherUpdatesMatter(s: SyncState, es: seq<DataEvent>)
    ensures ApplyEvents(s, es) == ApplyEvents(s, WeatherUpdates(es))
    decreases |es|
  {
    if es != [] {
      var init := es[..|es| - 1];
      var e := es[|es| - 1];
      OnlyWeatherUpdatesMatter(s, init);
      var w := WeatherUpdates(init);
      if IsWeatherUpdate(e) {
        assert WeatherUpdates(es) == w + [e];
        assert (w + [e])[..|w + [e]| - 1] == w;
      }
    }
  }

  /** Exactly one repaint is requested per weather update, none for any other event. */
  lemma {:induction false} RepaintPerWeatherUpdate(s: SyncState, es: seq<DataEvent>)
    ensures ApplyEvents(s, es).repaints == s.repaints + |WeatherUpdates(es)|
    ensures ApplyEvents(s, es).repaints == s.repaints + |WeatherIndices(es)|
    decreases |es|
  {
    if es != [] {
      RepaintPerWeatherUpdate(s, es[..|es| - 1]);
    }
  }

  /** One icon download is started per ICON key of a weather update, in batch order. */
  lemma {:induction false} IconFetchesInOrder(s: SyncState, es: seq<DataEvent>)
    ensures ApplyEvents(s, es).iconFetches == s.iconFetches + IconRequests(es)
    decreases |es|
  {
    if es != [] {
      IconFetchesInOrder(s, es[..|es| - 1]);
    }
  }

  /** A temperature whose key no weather update carries keeps its previous value. */
  lemma {:induction false} AbsentKeyKeepsValue(s: SyncState, es: seq<DataEvent>)
    ensures !Carries(es, HIGH_KEY) ==> ApplyEvents(s, es).high == s.high
    ensures !Carries(es, LOW_KEY) ==> ApplyEvents(s, es).low == s.low
    decreases |es|
  {
    if es != [] {
      var init := es[..|es| - 1];
      var e := es[|es| - 1];
      AbsentKeyKeepsValue(s, init);
      if !Carries(es, HIGH_KEY) {
        assert !Carries(init, HIGH_KEY) by {
          forall i | 0 <= i < |init| ensures !(IsWeatherUpdate(init[i]) && HIGH_KEY in init[i].data) {
            assert init[i] == es[i];
          }
        }
        assert !(IsWeatherUpdate(e) && HIGH_KEY in e.data);
      }
      if !Carries(es, LOW_KEY) {
        assert !Carries(init, LOW_KEY) by {
          forall i | 0 <= i < |init| ensures !(IsWeatherUpdate(init[i]) && LOW_KEY in init[i].data) {
            assert init[i] == es[i];
          }
        }
        assert !(IsWeatherUpdate(e) && LOW_KEY in e.data);
      }
    }
  }

  /**
   * A present key is merged: the high temperature after the batch is what `getString("HIGH")`
   * gave for the LAST weather update carrying HIGH (later events without HIGH leave it alone).
   */
  lemma {:induction false} LastHighWins(s: SyncState, es: seq<DataEvent>, k: int)
    requires 0 <= k < |es| && IsWeatherUpdate(es[k]) && HIGH_KEY in es[k].data
    requires forall j :: k < j < |es| ==> !(IsWeatherUpdate(es[j]) && HIGH_KEY in es[j].data)
    ensures ApplyEvents(s, es).high == GetString(es[k].data, HIGH_KEY)
    decreases |es|
  {
    if k < |es| - 1 {
      var init := es[..|es| - 1];
      assert init[k] == es[k];
      forall j | k < j < |init| ensures !(IsWeatherUpdate(init[j]) && HIGH_KEY in init[j].data) {
        assert init[j] == es[j];
      }
      LastHighWins(s, init, k);
    }
  }

  /** The same for the low temperature. */
  lemma {:induction false} LastLowWins(s: SyncState, es: seq<DataEvent>, k: int)
    requires 0 <= k < |es| && IsWeatherUpdate(es[k]) && LOW_KEY in es[k].data
    requires forall j :: k < j < |es| ==> !(IsWeatherUpdate(es[j]) && LOW_KEY in es[j].data)
    ensures ApplyEvents(s, es).low == GetString(es[k].data, LOW_KEY)
    decreases |es|
  {
    if k < |es| - 1 {
      var init := es[..|es| - 1];
      assert init[k] == es[k];
      forall j | k < j < |init| ensures !(IsWeatherUpdate(init[j]) && LOW_KEY in init[j].data) {
        assert init[j] == es[j];
      }
      LastLowWins(s, init, k);
    }
  }

  /** A batch with no change at "/weather" changes no state and requests no repaint. */
  lemma NoWeatherUpdateNoChange(s: SyncState, es: seq<DataEvent>)
    requires forall i :: 0 <= i < |es| ==> !IsWeatherUpdate(es[i])
    ensures ApplyEvents(s, es) == s
  {
    OnlyWeatherUpdatesMatter(s, es);
  }
}
