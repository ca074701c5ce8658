/** The screen's view model: two independently observed fetch lifecycles,
    one for the pet's location and one for its heart-rate history, and the
    fold that turns a location response into a LocationData.

    The network is not modelled: each fetch receives the outcome of its
    request as a parameter, `Ok(response)` or `Fail` for any exception the
    request raised. */
module ViewModel {
  import opened States
  import opened Data

  /** What the telemetry request returned to the coroutine. */
  datatype Outcome<+T> = Ok(response: T) | Fail

  const LocationErrorMessage: string := "Houve um erro ao buscar localização"
  const HeartRateErrorMessage: string := "Houve um erro ao buscar histórico de batimentos cardíacos"

  // ---------------------------------------------------------------------
  // Specification of the location fold
  // ---------------------------------------------------------------------

  /** The content of the last record of `s` that measures `name`, or `d` when
      no record does. Defined from the end of the list, independently of the
      front-to-back loop that computes it. */
  function LastContent(s: seq<ApiData>, name: string, d: real): (v: real)
    ensures v == d || exists k :: 0 <= k < |s| && s[k].variable == name && s[k].content == v
    decreases |s|
  {
    if s == [] then d
    else if s[|s| - 1].variable == name then s[|s| - 1].content
    else LastContent(s[..|s| - 1], name, d)
  }

  /** The timestamp of the first record whatever it measures, "" for none. */
  function FirstTime(s: seq<ApiData>): string
  {
    if s == [] then "" else s[0].time
  }

  /** The reading a location response denotes: the last latitude, the last
      longitude (0.0 where there is none) and the first record's time. */
  function LocationOf(s: seq<ApiData>): LocationData
  {
    LocationData(LastContent(s, Latitude, 0.0), LastContent(s, Longitude, 0.0), FirstTime(s))
  }

  /** The records of `s` that measure latitude or longitude, in order. */
  function LocationRecords(s: seq<ApiData>): (f: seq<ApiData>)
    ensures |f| <= |s|
    ensures forall r :: r in f ==> r in s && IsLocationRecord(r)
    ensures forall r :: r in s && IsLocationRecord(r) ==> r in f
    decreases |s|
  {
    if s == [] then []
    else
      assert s == s[..|s| - 1] + [s[|s| - 1]];
      LocationRecords(s[..|s| - 1]) + (if IsLocationRecord(s[|s| - 1]) then [s[|s| - 1]] else [])
  }

  /** Filtering distributes over concatenation, so the kept records stay in
      the order the response gave them. */
  lemma {:induction false} LocationRecordsAppend(a: seq<ApiData>, b: seq<ApiData>)
    ensures LocationRecords(a + b) == LocationRecords(a) + LocationRecords(b)
    decreases |b|
  {
    if b == [] {
      assert a + b == a;
    } else {
      var init, last := b[..|b| - 1], b[|b| - 1];
      assert (a + b)[..|a + b| - 1] == a + init;
      LocationRecordsAppend(a, init);
    }
  }

  /** With no record measuring `name`, the default is kept. */
  lemma {:induction false} NoMatchKeepsDefault(s: seq<ApiData>, name: string, d: real)
    requires forall k :: 0 <= k < |s| ==> s[k].variable != name
    ensures LastContent(s, name, d) == d
    decreases |s|
  {
    if s != [] {
      NoMatchKeepsDefault(s[..|s| - 1], name, d);
    }
  }

  /** Last write wins: the content of the last record measuring `name` is
      the result, whatever came before it. */
  lemma {:induction false} LastMatchWins(s: seq<ApiData>, name: string, d: real, k: nat)
    requires k < |s| && s[k].variable == name
    requires forall j :: k < j < |s| ==> s[j].variable != name
    ensures LastContent(s, name, d) == s[k].content
    decreases |s|
  {
    if k < |s| - 1 {
      LastMatchWins(s[..|s| - 1], name, d, k);
    }
  }

  /** Records that measure neither latitude nor longitude have no effect on
      either coordinate. */
  lemma {:induction false} LastContentIgnoresOtherRecords(s: seq<ApiData>, name: string, d: real)
    requires name == Latitude || name == Longitude
    ensures LastContent(LocationRecords(s), name, d) == LastContent(s, name, d)
    decreases |s|
  {
    if s != [] {
      var init, last := s[..|s| - 1], s[|s| - 1];
      LastContentIgnoresOtherRecords(init, name, d);
      if IsLocationRecord(last) {
        var f := LocationRecords(s);
        assert f == LocationRecords(init) + [last];
        assert f[..|f| - 1] == LocationRecords(init);
      } else {
        assert LocationRecords(s) == LocationRecords(init);
      }
    }
  }

  /** Dropping every record other than latitude and longitude leaves the
      reading unchanged except for its time, which only the first record of
      the full response decides. */
  lemma LocationIgnoresOtherRecords(s: seq<ApiData>)
    ensures LocationOf(s) == LocationOf(LocationRecords(s)).(time := FirstTime(s))
  {
    LastContentIgnoresOtherRecords(s, Latitude, 0.0);
    LastContentIgnoresOtherRecords(s, Longitude, 0.0);
  }

  // ---------------------------------------------------------------------
  // Write traces of the two state streams
  // ---------------------------------------------------------------------

  /** The states written to one stream by sequential fetches: `Idle`, then
      for every fetch `Loading` followed by `Success` or `Error`. */
  ghost predicate FetchCycles<T>(t: seq<ViewModelState<T>>)
  {
    |t| % 2 == 1 && t[0] == Idle &&
    forall i :: 0 < i < |t| ==>
      if i % 2 == 1 then t[i] == Loading else t[i].Success? || t[i].Error?
  }

  /** One more fetch cycle keeps the trace well formed. */
  lemma FetchCyclesExtend<T>(t: seq<ViewModelState<T>>, last: ViewModelState<T>)
    requires FetchCycles(t)
    requires last.Success? || last.Error?
    ensures FetchCycles(t + [Loading, last])
  {
  }

  /** Between fetches a stream is never left in `Loading`. */
  lemma SettledBetweenFetches<T>(t: seq<ViewModelState<T>>)
    requires FetchCycles(t)
    ensures t[|t| - 1] != Loading
  {
  }

  // ---------------------------------------------------------------------
  // The view model
  // ---------------------------------------------------------------------

  class MainViewModel {
    /** The current value of each observed stream. */
    var location: ViewModelState<LocationData>
    var heartRate: ViewModelState<ApiResponse>

    /** Every value ever written to each stream, oldest first. */
    ghost var locationWrites: seq<ViewModelState<LocationData>>
    ghost var heartRateWrites: seq<ViewModelState<ApiResponse>>

    ghost predicate Valid()
      reads this
    {
      FetchCycles(locationWrites) && location == locationWrites[|locationWrites| - 1] &&
      FetchCycles(heartRateWrites) && heartRate == heartRateWrites[|heartRateWrites| - 1]
    }

    /** Both streams start out `Idle`. */
    constructor ()
      ensures Valid()
      ensures location == Idle && heartRate == Idle
      ensures locationWrites == [Idle] && heartRateWrites == [Idle]
    {
      location, heartRate := Idle, Idle;
      locationWrites, heartRateWrites := [Idle], [Idle];
    }

    /** Assigns the location stream's value. */
    method SetLocation(s: ViewModelState<LocationData>)
      modifies this`location, this`locationWrites
      ensures location == s && locationWrites == old(locationWrites) + [s]
    {
      location := s;
      locationWrites := locationWrites + [s];
    }

    /** Assigns the heart-rate stream's value. */
    method SetHeartRate(s: ViewModelState<ApiResponse>)
      modifies this`heartRate, this`heartRateWrites
      ensures heartRate == s && heartRateWrites == old(heartRateWrites) + [s]
    {
      heartRate := s;
      heartRateWrites := heartRateWrites + [s];
    }

    /** Fetches the latest location: `Loading` replaces whatever was shown,
        then the parsed reading on success or the fixed message on failure.
        The heart-rate stream is not touched. */
    method GetLocation(outcome: Outcome<ApiResponse>)
      requires Valid()
      modifies this`location, this`locationWrites
      ensures Valid()
      ensures locationWrites == old(locationWrites) + [Loading, location]
      ensures outcome.Ok? ==> location == Success(LocationOf(outcome.response.result))
      ensures outcome.Fail? ==> location == Error(LocationErrorMessage)
      ensures heartRate == old(heartRate) && heartRateWrites == old(heartRateWrites)
    {
      SetLocation(Loading);
      match outcome {
        case Ok(response) =>
          var locationData := ParseApiLocationData(response);
          SetLocation(Success(locationData));
        case Fail =>
          SetLocation(Error(LocationErrorMessage));
      }
      FetchCyclesExtend(old(locationWrites), location);
    }

    /** Fetches the heart-rate history: `Loading`, then the response exactly
        as received on success or the fixed message on failure. The location
        stream is not touched. */
    method GetHeartRateHistory(outcome: Outcome<ApiResponse>)
      requires Valid()
      modifies this`heartRate, this`heartRateWrites
      ensures Valid()
      ensures heartRateWrites == old(heartRateWrites) + [Loading, heartRate]
      ensures outcome.Ok? ==> heartRate == Success(outcome.response)
      ensures outcome.Fail? ==> heartRate == Error(HeartRateErrorMessage)
      ensures location == old(location) && locationWrites == old(locationWrites)
    {
      SetHeartRate(Loading);
      match outcome {
        case Ok(response) =>
          SetHeartRate(Success(response));
        case Fail =>
          SetHeartRate(Error(HeartRateErrorMessage));
      }
      FetchCyclesExtend(old(heartRateWrites), heartRate);
    }

    /** Folds a location response into a reading: start from (0.0, 0.0, time
        of the first record or ""), then let every latitude or longitude
        record overwrite its coordinate. */
    method ParseApiLocationData(response: ApiResponse) returns (reading: LocationData)
      ensures reading == LocationOf(response.result)
      ensures reading.time == if |response.result| == 0 then "" else response.result[0].time
    {
      var records := response.result;
      reading := LocationData(0.0, 0.0, if |records| == 0 then "" else records[0].time);
      for i := 0 to |records|
        invariant reading == LocationOf(records[..i]).(time := FirstTime(records))
      {
        var it := records[i];
        if it.variable == Latitude {
          reading := reading.(latitude := it.content);
        } else if it.variable == Longitude {
          reading := reading.(longitude := it.content);
        }
        assert records[..i + 1][..i] == records[..i];
      }
      assert records[..|records|] == records;
    }
  }
}
