/** The Google Maps enrichment of a cached listing: the request builders,
    the reading of a directions response, and the lookup object that adds
    commute times and nearby grocery stores to the listing's record. */
module Maps {
  import opened Wrappers
  import opened Text
  import opened Values
  import opened Store
  import opened Web
  import opened Steps

  /** Search radius around the listing, in metres. */
  const Radius := 2000

  /** The travel modes, in the order they are queried. */
  const Modes: seq<string> := ["driving", "walking", "bicycling", "transit"]

  const WorkPlaceId := "place_id:ChIJi0hJ7LNbwokR6hCyn5HFhRY"

  const FindEndpoint := "https://maps.googleapis.com/maps/api/place/findplacefromtext/json"
  const DirectionsEndpoint := "https://maps.googleapis.com/maps/api/directions/json"

  // ----- request builders -----

  /** The value of the first parameter named `key`. */
  function Param(params: seq<(string, string)>, key: string): Option<string>
  {
    if params == [] then None
    else if params[0].0 == key then Some(params[0].1)
    else Param(params[1..], key)
  }

  /** The first parameter named `key` is the one at `i`. */
  lemma {:induction false} ParamAt(params: seq<(string, string)>, key: string, i: nat)
    requires i < |params| && params[i].0 == key
    requires forall j :: 0 <= j < i ==> params[j].0 != key
    ensures Param(params, key) == Some(params[i].1)
    decreases i
  {
    if i > 0 {
      assert forall j :: 0 <= j < i - 1 ==> params[1..][j] == params[j + 1];
      ParamAt(params[1..], key, i - 1);
    }
  }

  /** The parameter names, in order. */
  function Names(params: seq<(string, string)>): (r: seq<string>)
    ensures |r| == |params|
    ensures forall i :: 0 <= i < |params| ==> r[i] == params[i].0
  {
    if params == [] then [] else [params[0].0] + Names(params[1..])
  }

  /** The place search for `query` biased to a circle of `radius` metres
      around the listing; the parameters in the order they are encoded. */
  function FindRequest(apiKey: string, radius: int, lat: string, lon: string, query: string): Request
  {
    Request(FindEndpoint, [
      ("locationbias", "circle:" + IntToString(radius) + "@" + lat + "," + lon),
      ("inputtype", "textquery"),
      ("input", query),
      ("fields", "formatted_address,name,geometry"),
      ("key", apiKey)])
  }

  /** The departure time sent with a directions query. */
  function DepartureTime(mode: string): string
  {
    if mode != "transit" then "1663245954" else "1632314754"
  }

  /** The directions query from the listing to the work place. */
  function CommuteRequest(apiKey: string, lat: string, lon: string, mode: string): Request
  {
    Request(DirectionsEndpoint, [
      ("origin", lat + "," + lon),
      ("destination", WorkPlaceId),
      ("key", apiKey),
      ("mode", mode),
      ("departure_time", DepartureTime(mode))])
  }

  /** The place search names its five parameters in a fixed order, the key
      last, and carries the radius, position and query it was given. */
  lemma FindRequestParams(apiKey: string, radius: int, lat: string, lon: string, query: string)
    ensures var p := FindRequest(apiKey, radius, lat, lon, query).params;
      && Names(p) == ["locationbias", "inputtype", "input", "fields", "key"]
      && p[|p| - 1] == ("key", apiKey)
      && Param(p, "locationbias") == Some("circle:" + IntToString(radius) + "@" + lat + "," + lon)
      && Param(p, "inputtype") == Some("textquery")
      && Param(p, "input") == Some(query)
      && Param(p, "fields") == Some("formatted_address,name,geometry")
      && Param(p, "key") == Some(apiKey)
  {
    var p := FindRequest(apiKey, radius, lat, lon, query).params;
    assert Names(p) == [p[0].0, p[1].0, p[2].0, p[3].0, p[4].0];
    ParamAt(p, "inputtype", 1);
    ParamAt(p, "input", 2);
    ParamAt(p, "fields", 3);
    ParamAt(p, "key", 4);
  }

  /** The place search of the test script: the location bias reads
      `circle:2000@40.72797292,-73.98678763`. */
  lemma FindRequestExample()
    ensures FindRequest("AIza", 2000, "40.72797292", "-73.98678763", "Whole Foods").params[0]
      == ("locationbias", "circle:2000@" + "40.72797292,-73.98678763")
    ensures FindRequest("AIza", 2000, "40.72797292", "-73.98678763", "Whole Foods").params[2]
      == ("input", "Whole Foods")
  {
    RadiusText();
    var head := "circle:" + "2000" + "@";
    assert head == "circle:2000@";
    var lat, lon := "40.72797292", "-73.98678763";
    assert lat + "," + lon == "40.72797292,-73.98678763";
    assert head + lat + "," + lon == head + (lat + "," + lon);
  }

  // Digit step of FindRequestExample: the decimal text of the search radius.
  lemma RadiusText()
    ensures IntToString(2000) == "2000"
  {
    assert NatToString(2000) == NatToString(200) + [DigitChar(0)];
    assert NatToString(200) == NatToString(20) + [DigitChar(0)];
    assert NatToString(20) == NatToString(2) + [DigitChar(0)];
  }

  /** The directions query names its parameters in a fixed order and leaves
      from `lat,lon` for the work place; transit alone departs at
      1632314754, every other mode at 1663245954. */
  lemma CommuteRequestParams(apiKey: string, lat: string, lon: string, mode: string)
    ensures var p := CommuteRequest(apiKey, lat, lon, mode).params;
      && Names(p) == ["origin", "destination", "key", "mode", "departure_time"]
      && Param(p, "origin") == Some(lat + "," + lon)
      && Param(p, "destination") == Some(WorkPlaceId)
      && Param(p, "key") == Some(apiKey)
      && Param(p, "mode") == Some(mode)
      && (Param(p, "departure_time") == Some("1632314754") <==> mode == "transit")
      && (Param(p, "departure_time") == Some("1663245954") <==> mode != "transit")
  {
    var p := CommuteRequest(apiKey, lat, lon, mode).params;
    assert Names(p) == [p[0].0, p[1].0, p[2].0, p[3].0, p[4].0];
    ParamAt(p, "destination", 1);
    ParamAt(p, "key", 2);
    ParamAt(p, "mode", 3);
    ParamAt(p, "departure_time", 4);
    assert "1632314754" != "1663245954" by {
      assert "1632314754"[2] != "1663245954"[2];
    }
  }

  // ----- the duration text -----

  /** `int(t)`, whose failure is a ValueError. */
  function IntOf(t: string): (r: Result<int, Error>)
    ensures r.Ok? <==> ParseInt(t).Some?
    ensures r.Ok? ==> r.value == ParseInt(t).value
    ensures r.Err? ==> r.error == ValueError
  {
    match ParseInt(t)
    case Some(v) => Ok(v)
    case None => Err(ValueError)
  }

  predicate HasMinutes(tokens: seq<string>)
  {
    "min" in tokens || "mins" in tokens
  }

  predicate HasHours(tokens: seq<string>)
  {
    "hour" in tokens || "hours" in tokens
  }

  /** Minutes in a duration text such as "1 hour 5 mins", read from its
      whitespace-separated words. */
  function ParseDuration(text: string): Result<int, Error>
  {
    DurationOfWords(Split(text))
  }

  /** The next-to-last word counts when a word is "min" or "mins", sixty
      times the first word when a word is "hour" or "hours". */
  function DurationOfWords(tokens: seq<string>): Result<int, Error>
  {
    var minutes :- if !HasMinutes(tokens) then Ok(0)
                   else if |tokens| < 2 then Err(IndexError)
                   else IntOf(tokens[|tokens| - 2]);
    var hours :- if !HasHours(tokens) then Ok(0) else IntOf(tokens[0]);
    Ok(minutes + 60 * hours)
  }

  /** The words of a duration text written by joining words with spaces. */
  lemma DurationWords(toks: seq<string>)
    requires forall i :: 0 <= i < |toks| ==> IsToken(toks[i])
    ensures ParseDuration(Join(" ", toks)) == DurationOfWords(toks)
  {
    SplitJoinSpaces(toks);
  }

  /** A number is none of the unit words. */
  lemma IntToStringNotUnit(h: int)
    ensures IntToString(h) != "min" && IntToString(h) != "mins"
    ensures IntToString(h) != "hour" && IntToString(h) != "hours"
  {
    var d := NatToString(if h < 0 then -h else h);
    assert IsDigits(d);
    if h < 0 {
      assert IntToString(h)[1] == d[0];
    } else {
      assert IntToString(h)[0] == d[0];
    }
  }

  /** A duration written as `<h> <hour word> <m> <minute word>` reads back
      as `60 * h + m` minutes. */
  lemma ParseHoursMinutes(h: int, hourWord: string, m: int, minuteWord: string)
    requires hourWord == "hour" || hourWord == "hours"
    requires minuteWord == "min" || minuteWord == "mins"
    ensures ParseDuration(Join(" ", [IntToString(h), hourWord, IntToString(m), minuteWord])) == Ok(60 * h + m)
  {
    var toks := [IntToString(h), hourWord, IntToString(m), minuteWord];
    IntToStringIsToken(h);
    IntToStringIsToken(m);
    assert IsToken(hourWord) && IsToken(minuteWord);
    assert forall i :: 0 <= i < |toks| ==> IsToken(toks[i]);
    DurationWords(toks);
    HoursMinutesWords(h, hourWord, m, minuteWord);
  }

  lemma HoursMinutesWords(h: int, hourWord: string, m: int, minuteWord: string)
    requires hourWord == "hour" || hourWord == "hours"
    requires minuteWord == "min" || minuteWord == "mins"
    ensures DurationOfWords([IntToString(h), hourWord, IntToString(m), minuteWord]) == Ok(60 * h + m)
  {
    var toks := [IntToString(h), hourWord, IntToString(m), minuteWord];
    ParseIntToString(h);
    ParseIntToString(m);
    assert toks[1] == hourWord && toks[3] == minuteWord;
    assert HasMinutes(toks) && HasHours(toks);
  }

  /** A duration written as `<m> <minute word>` reads back as m minutes. */
  lemma ParseMinutes(m: int, minuteWord: string)
    requires minuteWord == "min" || minuteWord == "mins"
    ensures ParseDuration(Join(" ", [IntToString(m), minuteWord])) == Ok(m)
  {
    var toks := [IntToString(m), minuteWord];
    IntToStringIsToken(m);
    assert IsToken(minuteWord);
    assert forall i :: 0 <= i < |toks| ==> IsToken(toks[i]);
    DurationWords(toks);
    MinutesWords(m, minuteWord);
  }

  lemma MinutesWords(m: int, minuteWord: string)
    requires minuteWord == "min" || minuteWord == "mins"
    ensures DurationOfWords([IntToString(m), minuteWord]) == Ok(m)
  {
    var toks := [IntToString(m), minuteWord];
    ParseIntToString(m);
    IntToStringNotUnit(m);
    assert toks[1] == minuteWord;
    assert HasMinutes(toks);
    assert !HasHours(toks) by {
      assert forall i :: 0 <= i < |toks| ==> toks[i] != "hour" && toks[i] != "hours";
    }
  }

  /** A duration written as `<h> <hour word>` reads back as 60 * h minutes. */
  lemma ParseHours(h: int, hourWord: string)
    requires hourWord == "hour" || hourWord == "hours"
    ensures ParseDuration(Join(" ", [IntToString(h), hourWord])) == Ok(60 * h)
  {
    var toks := [IntToString(h), hourWord];
    IntToStringIsToken(h);
    assert IsToken(hourWord);
    assert forall i :: 0 <= i < |toks| ==> IsToken(toks[i]);
    DurationWords(toks);
    HoursWords(h, hourWord);
  }

  lemma HoursWords(h: int, hourWord: string)
    requires hourWord == "hour" || hourWord == "hours"
    ensures DurationOfWords([IntToString(h), hourWord]) == Ok(60 * h)
  {
    var toks := [IntToString(h), hourWord];
    ParseIntToString(h);
    IntToStringNotUnit(h);
    assert toks[1] == hourWord;
    assert HasHours(toks);
    assert !HasMinutes(toks) by {
      assert forall i :: 0 <= i < |toks| ==> toks[i] != "min" && toks[i] != "mins";
    }
  }

  /** A text with neither marker counts no minutes at all. */
  lemma ParseNoMarker(text: string)
    requires !HasMinutes(Split(text)) && !HasHours(Split(text))
    ensures ParseDuration(text) == Ok(0)
  {
  }

  /** "1 hour 5 mins" is 65 minutes. */
  lemma ParseDurationExample1()
    ensures ParseDuration("1 hour 5 mins") == Ok(65)
  {
    assert IntToString(1) == "1" && IntToString(5) == "5";
    ParseHoursMinutes(1, "hour", 5, "mins");
    JoinExample1();
  }

  // Join step of ParseDurationExample1: the words rejoin into the duration text.
  lemma JoinExample1()
    ensures Join(" ", ["1", "hour", "5", "mins"]) == "1 hour 5 mins"
  {
    var parts := ["1", "hour", "5", "mins"];
    assert parts[1..] == ["hour", "5", "mins"];
    assert parts[2..] == ["5", "mins"];
    assert Join(" ", ["5", "mins"]) == "5 mins";
    assert Join(" ", ["hour", "5", "mins"]) == "hour 5 mins";
  }

  /** "45 mins" is 45 minutes. */
  lemma ParseDurationExample2()
    ensures ParseDuration("45 mins") == Ok(45)
  {
    FortyFive();
    ParseMinutes(45, "mins");
    JoinExample2();
  }

  // Digit step of ParseDurationExample2: the decimal text of 45.
  lemma FortyFive()
    ensures IntToString(45) == "45"
  {
    assert NatToString(45) == NatToString(4) + [DigitChar(5)];
  }

  // Join step of ParseDurationExample2.
  lemma JoinExample2()
    ensures Join(" ", ["45", "mins"]) == "45 mins"
  {
  }

  /** "2 hours" is 120 minutes. */
  lemma ParseDurationExample3()
    ensures ParseDuration("2 hours") == Ok(120)
  {
    assert IntToString(2) == "2";
    ParseHours(2, "hours");
    JoinExample3();
  }

  // Join step of ParseDurationExample3.
  lemma JoinExample3()
    ensures Join(" ", ["2", "hours"]) == "2 hours"
  {
  }

  // ----- reading a directions response -----

  /** `j["routes"][0]["legs"][0]`. */
  function Leg(j: Json): Result<Json, Error>
  {
    var routes :- Field(j, "routes");
    var route :- Index(routes, 0);
    var legs :- Field(route, "legs");
    Index(legs, 0)
  }

  /** `leg["duration"]["text"]`, which must be a string to be split. */
  function DurationText(leg: Json): (r: Result<string, Error>)
    ensures r.Ok? <==> Path(leg, ["duration", "text"]).Ok? && Path(leg, ["duration", "text"]).value.JStr?
    ensures r.Ok? ==> Path(leg, ["duration", "text"]) == Ok(JStr(r.value))
  {
    var d :- Path(leg, ["duration", "text"]);
    if d.JStr? then Ok(d.s) else Err(AttributeError)
  }

  /** `leg["steps"][1]["transit_details"]["line"]["vehicle"]["type"]`: the
      vehicle of the SECOND step, whichever step has transit details. */
  function VehicleType(leg: Json): Result<Json, Error>
  {
    var steps :- Field(leg, "steps");
    var second :- Index(steps, 1);
    Path(second, ["transit_details", "line", "vehicle", "type"])
  }

  /** A step whose `.get("transit_details", {})` is truthy. */
  predicate TransitStep(step: Json)
  {
    step.JObj? && "transit_details" in step.fields && Truthy(step.fields["transit_details"])
  }

  // Set step of CommuteFoldShape, kept apart so that the set reasoning
  // stays out of that lemma's proof: the modes of a prefix grow by the next mode.
  lemma ModesPrefix(n: nat)
    requires 0 < n <= |Modes|
    ensures (set i | 0 <= i < n :: Modes[i]) == (set i | 0 <= i < n - 1 :: Modes[i]) + {Modes[n - 1]}
  {
  }

  /** The transit loop over the steps: each step must be a dictionary, and
      at every transit step the type is read from `VehicleType`. */
  function StepsType(leg: Json, steps: seq<Json>): Result<Option<Json>, Error>
  {
    if steps == [] then Ok(None)
    else
      var prior :- StepsType(leg, steps[..|steps| - 1]);
      var details :- GetOr(steps[|steps| - 1], "transit_details", JObj(map[]));
      if Truthy(details) then
        var t :- VehicleType(leg);
        Ok(Some(t))
      else Ok(prior)
  }

  /** The loop succeeds when every step is a dictionary and, if one of them
      is a transit step, the second step's vehicle type can be read; it
      finds a type exactly when some step is a transit step, and that type
      is the second step's. */
  lemma {:induction false} StepsTypeMeaning(leg: Json, steps: seq<Json>)
    ensures StepsType(leg, steps).Ok? <==>
      (forall i :: 0 <= i < |steps| ==> steps[i].JObj?)
      && ((exists i :: 0 <= i < |steps| && TransitStep(steps[i])) ==> VehicleType(leg).Ok?)
    ensures StepsType(leg, steps).Ok? ==>
      (StepsType(leg, steps).value.Some? <==> exists i :: 0 <= i < |steps| && TransitStep(steps[i]))
    ensures StepsType(leg, steps).Ok? && StepsType(leg, steps).value.Some? ==>
      VehicleType(leg) == Ok(StepsType(leg, steps).value.value)
    decreases |steps|
  {
    if steps != [] {
      var n := |steps| - 1;
      var pre := steps[..n];
      StepsTypeMeaning(leg, pre);
      StepsSnoc(steps);
      var last := steps[n];
      if last.JObj? {
        assert GetOr(last, "transit_details", JObj(map[])).Ok?;
        assert Truthy(GetOr(last, "transit_details", JObj(map[])).value) <==> TransitStep(last);
      }
    }
  }

  /** The quantified facts about a sequence of steps, split at the last. */
  lemma StepsSnoc(steps: seq<Json>)
    requires steps != []
    ensures var pre := steps[..|steps| - 1];
      && ((forall i :: 0 <= i < |steps| ==> steps[i].JObj?) <==>
            (forall i :: 0 <= i < |pre| ==> pre[i].JObj?) && steps[|steps| - 1].JObj?)
      && ((exists i :: 0 <= i < |steps| && TransitStep(steps[i])) <==>
            (exists i :: 0 <= i < |pre| && TransitStep(pre[i])) || TransitStep(steps[|steps| - 1]))
  {
    var n := |steps| - 1;
    var pre := steps[..n];
    assert forall i :: 0 <= i < n ==> pre[i] == steps[i];
    if exists i :: 0 <= i < |steps| && TransitStep(steps[i]) {
      var i :| 0 <= i < |steps| && TransitStep(steps[i]);
      if i < n {
        assert TransitStep(pre[i]);
      }
    }
    if exists i :: 0 <= i < n && TransitStep(pre[i]) {
      var i :| 0 <= i < n && TransitStep(pre[i]);
      assert TransitStep(steps[i]);
    }
  }

  /** One mode's entry of the commute table: the minutes, and for transit
      the vehicle type when the route has a transit step. */
  function ParseCommute(j: Json, mode: string): Result<Record, Error>
  {
    var leg :- Leg(j);
    var text :- DurationText(leg);
    var minutes :- ParseDuration(text);
    var entry := map["duration" := JInt(minutes)];
    if mode != "transit" then Ok(entry)
    else
      var stepsValue :- Field(leg, "steps");
      var steps :- Elements(stepsValue, AttributeError);
      var t :- StepsType(leg, steps);
      Ok(if t.Some? then entry["type" := t.value] else entry)
  }

  /** An entry holds the parsed minutes, and a type only for transit, only
      when the route has a transit step, and then the second step's. */
  lemma ParseCommuteMeaning(j: Json, mode: string)
    requires ParseCommute(j, mode).Ok?
    ensures Leg(j).Ok? && DurationText(Leg(j).value).Ok? && ParseDuration(DurationText(Leg(j).value).value).Ok?
    ensures var e := ParseCommute(j, mode).value;
      var leg := Leg(j).value;
      && "duration" in e && e["duration"] == JInt(ParseDuration(DurationText(leg).value).value)
      && e.Keys <= {"duration", "type"}
      && ("type" in e ==> mode == "transit" && VehicleType(leg) == Ok(e["type"]))
    ensures mode == "transit" ==>
      var leg := Leg(j).value;
      && Field(leg, "steps").Ok? && Elements(Field(leg, "steps").value, AttributeError).Ok?
      && var steps := Elements(Field(leg, "steps").value, AttributeError).value;
         ("type" in ParseCommute(j, mode).value <==> exists i :: 0 <= i < |steps| && TransitStep(steps[i]))
  {
    var leg := Leg(j).value;
    if mode == "transit" {
      var steps := Elements(Field(leg, "steps").value, AttributeError).value;
      StepsTypeMeaning(leg, steps);
    }
  }

  /** The commute table for the first `n` modes. In debug mode a query is
      still sent for each mode, but its answer is not read. */
  function CommuteFold(apiKey: string, lat: string, lon: string, api: Request -> Json, debug: bool, n: nat): Result<map<string, Json>, Error>
    requires n <= |Modes|
  {
    if n == 0 then Ok(map[])
    else
      var prior :- CommuteFold(apiKey, lat, lon, api, debug, n - 1);
      var mode := Modes[n - 1];
      if debug then Ok(prior)
      else
        var e :- ParseCommute(api(CommuteRequest(apiKey, lat, lon, mode)), mode);
        Ok(prior[mode := JObj(e)])
  }

  /** The directions queries for the first `n` modes, in order. */
  function CommuteRequests(apiKey: string, lat: string, lon: string, n: nat): seq<Request>
    requires n <= |Modes|
  {
    if n == 0 then [] else CommuteRequests(apiKey, lat, lon, n - 1) + [CommuteRequest(apiKey, lat, lon, Modes[n - 1])]
  }

  lemma {:induction false} CommuteRequestsModes(apiKey: string, lat: string, lon: string, n: nat)
    requires n <= |Modes|
    ensures |CommuteRequests(apiKey, lat, lon, n)| == n
    ensures forall i :: 0 <= i < n ==> CommuteRequests(apiKey, lat, lon, n)[i] == CommuteRequest(apiKey, lat, lon, Modes[i])
  {
    if n > 0 {
      CommuteRequestsModes(apiKey, lat, lon, n - 1);
    }
  }

  /** Whether the first `j` modes all answered, read as a step predicate
      for the commute loop. */
  function ModesAnswered(apiKey: string, lat: string, lon: string, api: Request -> Json, debug: bool): nat -> bool
  {
    (j: nat) => j <= |Modes| && CommuteFold(apiKey, lat, lon, api, debug, j).Ok?
  }

  lemma ModesAnsweredSticky(apiKey: string, lat: string, lon: string, api: Request -> Json, debug: bool)
    ensures Sticky(ModesAnswered(apiKey, lat, lon, api, debug))
  {
    forall a: nat, b: nat | a <= b && !ModesAnswered(apiKey, lat, lon, api, debug)(a)
      ensures !ModesAnswered(apiKey, lat, lon, api, debug)(b)
    {
      if b <= |Modes| {
        CommuteFoldErr(apiKey, lat, lon, api, debug, a, b);
      }
    }
  }

  /** The directions queries the commute loop sends: one per mode up to and
      including the first whose answer does not parse. */
  function CommuteLog(apiKey: string, lat: string, lon: string, api: Request -> Json, debug: bool): seq<Request>
  {
    CommuteRequests(apiKey, lat, lon, Reached(ModesAnswered(apiKey, lat, lon, api, debug), |Modes|))
  }

  /** A loop whose every mode answered sent every query ... */
  lemma CommuteLogComplete(apiKey: string, lat: string, lon: string, api: Request -> Json, debug: bool)
    requires CommuteFold(apiKey, lat, lon, api, debug, |Modes|).Ok?
    ensures CommuteLog(apiKey, lat, lon, api, debug) == CommuteRequests(apiKey, lat, lon, |Modes|)
  {
    ModesAnsweredSticky(apiKey, lat, lon, api, debug);
    ReachedMeaning(ModesAnswered(apiKey, lat, lon, api, debug), |Modes|);
  }

  /** ... and one whose mode `i` is the first not to answer stopped after
      that mode's query. */
  lemma CommuteLogStop(apiKey: string, lat: string, lon: string, api: Request -> Json, debug: bool, i: nat)
    requires i < |Modes|
    requires CommuteFold(apiKey, lat, lon, api, debug, i).Ok? && CommuteFold(apiKey, lat, lon, api, debug, i + 1).Err?
    ensures CommuteLog(apiKey, lat, lon, api, debug) == CommuteRequests(apiKey, lat, lon, i + 1)
  {
    ModesAnsweredSticky(apiKey, lat, lon, api, debug);
    ReachedStop(ModesAnswered(apiKey, lat, lon, api, debug), i, |Modes|);
  }

  /** A commute table has one entry per mode queried, each with its
      minutes; only transit may carry a type; in debug mode it is empty. */
  lemma {:induction false} CommuteFoldShape(apiKey: string, lat: string, lon: string, api: Request -> Json, debug: bool, n: nat)
    requires n <= |Modes|
    requires CommuteFold(apiKey, lat, lon, api, debug, n).Ok?
    ensures var m := CommuteFold(apiKey, lat, lon, api, debug, n).value;
      && (debug ==> m == map[])
      && (!debug ==> m.Keys == set i | 0 <= i < n :: Modes[i])
      && (forall k :: k in m ==>
            && m[k].JObj? && "duration" in m[k].fields && m[k].fields["duration"].JInt?
            && ("type" in m[k].fields ==> k == "transit"))
  {
    if n > 0 {
      CommuteFoldShape(apiKey, lat, lon, api, debug, n - 1);
      if !debug {
        var mode := Modes[n - 1];
        var j := api(CommuteRequest(apiKey, lat, lon, mode));
        ParseCommuteMeaning(j, mode);
        ModesPrefix(n);
      }
    }
  }

  /** Outside debug mode, the table's entry for each mode queried is that
      mode's answer read as one commute entry. */
  lemma {:induction false} CommuteFoldAt(apiKey: string, lat: string, lon: string, api: Request -> Json, n: nat, i: nat)
    requires i < n <= |Modes|
    requires CommuteFold(apiKey, lat, lon, api, false, n).Ok?
    ensures var m := CommuteFold(apiKey, lat, lon, api, false, n).value;
      && ParseCommute(api(CommuteRequest(apiKey, lat, lon, Modes[i])), Modes[i]).Ok?
      && Modes[i] in m
      && m[Modes[i]] == JObj(ParseCommute(api(CommuteRequest(apiKey, lat, lon, Modes[i])), Modes[i]).value)
  {
    if i < n - 1 {
      CommuteFoldAt(apiKey, lat, lon, api, n - 1, i);
    }
  }

  /** The transit loop over the steps, as the source runs it. */
  method ScanSteps(leg: Json, steps: seq<Json>) returns (r: Result<Option<Json>, Error>)
    ensures r == StepsType(leg, steps)
  {
    var found: Option<Json> := None;
    var i := 0;
    while i < |steps|
      invariant 0 <= i <= |steps|
      invariant StepsType(leg, steps[..i]) == Ok(found)
    {
      assert steps[..i + 1][..i] == steps[..i];
      var details := GetOr(steps[i], "transit_details", JObj(map[]));
      if details.Err? {
        StepsTypeErr(leg, steps, i + 1);
        return Err(details.error);
      }
      if Truthy(details.value) {
        var t := VehicleType(leg);
        if t.Err? {
          StepsTypeErr(leg, steps, i + 1);
          return Err(t.error);
        }
        found := Some(t.value);
      }
      i := i + 1;
    }
    assert steps[..i] == steps;
    r := Ok(found);
  }

  lemma {:induction false} StepsTypeErr(leg: Json, steps: seq<Json>, k: nat)
    requires k <= |steps|
    requires StepsType(leg, steps[..k]).Err?
    ensures StepsType(leg, steps) == StepsType(leg, steps[..k])
    decreases |steps|
  {
    if k < |steps| {
      var pre := steps[..|steps| - 1];
      assert pre[..k] == steps[..k];
      StepsTypeErr(leg, pre, k);
    } else {
      assert steps[..k] == steps;
    }
  }

  /** One mode's answer read as the source reads it: the duration words,
      then for transit the loop over the steps. */
  method ReadCommute(j: Json, mode: string) returns (r: Result<Record, Error>)
    ensures r == ParseCommute(j, mode)
  {
    var leg := Leg(j);
    if leg.Err? {
      return Err(leg.error);
    }
    var text := DurationText(leg.value);
    if text.Err? {
      return Err(text.error);
    }
    var minutes := ParseDuration(text.value);
    if minutes.Err? {
      return Err(minutes.error);
    }
    var entry: Record := map["duration" := JInt(minutes.value)];
    if mode == "transit" {
      var stepsValue := Field(leg.value, "steps");
      if stepsValue.Err? {
        return Err(stepsValue.error);
      }
      var steps := Elements(stepsValue.value, AttributeError);
      if steps.Err? {
        return Err(steps.error);
      }
      var t := ScanSteps(leg.value, steps.value);
      if t.Err? {
        return Err(t.error);
      }
      if t.value.Some? {
        entry := entry["type" := t.value.value];
      }
    }
    r := Ok(entry);
  }

  // ----- the store search -----

  /** The outcome of the store loop: every entry gathered, or the early
      return (`None`) on a response whose status is not "OK". */
  datatype Gathered = Gathered(entries: seq<Json>) | Rejected

  /** The listing's position as the search URL needs it: both fields
      present and strings. */
  function FindCoordinates(rec: Record): (r: Result<(string, string), Error>)
    ensures r.Ok? <==> "lat" in rec && "lon" in rec && rec["lat"].JStr? && rec["lon"].JStr?
    ensures r.Ok? ==> r.value == (rec["lat"].s, rec["lon"].s)
  {
    if "lat" !in rec then Err(KeyError("lat"))
    else if "lon" !in rec then Err(KeyError("lon"))
    else if !rec["lat"].JStr? || !rec["lon"].JStr? then Err(TypeError)
    else Ok((rec["lat"].s, rec["lon"].s))
  }

  /** One store entry: the candidate's name, its distance from the listing
      and the raw candidate. `distance` stands for `float` of the listing's
      position and the geodesic distance in miles rounded to 3 places,
      measured to the candidate's `geometry.location`. The entry fails
      exactly when that position, the distance or the name does. */
  function StoreEntry(c: Json, lat: string, lon: string, distance: (string, string, Json, Json) -> Result<Json, Error>): (r: Result<Json, Error>)
    ensures r.Ok? <==>
      && Path(c, ["geometry", "location", "lat"]).Ok?
      && Path(c, ["geometry", "location", "lng"]).Ok?
      && distance(lat, lon, Path(c, ["geometry", "location", "lat"]).value, Path(c, ["geometry", "location", "lng"]).value).Ok?
      && Field(c, "name").Ok?
    ensures r.Ok? ==>
      && r.value.JObj? && r.value.fields.Keys == {"name", "distance", "candidate"}
      && r.value.fields["candidate"] == c
      && Field(c, "name") == Ok(r.value.fields["name"])
      && distance(lat, lon, Path(c, ["geometry", "location", "lat"]).value, Path(c, ["geometry", "location", "lng"]).value)
           == Ok(r.value.fields["distance"])
  {
    var storeLat :- Path(c, ["geometry", "location", "lat"]);
    var storeLng :- Path(c, ["geometry", "location", "lng"]);
    var d :- distance(lat, lon, storeLat, storeLng);
    var name :- Field(c, "name");
    Ok(JObj(map["name" := name, "distance" := d, "candidate" := c]))
  }

  /** The entries of a response's candidates, in order. */
  function Entries(cands: seq<Json>, lat: string, lon: string, distance: (string, string, Json, Json) -> Result<Json, Error>): Result<seq<Json>, Error>
  {
    if cands == [] then Ok([])
    else
      var prior :- Entries(cands[..|cands| - 1], lat, lon, distance);
      var e :- StoreEntry(cands[|cands| - 1], lat, lon, distance);
      Ok(prior + [e])
  }

  /** The entries succeed exactly when every candidate's entry does, and
      then the i-th entry belongs to the i-th candidate. */
  lemma {:induction false} EntriesPointwise(cands: seq<Json>, lat: string, lon: string, distance: (string, string, Json, Json) -> Result<Json, Error>)
    ensures Entries(cands, lat, lon, distance).Ok? <==>
      forall i :: 0 <= i < |cands| ==> StoreEntry(cands[i], lat, lon, distance).Ok?
    ensures Entries(cands, lat, lon, distance).Ok? ==>
      var es := Entries(cands, lat, lon, distance).value;
      && |es| == |cands|
      && forall i :: 0 <= i < |cands| ==> Ok(es[i]) == StoreEntry(cands[i], lat, lon, distance)
  {
    if cands != [] {
      var n := |cands| - 1;
      var pre := cands[..n];
      EntriesPointwise(pre, lat, lon, distance);
      assert forall i :: 0 <= i < n ==> pre[i] == cands[i];
    }
  }

  /** The store loop over the first `n` store names. A name is searched
      only when the listing's position is at hand, and in debug mode it is
      not searched at all. */
  function StoreFold(apiKey: string, rec: Record, api: Request -> Json, debug: bool,
                     distance: (string, string, Json, Json) -> Result<Json, Error>, stores: seq<string>): Result<Gathered, Error>
  {
    if stores == [] then Ok(Gathered([]))
    else
      var prior :- StoreFold(apiKey, rec, api, debug, distance, stores[..|stores| - 1]);
      if prior.Rejected? then Ok(Rejected)
      else
        var pos :- FindCoordinates(rec);
        if debug then Ok(prior)
        else
          var found :- StoreSearch(apiKey, api, distance, pos, stores[|stores| - 1]);
          if found.None? then Ok(Rejected) else Ok(Gathered(prior.entries + found.value))
  }

  /** The search of one store name: `None` when the status is not "OK",
      otherwise the entries of its candidates. */
  function StoreSearch(apiKey: string, api: Request -> Json, distance: (string, string, Json, Json) -> Result<Json, Error>,
                       pos: (string, string), store: string): Result<Option<seq<Json>>, Error>
  {
    var resp := api(FindRequest(apiKey, Radius, pos.0, pos.1, store));
    if Field(resp, "status") != Ok(JStr("OK")) then Ok(None)
    else
      var candsValue :- Field(resp, "candidates");
      var cands :- Elements(candsValue, TypeError);
      var es :- Entries(cands, pos.0, pos.1, distance);
      Ok(Some(es))
  }

  /** One more store name for the loop. */
  lemma StoreFoldStep(apiKey: string, rec: Record, api: Request -> Json, debug: bool,
      distance: (string, string, Json, Json) -> Result<Json, Error>, stores: seq<string>, i: nat, list: seq<Json>)
    requires i < |stores|
    requires StoreFold(apiKey, rec, api, debug, distance, stores[..i]) == Ok(Gathered(list))
    ensures StoreFold(apiKey, rec, api, debug, distance, stores[..i + 1]) ==
      match FindCoordinates(rec)
      case Err(e) => Err(e)
      case Ok(pos) =>
        if debug then Ok(Gathered(list))
        else match StoreSearch(apiKey, api, distance, pos, stores[i])
          case Err(e) => Err(e)
          case Ok(found) => if found.None? then Ok(Rejected) else Ok(Gathered(list + found.value))
  {
    assert stores[..i + 1][..i] == stores[..i];
  }

  lemma FindRequestsStep(apiKey: string, lat: string, lon: string, stores: seq<string>, i: nat)
    requires i < |stores|
    ensures FindRequests(apiKey, lat, lon, stores[..i + 1])
      == FindRequests(apiKey, lat, lon, stores[..i]) + [FindRequest(apiKey, Radius, lat, lon, stores[i])]
  {
    assert stores[..i + 1][..i] == stores[..i];
  }

  /** The place searches for the given store names, in order. */
  function FindRequests(apiKey: string, lat: string, lon: string, stores: seq<string>): seq<Request>
  {
    if stores == [] then []
    else FindRequests(apiKey, lat, lon, stores[..|stores| - 1]) + [FindRequest(apiKey, Radius, lat, lon, stores[|stores| - 1])]
  }

  /** A response that is not "OK" ends the search: once the loop has
      returned early, no later store changes that. */
  lemma {:induction false} StoreFoldRejectedSticky(apiKey: string, rec: Record, api: Request -> Json, debug: bool,
      distance: (string, string, Json, Json) -> Result<Json, Error>, stores: seq<string>, k: nat)
    requires k <= |stores|
    requires StoreFold(apiKey, rec, api, debug, distance, stores[..k]) == Ok(Rejected)
    ensures StoreFold(apiKey, rec, api, debug, distance, stores) == Ok(Rejected)
    decreases |stores|
  {
    if k < |stores| {
      var pre := stores[..|stores| - 1];
      assert pre[..k] == stores[..k];
      StoreFoldRejectedSticky(apiKey, rec, api, debug, distance, pre, k);
    } else {
      assert stores[..k] == stores;
    }
  }

  /** An error ends the search with that error. */
  lemma {:induction false} StoreFoldErrSticky(apiKey: string, rec: Record, api: Request -> Json, debug: bool,
      distance: (string, string, Json, Json) -> Result<Json, Error>, stores: seq<string>, k: nat)
    requires k <= |stores|
    requires StoreFold(apiKey, rec, api, debug, distance, stores[..k]).Err?
    ensures StoreFold(apiKey, rec, api, debug, distance, stores) == StoreFold(apiKey, rec, api, debug, distance, stores[..k])
    decreases |stores|
  {
    if k < |stores| {
      var pre := stores[..|stores| - 1];
      assert pre[..k] == stores[..k];
      StoreFoldErrSticky(apiKey, rec, api, debug, distance, pre, k);
    } else {
      assert stores[..k] == stores;
    }
  }

  /** All or nothing: when the search of some store name is answered with a
      status other than "OK", the whole search returns early and nothing
      gathered before is kept. */
  lemma StoreFoldAllOrNothing(apiKey: string, rec: Record, api: Request -> Json,
      distance: (string, string, Json, Json) -> Result<Json, Error>, stores: seq<string>, k: nat)
    requires k < |stores|
    requires StoreFold(apiKey, rec, api, false, distance, stores[..k]).Ok?
    requires FindCoordinates(rec).Ok?
    requires var pos := FindCoordinates(rec).value;
      Field(api(FindRequest(apiKey, Radius, pos.0, pos.1, stores[k])), "status") != Ok(JStr("OK"))
    ensures StoreFold(apiKey, rec, api, false, distance, stores) == Ok(Rejected)
  {
    assert stores[..k + 1][..k] == stores[..k];
    StoreFoldRejectedSticky(apiKey, rec, api, false, distance, stores, k + 1);
  }

  /** The entries gathered for the first k names come first, in order,
      among those gathered for all the names. */
  lemma {:induction false} StoreFoldPrefix(apiKey: string, rec: Record, api: Request -> Json, debug: bool,
      distance: (string, string, Json, Json) -> Result<Json, Error>, stores: seq<string>, k: nat)
    requires k <= |stores|
    requires StoreFold(apiKey, rec, api, debug, distance, stores).Ok?
    requires StoreFold(apiKey, rec, api, debug, distance, stores).value.Gathered?
    ensures StoreFold(apiKey, rec, api, debug, distance, stores[..k]).Ok?
    ensures StoreFold(apiKey, rec, api, debug, distance, stores[..k]).value.Gathered?
    ensures StoreFold(apiKey, rec, api, debug, distance, stores[..k]).value.entries
      <= StoreFold(apiKey, rec, api, debug, distance, stores).value.entries
    decreases |stores|
  {
    if k < |stores| {
      var pre := stores[..|stores| - 1];
      assert pre[..k] == stores[..k];
      StoreFoldPrefix(apiKey, rec, api, debug, distance, pre, k);
    } else {
      assert stores[..k] == stores;
    }
  }

  /** Whether the loop is still gathering after the first `j` store names,
      read as a step predicate for the store loop. */
  function StoresGathered(apiKey: string, rec: Record, api: Request -> Json, debug: bool,
      distance: (string, string, Json, Json) -> Result<Json, Error>, stores: seq<string>): nat -> bool
  {
    (j: nat) => j <= |stores| && StoreFold(apiKey, rec, api, debug, distance, stores[..j]).Ok?
      && StoreFold(apiKey, rec, api, debug, distance, stores[..j]).value.Gathered?
  }

  lemma StoresGatheredSticky(apiKey: string, rec: Record, api: Request -> Json, debug: bool,
      distance: (string, string, Json, Json) -> Result<Json, Error>, stores: seq<string>)
    ensures Sticky(StoresGathered(apiKey, rec, api, debug, distance, stores))
  {
    var ok := StoresGathered(apiKey, rec, api, debug, distance, stores);
    forall a: nat, b: nat | a <= b && !ok(a)
      ensures !ok(b)
    {
      if b <= |stores| {
        var pre := stores[..b];
        assert pre[..a] == stores[..a];
        if StoreFold(apiKey, rec, api, debug, distance, stores[..a]).Err? {
          StoreFoldErrSticky(apiKey, rec, api, debug, distance, pre, a);
        } else {
          StoreFoldRejectedSticky(apiKey, rec, api, debug, distance, pre, a);
        }
      }
    }
  }

  /** The place search sent for one store name: none in debug mode or
      without the listing's position. */
  function NameSearch(apiKey: string, rec: Record, debug: bool, store: string): seq<Request>
  {
    if debug || FindCoordinates(rec).Err? then [] else [FindRequest(apiKey, Radius, rec["lat"].s, rec["lon"].s, store)]
  }

  /** The place searches sent for the first `k` store names, in order. */
  function SearchLog(apiKey: string, rec: Record, debug: bool, stores: seq<string>, k: nat): seq<Request>
    requires k <= |stores|
  {
    if k == 0 then [] else SearchLog(apiKey, rec, debug, stores, k - 1) + NameSearch(apiKey, rec, debug, stores[k - 1])
  }

  /** None in debug mode or without the listing's position, otherwise one
      per name. */
  lemma {:induction false} SearchLogMeaning(apiKey: string, rec: Record, debug: bool, stores: seq<string>, k: nat)
    requires k <= |stores|
    ensures SearchLog(apiKey, rec, debug, stores, k) ==
      if debug || FindCoordinates(rec).Err? then [] else FindRequests(apiKey, rec["lat"].s, rec["lon"].s, stores[..k])
  {
    if k > 0 {
      SearchLogMeaning(apiKey, rec, debug, stores, k - 1);
      if !debug && FindCoordinates(rec).Ok? {
        FindRequestsStep(apiKey, rec["lat"].s, rec["lon"].s, stores, k - 1);
      }
    }
  }

  /** The place searches the store loop sends: those for the names up to
      and including the first that errs or is not "OK". */
  function StoreLog(apiKey: string, rec: Record, api: Request -> Json, debug: bool,
      distance: (string, string, Json, Json) -> Result<Json, Error>, stores: seq<string>): seq<Request>
  {
    SearchLog(apiKey, rec, debug, stores, Reached(StoresGathered(apiKey, rec, api, debug, distance, stores), |stores|))
  }

  /** A loop that gathers every name's entries sends the searches for all
      the names, and it had the listing's position if it had names. */
  lemma StoreLogComplete(apiKey: string, rec: Record, api: Request -> Json, debug: bool,
      distance: (string, string, Json, Json) -> Result<Json, Error>, stores: seq<string>)
    requires StoreFold(apiKey, rec, api, debug, distance, stores).Ok?
    requires StoreFold(apiKey, rec, api, debug, distance, stores).value.Gathered?
    ensures stores != [] ==> FindCoordinates(rec).Ok?
    ensures StoreLog(apiKey, rec, api, debug, distance, stores) == SearchLog(apiKey, rec, debug, stores, |stores|)
  {
    assert stores[..|stores|] == stores;
    StoresGatheredSticky(apiKey, rec, api, debug, distance, stores);
    ReachedMeaning(StoresGathered(apiKey, rec, api, debug, distance, stores), |stores|);
  }

  /** A loop whose name `i` is the first to err or not to be "OK" ends
      with that name's outcome, and it stops after that name's search: no
      later name is searched. */
  lemma StoreLogStop(apiKey: string, rec: Record, api: Request -> Json, debug: bool,
      distance: (string, string, Json, Json) -> Result<Json, Error>, stores: seq<string>, i: nat)
    requires i < |stores|
    requires StoreFold(apiKey, rec, api, debug, distance, stores[..i]).Ok?
    requires StoreFold(apiKey, rec, api, debug, distance, stores[..i]).value.Gathered?
    requires StoreFold(apiKey, rec, api, debug, distance, stores[..i + 1]).Err?
      || StoreFold(apiKey, rec, api, debug, distance, stores[..i + 1]) == Ok(Rejected)
    ensures StoreFold(apiKey, rec, api, debug, distance, stores) == StoreFold(apiKey, rec, api, debug, distance, stores[..i + 1])
    ensures StoreLog(apiKey, rec, api, debug, distance, stores) == SearchLog(apiKey, rec, debug, stores, i + 1)
  {
    if StoreFold(apiKey, rec, api, debug, distance, stores[..i + 1]).Err? {
      StoreFoldErrSticky(apiKey, rec, api, debug, distance, stores, i + 1);
    } else {
      StoreFoldRejectedSticky(apiKey, rec, api, debug, distance, stores, i + 1);
    }
    StoresGatheredSticky(apiKey, rec, api, debug, distance, stores);
    ReachedStop(StoresGathered(apiKey, rec, api, debug, distance, stores), i, |stores|);
  }

  /** Where the store loop leaves off: after every name, or just after
      the first name that errs or is not "OK". Either way its outcome is
      the whole search's, and its searches are the whole search's. */
  lemma StoreLoopExit(apiKey: string, rec: Record, api: Request -> Json, debug: bool,
      distance: (string, string, Json, Json) -> Result<Json, Error>, stores: seq<string>, i: nat)
    requires i <= |stores|
    requires i > 0 ==>
      StoreFold(apiKey, rec, api, debug, distance, stores[..i - 1]).Ok? &&
      StoreFold(apiKey, rec, api, debug, distance, stores[..i - 1]).value.Gathered?
    requires i < |stores| ==>
      !(StoreFold(apiKey, rec, api, debug, distance, stores[..i]).Ok? &&
        StoreFold(apiKey, rec, api, debug, distance, stores[..i]).value.Gathered?)
    ensures StoreFold(apiKey, rec, api, debug, distance, stores) == StoreFold(apiKey, rec, api, debug, distance, stores[..i])
    ensures StoreLog(apiKey, rec, api, debug, distance, stores) == SearchLog(apiKey, rec, debug, stores, i)
  {
    if i == |stores| && StoreFold(apiKey, rec, api, debug, distance, stores[..i]).Ok?
       && StoreFold(apiKey, rec, api, debug, distance, stores[..i]).value.Gathered? {
      assert stores[..i] == stores;
      StoreLogComplete(apiKey, rec, api, debug, distance, stores);
    } else {
      StoreLogStop(apiKey, rec, api, debug, distance, stores, i - 1);
    }
  }

  /** In debug mode nothing is searched and nothing gathered: the loop
      yields an empty list when it has the listing's position (or no
      store names), and the position's error otherwise. */
  lemma {:induction false} StoreFoldDebug(apiKey: string, rec: Record, api: Request -> Json,
      distance: (string, string, Json, Json) -> Result<Json, Error>, stores: seq<string>)
    ensures FindCoordinates(rec).Ok? || stores == [] ==>
      StoreFold(apiKey, rec, api, true, distance, stores) == Ok(Gathered([]))
    ensures FindCoordinates(rec).Err? && stores != [] ==>
      StoreFold(apiKey, rec, api, true, distance, stores) == Err(FindCoordinates(rec).error)
    decreases |stores|
  {
    if stores != [] {
      StoreFoldDebug(apiKey, rec, api, distance, stores[..|stores| - 1]);
    }
  }

  /** A place-search answer that is "OK" but finds nothing. */
  const NoCandidates: Json := JObj(map["status" := JStr("OK"), "candidates" := JList([])])

  /** When every search is answered "OK" without candidates, the store loop
      gathers the empty list. */
  lemma {:induction false} StoreFoldNoCandidates(apiKey: string, rec: Record, api: Request -> Json,
      distance: (string, string, Json, Json) -> Result<Json, Error>, stores: seq<string>)
    requires FindCoordinates(rec).Ok?
    requires forall i :: 0 <= i < |stores| ==>
      api(FindRequest(apiKey, Radius, rec["lat"].s, rec["lon"].s, stores[i])) == NoCandidates
    ensures StoreFold(apiKey, rec, api, false, distance, stores) == Ok(Gathered([]))
  {
    if stores != [] {
      var pre := stores[..|stores| - 1];
      assert forall i :: 0 <= i < |pre| ==> pre[i] == stores[i];
      StoreFoldNoCandidates(apiKey, rec, api, distance, pre);
      assert StoreSearch(apiKey, api, distance, FindCoordinates(rec).value, stores[|stores| - 1]) == Ok(Some([]));
      var empty: seq<Json> := [];
      assert empty + empty == empty;
    }
  }

  /** A cache short-circuit: the key is present, its value is not `[]` (an
      empty dictionary still counts), and no refresh is forced. */
  predicate Cached(rec: Record, key: string, force: bool)
  {
    key in rec && rec[key] != JList([]) && !force
  }

  /** The short-circuit tests for `[]` only: an empty table `{}` counts as
      cached, an empty list does not, and a forced refresh is never
      answered from the cache. */
  lemma CachedQuirk(rec: Record, key: string, force: bool)
    ensures key in rec && rec[key] == JObj(map[]) && !force ==> Cached(rec, key, force)
    ensures key in rec && rec[key] == JList([]) ==> !Cached(rec, key, force)
    ensures key !in rec || force ==> !Cached(rec, key, force)
  {
  }

  // ----- the lookup object -----

  class MapsLookup {
    var debug: bool
    var apiKey: string
    var aptName: string
    var aptInfo: CacheFile
    const disk: Disk
    const net: Network

    /** `mapsKey` is the configured API key, `None` when it is missing, which
        turns debug mode on. Without a scraper the listing's record is loaded
        from the cache; with one, the scraper's table is taken as it is. */
    constructor (disk: Disk, net: Network, mapsKey: Option<string>, aptName: string,
                 scraperInfo: Option<CacheFile> := None, debug: bool := false)
      requires scraperInfo.None? ==> HasEntry(disk.files, AptsFile, aptName)
      ensures this.debug == (debug || mapsKey.None?) && apiKey == mapsKey.GetOr("")
      ensures this.aptName == aptName && this.disk == disk && this.net == net
      ensures aptInfo == if scraperInfo.None? then map[aptName := disk.files[AptsFile][aptName]] else scraperInfo.value
    {
      this.debug := debug || mapsKey.None?;
      this.apiKey := mapsKey.GetOr("");
      this.aptName := aptName;
      this.aptInfo := map[];
      this.disk := disk;
      this.net := net;
      new;
      if scraperInfo.None? {
        var rec := LoadFromCache(AptsFile);
        aptInfo := map[aptName := rec];
      } else {
        aptInfo := scraperInfo.value;
      }
    }

    /** True iff the file exists and has an entry for the listing. */
    method ExistsInCache(path: string) returns (b: bool)
      ensures b == HasEntry(disk.files, path, aptName)
    {
      var isFile := disk.IsFile(path);
      if !isFile {
        return false;
      }
      var all := disk.Load(path);
      b := aptName in all;
    }

    /** The cached entry of the listing. */
    method LoadFromCache(path: string) returns (rec: Record)
      requires HasEntry(disk.files, path, aptName)
      ensures rec == disk.files[path][aptName]
    {
      var all := disk.Load(path);
      rec := all[aptName];
    }

    /** Replaces the listing's entry when the file exists, keeping every
        other entry; otherwise writes `data` as the file. */
    method WriteToCache(data: CacheFile, path: string)
      requires path in disk.files ==> aptName in data
      modifies disk
      ensures disk.files == PutEntry(old(disk.files), path, aptName, data)
    {
      var toWrite := data;
      var isFile := disk.IsFile(path);
      if isFile {
        var all := disk.Load(path);
        all := all[aptName := data[aptName]];
        toWrite := all;
      }
      disk.Dump(path, toWrite);
    }

    /** One mode of the commute loop: its directions query sent and, unless
        in debug mode, its answer added to the table. */
    method QueryMode(lat: string, lon: string, i: nat, commute: map<string, Json>, ghost log: seq<Request>)
      returns (r: Result<map<string, Json>, Error>)
      requires i < |Modes|
      requires CommuteFold(apiKey, lat, lon, net.api, debug, i) == Ok(commute)
      requires net.sent == log + CommuteRequests(apiKey, lat, lon, i)
      modifies net
      ensures net.sent == old(net.sent) + [CommuteRequest(apiKey, lat, lon, Modes[i])]
      ensures net.sent == log + CommuteRequests(apiKey, lat, lon, i + 1)
      ensures r == CommuteFold(apiKey, lat, lon, net.api, debug, i + 1)
    {
      var mode := Modes[i];
      LogExtends(log, CommuteRequests(apiKey, lat, lon, i), [CommuteRequest(apiKey, lat, lon, mode)]);
      var j := net.Query(CommuteRequest(apiKey, lat, lon, mode));
      if debug {
        return Ok(commute);
      }
      var e := ReadCommute(j, mode);
      if e.Err? {
        return Err(e.error);
      }
      r := Ok(commute[mode := JObj(e.value)]);
    }

    /** The loop over the modes: one query per mode, answers read unless in
        debug mode. */
    method QueryModes(lat: string, lon: string) returns (r: Result<map<string, Json>, Error>)
      modifies net
      ensures r == CommuteFold(apiKey, lat, lon, net.api, debug, |Modes|)
      ensures net.sent == old(net.sent) + CommuteLog(apiKey, lat, lon, net.api, debug)
      ensures r.Ok? ==> net.sent == old(net.sent) + CommuteRequests(apiKey, lat, lon, |Modes|)
    {
      var commute: map<string, Json> := map[];
      var i := 0;
      LogExtends(old(net.sent), [], []);
      while i < |Modes|
        invariant 0 <= i <= |Modes|
        invariant net.sent == old(net.sent) + CommuteRequests(apiKey, lat, lon, i)
        invariant CommuteFold(apiKey, lat, lon, net.api, debug, i) == Ok(commute)
      {
        var next := QueryMode(lat, lon, i, commute, old(net.sent));
        if next.Err? {
          CommuteFoldErr(apiKey, lat, lon, net.api, debug, i + 1, |Modes|);
          CommuteLogStop(apiKey, lat, lon, net.api, debug, i);
          return next;
        }
        commute := next.value;
        i := i + 1;
      }
      LogExtends(old(net.sent), CommuteRequests(apiKey, lat, lon, i), []);
      CommuteLogComplete(apiKey, lat, lon, net.api, debug);
      r := Ok(commute);
    }

    /** The commute table of the listing: the cached one when `Cached`
        holds (nothing is sent or written); otherwise one query per mode,
        the table set on the record in memory and, outside debug mode,
        written with the per-name write, which requires the listing to be
        in the cache file already. */
    method GetCommuteTimes(force: bool := false) returns (r: Result<Json, Error>)
      modifies this`aptInfo, disk, net
      ensures aptName !in old(aptInfo) ==>
        r == Err(KeyError(aptName)) && aptInfo == old(aptInfo) && disk.files == old(disk.files) && net.sent == old(net.sent)
      ensures aptName in old(aptInfo) ==>
        var rec := old(aptInfo)[aptName];
        && ("lat" !in rec ==> r == Err(KeyError("lat")))
        && ("lat" in rec && "lon" !in rec ==> r == Err(KeyError("lon")))
        && ("lat" !in rec || "lon" !in rec || Cached(rec, "commute", force) ==>
              aptInfo == old(aptInfo) && disk.files == old(disk.files) && net.sent == old(net.sent))
        && ("lat" in rec && "lon" in rec && Cached(rec, "commute", force) ==> r == Ok(rec["commute"]))
        && ("lat" in rec && "lon" in rec && !Cached(rec, "commute", force) ==>
              && (PyStr(rec["lat"]).None? || PyStr(rec["lon"]).None? ==>
                    r == Err(TypeError) && aptInfo == old(aptInfo) && disk.files == old(disk.files) && net.sent == old(net.sent))
              && (PyStr(rec["lat"]).Some? && PyStr(rec["lon"]).Some? ==>
                    var lat := PyStr(rec["lat"]).value;
                    var lon := PyStr(rec["lon"]).value;
                    var f := CommuteFold(apiKey, lat, lon, net.api, debug, |Modes|);
                    && net.sent == old(net.sent) + CommuteLog(apiKey, lat, lon, net.api, debug)
                    && (f.Err? ==> r == Err(f.error) && aptInfo == old(aptInfo) && disk.files == old(disk.files))
                    && (f.Ok? ==>
                          && net.sent == old(net.sent) + CommuteRequests(apiKey, lat, lon, |Modes|)
                          && aptInfo == old(aptInfo)[aptName := rec["commute" := JObj(f.value)]]
                          && (debug ==> disk.files == old(disk.files) && r == Ok(JObj(f.value)))
                          && (!debug && !HasEntry(old(disk.files), AptsFile, aptName) ==>
                                disk.files == old(disk.files) && r == Err(AssertionError))
                          && (!debug && HasEntry(old(disk.files), AptsFile, aptName) ==>
                                disk.files == PutEntry(old(disk.files), AptsFile, aptName, aptInfo)
                                && r == Ok(JObj(f.value))))))
    {
      if aptName !in aptInfo {
        return Err(KeyError(aptName));
      }
      var rec := aptInfo[aptName];
      if "lat" !in rec {
        return Err(KeyError("lat"));
      }
      if "lon" !in rec {
        return Err(KeyError("lon"));
      }
      if "commute" in rec && rec["commute"] != JList([]) && !force {
        return Ok(rec["commute"]);
      }
      var lat := PyStr(rec["lat"]);
      var lon := PyStr(rec["lon"]);
      if lat.None? || lon.None? {
        return Err(TypeError);
      }
      var commute := QueryModes(lat.value, lon.value);
      if commute.Err? {
        return Err(commute.error);
      }
      aptInfo := aptInfo[aptName := rec["commute" := JObj(commute.value)]];
      if !debug {
        var cached := ExistsInCache(AptsFile);
        if !cached {
          return Err(AssertionError);
        }
        WriteToCache(aptInfo, AptsFile);
      }
      r := Ok(JObj(commute.value));
    }

    /** The entries of one response's candidates, in order. */
    method CollectEntries(cands: seq<Json>, lat: string, lon: string, distance: (string, string, Json, Json) -> Result<Json, Error>)
      returns (r: Result<seq<Json>, Error>)
      ensures r == Entries(cands, lat, lon, distance)
    {
      var list: seq<Json> := [];
      var i := 0;
      while i < |cands|
        invariant 0 <= i <= |cands|
        invariant Entries(cands[..i], lat, lon, distance) == Ok(list)
      {
        var e := StoreEntry(cands[i], lat, lon, distance);
        assert cands[..i + 1][..i] == cands[..i];
        if e.Err? {
          EntriesErr(cands, lat, lon, distance, i + 1);
          return Err(e.error);
        }
        list := list + [e.value];
        i := i + 1;
      }
      assert cands[..i] == cands;
      r := Ok(list);
    }

    /** The search of one store name: one query, then, for an "OK"
        response, its candidates. */
    method SearchOne(pos: (string, string), store: string, distance: (string, string, Json, Json) -> Result<Json, Error>)
      returns (r: Result<Option<seq<Json>>, Error>)
      modifies net
      ensures r == StoreSearch(apiKey, net.api, distance, pos, store)
      ensures net.sent == old(net.sent) + [FindRequest(apiKey, Radius, pos.0, pos.1, store)]
    {
      var resp := net.Query(FindRequest(apiKey, Radius, pos.0, pos.1, store));
      if Field(resp, "status") != Ok(JStr("OK")) {
        return Ok(None);
      }
      var candsValue := Field(resp, "candidates");
      if candsValue.Err? {
        return Err(candsValue.error);
      }
      var cands := Elements(candsValue.value, TypeError);
      if cands.Err? {
        return Err(cands.error);
      }
      var es := CollectEntries(cands.value, pos.0, pos.1, distance);
      if es.Err? {
        return Err(es.error);
      }
      r := Ok(Some(es.value));
    }

    /** One store name of the loop: its place search sent unless in debug
        mode, and its entries added to the list. */
    method SearchStep(rec: Record, stores: seq<string>, i: nat, list: seq<Json>,
                      distance: (string, string, Json, Json) -> Result<Json, Error>, ghost log: seq<Request>)
      returns (r: Result<Gathered, Error>)
      requires i < |stores|
      requires StoreFold(apiKey, rec, net.api, debug, distance, stores[..i]) == Ok(Gathered(list))
      requires net.sent == log + SearchLog(apiKey, rec, debug, stores, i)
      modifies net
      ensures r == StoreFold(apiKey, rec, net.api, debug, distance, stores[..i + 1])
      ensures net.sent == old(net.sent) + NameSearch(apiKey, rec, debug, stores[i])
      ensures net.sent == log + SearchLog(apiKey, rec, debug, stores, i + 1)
    {
      StoreFoldStep(apiKey, rec, net.api, debug, distance, stores, i, list);
      LogExtends(log, SearchLog(apiKey, rec, debug, stores, i), NameSearch(apiKey, rec, debug, stores[i]));
      var pos := FindCoordinates(rec);
      if pos.Err? {
        return Err(pos.error);
      }
      if debug {
        return Ok(Gathered(list));
      }
      var found := SearchOne(pos.value, stores[i], distance);
      if found.Err? {
        return Err(found.error);
      }
      if found.value.None? {
        return Ok(Rejected);
      }
      r := Ok(Gathered(list + found.value.value));
    }

    /** The loop over the store names, up to the first that errs or is not
        "OK": its outcome and searches over the names it reached. */
    method GatherStores(rec: Record, stores: seq<string>, distance: (string, string, Json, Json) -> Result<Json, Error>)
      returns (r: Result<Gathered, Error>, i: nat)
      modifies net
      ensures i <= |stores|
      ensures r == StoreFold(apiKey, rec, net.api, debug, distance, stores[..i])
      ensures i > 0 ==>
        StoreFold(apiKey, rec, net.api, debug, distance, stores[..i - 1]).Ok? &&
        StoreFold(apiKey, rec, net.api, debug, distance, stores[..i - 1]).value.Gathered?
      ensures i < |stores| ==> !(r.Ok? && r.value.Gathered?)
      ensures net.sent == old(net.sent) + SearchLog(apiKey, rec, debug, stores, i)
    {
      r := Ok(Gathered([]));
      i := 0;
      LogExtends(old(net.sent), [], []);
      while i < |stores| && r.Ok? && r.value.Gathered?
        invariant 0 <= i <= |stores|
        invariant r == StoreFold(apiKey, rec, net.api, debug, distance, stores[..i])
        invariant i > 0 ==>
          StoreFold(apiKey, rec, net.api, debug, distance, stores[..i - 1]).Ok? &&
          StoreFold(apiKey, rec, net.api, debug, distance, stores[..i - 1]).value.Gathered?
        invariant net.sent == old(net.sent) + SearchLog(apiKey, rec, debug, stores, i)
      {
        r := SearchStep(rec, stores, i, r.value.entries, distance, old(net.sent));
        i := i + 1;
      }
    }

    /** The store search: the loop's outcome is the outcome over all the
        names, and it sends exactly the searches `StoreLog` lists. */
    method SearchStores(rec: Record, stores: seq<string>, distance: (string, string, Json, Json) -> Result<Json, Error>)
      returns (r: Result<Gathered, Error>)
      modifies net
      ensures r == StoreFold(apiKey, rec, net.api, debug, distance, stores)
      ensures net.sent == old(net.sent) + StoreLog(apiKey, rec, net.api, debug, distance, stores)
      ensures debug ==> net.sent == old(net.sent)
      ensures r.Ok? && r.value.Gathered? && !debug && stores != [] ==>
        FindCoordinates(rec).Ok? &&
        net.sent == old(net.sent) + FindRequests(apiKey, rec["lat"].s, rec["lon"].s, stores)
    {
      var i;
      r, i := GatherStores(rec, stores, distance);
      StoreLoopExit(apiKey, rec, net.api, debug, distance, stores, i);
      SearchLogMeaning(apiKey, rec, debug, stores, i);
      if r.Ok? && r.value.Gathered? {
        assert stores[..i] == stores;
        StoreLogComplete(apiKey, rec, net.api, debug, distance, stores);
      }
    }

    /** The grocery stores near the listing: the whole table when `Cached`
        holds; otherwise the entries for every store name in order, set on
        the record in memory and, outside debug mode, written with the
        per-name write, which requires the listing to be in the cache file
        already. A response that is not "OK" makes it return `None` at once,
        with nothing set and nothing written. */
    method FindGroceryStores(distance: (string, string, Json, Json) -> Result<Json, Error>,
                             stores: seq<string> := ["Whole Foods", "Trader Joe's"], force: bool := false)
      returns (r: Result<Option<CacheFile>, Error>)
      modifies this`aptInfo, disk, net
      ensures aptName !in old(aptInfo) ==>
        r == Err(KeyError(aptName)) && aptInfo == old(aptInfo) && disk.files == old(disk.files) && net.sent == old(net.sent)
      ensures aptName in old(aptInfo) ==>
        var rec := old(aptInfo)[aptName];
        var g := StoreFold(apiKey, rec, net.api, debug, distance, stores);
        && (Cached(rec, "stores", force) ==>
              r == Ok(Some(old(aptInfo))) && aptInfo == old(aptInfo) && disk.files == old(disk.files) && net.sent == old(net.sent))
        && (!Cached(rec, "stores", force) ==>
              && net.sent == old(net.sent) + StoreLog(apiKey, rec, net.api, debug, distance, stores)
              && (debug ==> net.sent == old(net.sent))
              && (g.Err? ==> r == Err(g.error) && aptInfo == old(aptInfo) && disk.files == old(disk.files))
              && (g == Ok(Rejected) ==> r == Ok(None) && aptInfo == old(aptInfo) && disk.files == old(disk.files))
              && (g.Ok? && g.value.Gathered? ==>
                    && aptInfo == old(aptInfo)[aptName := rec["stores" := JList(g.value.entries)]]
                    && (!debug && stores != [] ==>
                          net.sent == old(net.sent) + FindRequests(apiKey, rec["lat"].s, rec["lon"].s, stores))
                    && (debug ==> disk.files == old(disk.files) && r == Ok(Some(aptInfo)))
                    && (!debug && !HasEntry(old(disk.files), AptsFile, aptName) ==>
                          disk.files == old(disk.files) && r == Err(AssertionError))
                    && (!debug && HasEntry(old(disk.files), AptsFile, aptName) ==>
                          disk.files == PutEntry(old(disk.files), AptsFile, aptName, aptInfo) && r == Ok(Some(aptInfo)))))
    {
      if aptName !in aptInfo {
        return Err(KeyError(aptName));
      }
      var rec := aptInfo[aptName];
      if "stores" in rec && rec["stores"] != JList([]) && !force {
        return Ok(Some(aptInfo));
      }
      var g := SearchStores(rec, stores, distance);
      if g.Err? {
        return Err(g.error);
      }
      if g.value.Rejected? {
        return Ok(None);
      }
      aptInfo := aptInfo[aptName := rec["stores" := JList(g.value.entries)]];
      if !debug {
        var cached := ExistsInCache(AptsFile);
        if !cached {
          return Err(AssertionError);
        }
        WriteToCache(aptInfo, AptsFile);
      }
      r := Ok(Some(aptInfo));
    }

    /** Asking twice for the commute table: once the first call has a table,
        the second answers from memory with that table, sending and writing
        nothing. */
    method CommuteTwice() returns (r1: Result<Json, Error>, r2: Result<Json, Error>,
                                   ghost sent1: seq<Request>, ghost files1: Files)
      modifies this`aptInfo, disk, net
      ensures r1.Ok? ==> r2 == r1 && net.sent == sent1 && disk.files == files1
    {
      r1 := GetCommuteTimes();
      sent1, files1 := net.sent, disk.files;
      r2 := GetCommuteTimes();
    }

    /** One call for the default stores when both searches are answered
        "OK" without candidates: both searches are sent and `[]` is set on
        the record. */
    method EmptyStoresSearch(distance: (string, string, Json, Json) -> Result<Json, Error>)
      returns (r: Result<Option<CacheFile>, Error>)
      requires !debug && aptName in aptInfo && !Cached(aptInfo[aptName], "stores", false)
      requires FindCoordinates(aptInfo[aptName]).Ok?
      requires net.api(FindRequest(apiKey, Radius, aptInfo[aptName]["lat"].s, aptInfo[aptName]["lon"].s, "Whole Foods"))
               == NoCandidates
      requires net.api(FindRequest(apiKey, Radius, aptInfo[aptName]["lat"].s, aptInfo[aptName]["lon"].s, "Trader Joe's"))
               == NoCandidates
      modifies this`aptInfo, disk, net
      ensures var rec := old(aptInfo)[aptName];
        && net.sent == old(net.sent) + FindRequests(apiKey, rec["lat"].s, rec["lon"].s, ["Whole Foods", "Trader Joe's"])
        && aptInfo == old(aptInfo)[aptName := rec["stores" := JList([])]]
    {
      var rec := aptInfo[aptName];
      var names := ["Whole Foods", "Trader Joe's"];
      StoreFoldNoCandidates(apiKey, rec, net.api, distance, names);
      r := FindGroceryStores(distance);
    }

    /** Asking twice for the default stores when every search is answered
        "OK" without candidates: the first call stores `[]`, which the
        short-circuit does not take as cached, so the second call sends
        both searches again. */
    method StoresTwiceEmpty(distance: (string, string, Json, Json) -> Result<Json, Error>)
      returns (r1: Result<Option<CacheFile>, Error>, r2: Result<Option<CacheFile>, Error>, ghost sent1: seq<Request>)
      requires !debug && aptName in aptInfo && !Cached(aptInfo[aptName], "stores", false)
      requires FindCoordinates(aptInfo[aptName]).Ok?
      requires net.api(FindRequest(apiKey, Radius, aptInfo[aptName]["lat"].s, aptInfo[aptName]["lon"].s, "Whole Foods"))
               == NoCandidates
      requires net.api(FindRequest(apiKey, Radius, aptInfo[aptName]["lat"].s, aptInfo[aptName]["lon"].s, "Trader Joe's"))
               == NoCandidates
      modifies this`aptInfo, disk, net
      ensures var rec := old(aptInfo)[aptName];
        var searches := FindRequests(apiKey, rec["lat"].s, rec["lon"].s, ["Whole Foods", "Trader Joe's"]);
        && sent1 == old(net.sent) + searches
        && net.sent == sent1 + searches
        && aptInfo == old(aptInfo)[aptName := rec["stores" := JList([])]]
    {
      ghost var rec := aptInfo[aptName];
      r1 := EmptyStoresSearch(distance);
      sent1 := net.sent;
      r2 := EmptyStoresSearch(distance);
      assert rec["stores" := JList([])]["stores" := JList([])] == rec["stores" := JList([])];
    }
  }

  /** An error in the commute loop is the loop's result. */
  lemma {:induction false} CommuteFoldErr(apiKey: string, lat: string, lon: string, api: Request -> Json, debug: bool, k: nat, n: nat)
    requires k <= n <= |Modes|
    requires CommuteFold(apiKey, lat, lon, api, debug, k).Err?
    ensures CommuteFold(apiKey, lat, lon, api, debug, n) == CommuteFold(apiKey, lat, lon, api, debug, k)
    decreases n
  {
    if n > k {
      CommuteFoldErr(apiKey, lat, lon, api, debug, k, n - 1);
    }
  }

  /** An error for one candidate is the result for the whole response. */
  lemma {:induction false} EntriesErr(cands: seq<Json>, lat: string, lon: string, distance: (string, string, Json, Json) -> Result<Json, Error>, k: nat)
    requires k <= |cands|
    requires Entries(cands[..k], lat, lon, distance).Err?
    ensures Entries(cands, lat, lon, distance) == Entries(cands[..k], lat, lon, distance)
    decreases |cands|
  {
    if k < |cands| {
      var pre := cands[..|cands| - 1];
      assert pre[..k] == cands[..k];
      EntriesErr(pre, lat, lon, distance, k);
    } else {
      assert cands[..k] == cands;
    }
  }
}
