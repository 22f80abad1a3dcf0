/**
 * The mock weather tool `get_current_weather(location, unit="celsius")` and
 * the keyword binding that `get_current_weather(**args)` performs on the
 * decoded arguments.
 */
module Weather {

  import opened Wrappers
  import Json

  /** Python's `str.lower` on one character, for the ASCII letters. */
  function LowerChar(c: char): char {
    if 'A' <= c <= 'Z' then (c as int + 32) as char else c
  }

  function Lower(s: string): (r: string)
    ensures |r| == |s|
    ensures forall i :: 0 <= i < |s| ==> r[i] == LowerChar(s[i])
  {
    if s == [] then [] else [LowerChar(s[0])] + Lower(s[1..])
  }

  ghost predicate OccursAt(hay: string, needle: string, i: int) {
    0 <= i && i + |needle| <= |hay| && hay[i..i + |needle|] == needle
  }

  /** Python's substring test `needle in hay`. */
  function Contains(hay: string, needle: string): (b: bool)
    ensures b <==> exists i :: OccursAt(hay, needle, i)
  {
    if |hay| < |needle| then false
    else if hay[..|needle|] == needle then assert OccursAt(hay, needle, 0); true
    else
      var b := Contains(hay[1..], needle);
      assert forall i :: OccursAt(hay[1..], needle, i) <==> OccursAt(hay, needle, i + 1) by {
        forall i ensures OccursAt(hay[1..], needle, i) <==> OccursAt(hay, needle, i + 1) {
          if 0 <= i && i + |needle| <= |hay[1..]| {
            assert hay[1..][i..i + |needle|] == hay[i + 1..i + 1 + |needle|];
          }
        }
      }
      assert b ==> exists i :: OccursAt(hay, needle, i) by {
        if b {
          var i :| OccursAt(hay[1..], needle, i);
          assert OccursAt(hay, needle, i + 1);
        }
      }
      assert (exists i :: OccursAt(hay, needle, i)) ==> b by {
        if exists i :: OccursAt(hay, needle, i) {
          var i :| OccursAt(hay, needle, i);
          assert i != 0;
          assert OccursAt(hay[1..], needle, i - 1);
        }
      }
      b
  }

  /** The dictionary the tool returns; `unit` and `forecast` are absent for an unknown city. */
  datatype Report = Report(location: string, temperature: string, unit: Option<Json.Value>, forecast: Option<string>)

  /** A city the tool knows: the lower-case text it looks for and the fixed record it returns. */
  datatype City = City(key: string, name: string, temperature: string, forecast: string)

  /** The known cities, in the order the tool tests them. */
  const Cities: seq<City> := [
    City("tokyo", "Tokyo", "10", "Rainy"),
    City("san francisco", "San Francisco", "72", "Sunny"),
    City("paris", "Paris", "22", "Cloudy")
  ]

  const DefaultUnit: Json.Value := Json.Str("celsius")

  const UnknownTemperature := "unknown"

  /** The mock lookup: a case-insensitive substring dispatch over the three cities, in order. */
  function GetCurrentWeather(location: string, unit: Json.Value): (r: Report)
    ensures r.unit.Some? <==> r.forecast.Some?
    ensures r.unit.Some? ==> r.unit.value == unit && r.temperature != UnknownTemperature
    ensures r.unit.None? ==> r.location == location && r.temperature == UnknownTemperature
  {
    var l := Lower(location);
    if Contains(l, "tokyo") then Report("Tokyo", "10", Some(unit), Some("Rainy"))
    else if Contains(l, "san francisco") then Report("San Francisco", "72", Some(unit), Some("Sunny"))
    else if Contains(l, "paris") then Report("Paris", "22", Some(unit), Some("Cloudy"))
    else Report(location, UnknownTemperature, None, None)
  }

  /** Reference reading of the dispatch: the first city of the table whose key occurs in the text. */
  function FirstMatch(cities: seq<City>, lowered: string): (r: Option<City>)
    ensures r.Some? ==> r.value in cities && Contains(lowered, r.value.key)
    ensures r.None? <==> forall c :: c in cities ==> !Contains(lowered, c.key)
    ensures r.Some? ==> exists k :: 0 <= k < |cities| && cities[k] == r.value && forall j :: 0 <= j < k ==> !Contains(lowered, cities[j].key)
  {
    if cities == [] then None
    else if Contains(lowered, cities[0].key) then Some(cities[0])
    else
      var r := FirstMatch(cities[1..], lowered);
      assert r.Some? ==> exists k :: 0 <= k < |cities| && cities[k] == r.value && forall j :: 0 <= j < k ==> !Contains(lowered, cities[j].key) by {
        if r.Some? {
          var k :| 0 <= k < |cities[1..]| && cities[1..][k] == r.value &&
            forall j :: 0 <= j < k ==> !Contains(lowered, cities[1..][j].key);
          forall j | 0 <= j < k + 1 ensures !Contains(lowered, cities[j].key) {
            if j > 0 { assert cities[j] == cities[1..][j - 1]; }
          }
          assert cities[k + 1] == r.value;
        }
      }
      r
  }

  function ReportFor(m: Option<City>, location: string, unit: Json.Value): Report {
    match m
    case Some(c) => Report(c.name, c.temperature, Some(unit), Some(c.forecast))
    case None => Report(location, UnknownTemperature, None, None)
  }

  /** The tool returns the record of the first city of the table whose name occurs, ignoring case,
      and otherwise echoes the location with an unknown temperature and no unit. */
  lemma GetCurrentWeatherMatchesTable(location: string, unit: Json.Value)
    ensures GetCurrentWeather(location, unit) == ReportFor(FirstMatch(Cities, Lower(location)), location, unit)
  {
    var l := Lower(location);
    assert Cities[1..][1..][1..] == [];
    if !Contains(l, "tokyo") {
      assert FirstMatch(Cities, l) == FirstMatch(Cities[1..], l);
      if !Contains(l, "san francisco") {
        assert FirstMatch(Cities[1..], l) == FirstMatch(Cities[1..][1..], l);
      }
    }
  }

  /** Upper- and lower-case spellings of a location select the same city and record. */
  lemma CaseInsensitive(a: string, b: string, unit: Json.Value)
    requires Lower(a) == Lower(b)
    ensures FirstMatch(Cities, Lower(a)).Some? ==> GetCurrentWeather(a, unit) == GetCurrentWeather(b, unit)
    ensures FirstMatch(Cities, Lower(a)).None? ==> GetCurrentWeather(a, unit).location == a && GetCurrentWeather(b, unit).location == b
    ensures GetCurrentWeather(a, unit).temperature == GetCurrentWeather(b, unit).temperature
  {
    GetCurrentWeatherMatchesTable(a, unit);
    GetCurrentWeatherMatchesTable(b, unit);
  }

  /** A known city carries the given unit; an unknown one carries no unit and no forecast. */
  lemma UnitOnlyForKnownCities(location: string, unit: Json.Value)
    ensures GetCurrentWeather(location, unit).unit == Some(unit) <==> FirstMatch(Cities, Lower(location)).Some?
    ensures GetCurrentWeather(location, unit).temperature == UnknownTemperature <==> FirstMatch(Cities, Lower(location)).None?
  {
    GetCurrentWeatherMatchesTable(location, unit);
  }

  /** A request about Tokyo gets the rainy record. */
  lemma TokyoIsRainy()
    ensures GetCurrentWeather("Tokyo", DefaultUnit) == Report("Tokyo", "10", Some(Json.Str("celsius")), Some("Rainy"))
  {
    var l := Lower("Tokyo");
    assert l == "tokyo" by {
      assert l[0] == LowerChar('T') == 't';
    }
    assert OccursAt(l, "tokyo", 0);
  }

  /** Why `get_current_weather(**args)` raised. */
  datatype CallError =
    | NotAMapping(typeName: string)
    | UnexpectedKeyword(key: string)
    | MissingLocation
    | NoLowerAttribute(typeName: string)

  const Callee := "get_current_weather()"

  /** The exception text `str(e)`, in CPython 3's wording: the binding errors name the function,
      and every text names the offending keyword or type. */
  function ErrorText(e: CallError): (r: string)
    ensures !e.NoLowerAttribute? <==> Callee <= r
    ensures e.UnexpectedKeyword? ==> Contains(r, e.key)
    ensures e.NotAMapping? || e.NoLowerAttribute? ==> Contains(r, e.typeName)
  {
    match e
    case NotAMapping(t) =>
      var before := Callee + " argument after ** must be a mapping, not ";
      ContainsMiddle(before, t, "");
      before + t + ""
    case UnexpectedKeyword(k) =>
      var before := Callee + " got an unexpected keyword argument '";
      ContainsMiddle(before, k, "'");
      before + k + "'"
    case MissingLocation => Callee + " missing 1 required positional argument: 'location'"
    case NoLowerAttribute(t) =>
      var r := "'" + t + "' object has no attribute 'lower'";
      assert r[0] != Callee[0];
      r
  }

  lemma ContainsMiddle(before: string, needle: string, after: string)
    ensures Contains(before + needle + after, needle)
    ensures Callee <= Callee + before + needle + after
  {
    var r := before + needle + after;
    assert r[|before|..|before| + |needle|] == needle;
    assert OccursAt(r, needle, |before|);
    assert (Callee + before + needle + after)[..|Callee|] == Callee;
  }

  const Parameters: set<string> := {"location", "unit"}

  /** The first key, in dictionary order, that names no parameter of the tool. */
  function FirstUnexpected(members: seq<(string, Json.Value)>): (r: Option<string>)
    ensures r.None? <==> Json.Keys(members) <= Parameters
    ensures r.Some? ==> r.value in Json.Keys(members) && r.value !in Parameters
    ensures r.Some? ==> exists k :: 0 <= k < |members| && members[k].0 == r.value && forall j :: 0 <= j < k ==> members[j].0 in Parameters
  {
    if members == [] then None
    else if members[0].0 !in Parameters then Some(members[0].0)
    else
      var r := FirstUnexpected(members[1..]);
      assert r.Some? ==> exists k :: 0 <= k < |members| && members[k].0 == r.value && forall j :: 0 <= j < k ==> members[j].0 in Parameters by {
        if r.Some? {
          var k :| 0 <= k < |members[1..]| && members[1..][k].0 == r.value &&
            forall j :: 0 <= j < k ==> members[1..][j].0 in Parameters;
          forall j | 0 <= j < k + 1 ensures members[j].0 in Parameters {
            if j > 0 { assert members[j] == members[1..][j - 1]; }
          }
          assert members[k + 1].0 == r.value;
        }
      }
      assert Json.Keys(members) == {members[0].0} + Json.Keys(members[1..]) by {
        forall k | k in Json.Keys(members) ensures k in {members[0].0} + Json.Keys(members[1..]) {
          var j :| 0 <= j < |members| && members[j].0 == k;
          if j > 0 { assert members[1..][j - 1].0 == k; }
        }
        forall k | k in Json.Keys(members[1..]) ensures k in Json.Keys(members) {
          var j :| 0 <= j < |members[1..]| && members[1..][j].0 == k;
          assert members[j + 1].0 == k;
        }
      }
      r
  }

  /** `get_current_weather(**args)`: binds the decoded arguments to the parameters
      (unexpected keywords are reported before a missing one), then looks up the location,
      which must be a string because the tool calls `location.lower()`. */
  function Call(args: Json.Value): (r: Result<Report, CallError>)
    ensures r.Success? <==>
      args.Object? && Json.Keys(args.members) <= Parameters &&
      Json.Get(args.members, "location").Some? && Json.Get(args.members, "location").value.Str?
    ensures r.Success? ==>
      var location := Json.Get(args.members, "location").value.s;
      var unit := Json.Get(args.members, "unit");
      r.value == GetCurrentWeather(location, if unit.Some? then unit.value else DefaultUnit)
    ensures !args.Object? ==> r == Failure(NotAMapping(Json.TypeName(args)))
    ensures args.Object? && FirstUnexpected(args.members).Some? ==>
      r == Failure(UnexpectedKeyword(FirstUnexpected(args.members).value))
    ensures args.Object? && FirstUnexpected(args.members).None? && Json.Get(args.members, "location").None? ==>
      r == Failure(MissingLocation)
    ensures args.Object? && FirstUnexpected(args.members).None? && Json.Get(args.members, "location").Some? ==>
      var v := Json.Get(args.members, "location").value;
      !v.Str? ==> r == Failure(NoLowerAttribute(Json.TypeName(v)))
  {
    if !args.Object? then Failure(NotAMapping(Json.TypeName(args)))
    else
      var members := args.members;
      match FirstUnexpected(members)
      case Some(k) => Failure(UnexpectedKeyword(k))
      case None =>
        match Json.Get(members, "location")
        case None => Failure(MissingLocation)
        case Some(v) =>
          if !v.Str? then Failure(NoLowerAttribute(Json.TypeName(v)))
          else
            var unit := match Json.Get(members, "unit") case Some(u) => u case None => DefaultUnit;
            Success(GetCurrentWeather(v.s, unit))
  }

  /** Arguments holding only a location string are looked up in the default unit. */
  lemma LocationOnly(location: string)
    ensures Call(Json.Object([("location", Json.Str(location))])) == Success(GetCurrentWeather(location, DefaultUnit))
  {
    var members := [("location", Json.Str(location))];
    assert Json.Keys(members) == {"location"} by {
      assert members[0].0 == "location";
    }
    assert Json.Get(members, "unit").None?;
  }

  /** Without a `unit` argument a known city is reported in celsius. */
  lemma DefaultUnitIsCelsius(args: Json.Value)
    requires args.Object? && "unit" !in Json.Keys(args.members)
    requires Call(args).Success? && Call(args).value.temperature != UnknownTemperature
    ensures Call(args).value.unit == Some(Json.Str("celsius"))
  {
    var location := Json.Get(args.members, "location").value.s;
    GetCurrentWeatherMatchesTable(location, DefaultUnit);
  }

}
