/**
 * The context line sent ahead of every question: the time of day, the weather when it is
 * known, the location, and the search radius, joined with ", ".
 * The clock is an input (`hour`, and `timeString` for the locale-formatted time), and so is
 * number formatting (`fixed4` for `toFixed(4)`, `numText` for a number's default printing).
 */
module Context {
  import opened Wrappers
  import opened Strings
  import opened Numbers

  datatype Weather = Weather(tempF: real, description: string)

  datatype Coordinates = Coordinates(latitude: real, longitude: real)

  /** The temperature unit after the rounded reading. */
  const DegreesF := "°F"

  /** The four buckets partition the hours of the day. */
  function TimeOfDay(hour: int): (r: string)
    ensures r == "morning" <==> 5 <= hour < 12
    ensures r == "afternoon" <==> 12 <= hour < 17
    ensures r == "evening" <==> 17 <= hour < 21
    ensures r == "night" <==> hour < 5 || 21 <= hour
  {
    if 5 <= hour < 12 then "morning"
    else if 12 <= hour < 17 then "afternoon"
    else if 17 <= hour < 21 then "evening"
    else "night"
  }

  /** `city || 'your area'`. */
  function Place(city: Option<string>): (r: string)
    ensures r != ""
    ensures Truthy(city) ==> r == city.value
    ensures !Truthy(city) ==> r == "your area"
  {
    if Truthy(city) then city.value else "your area"
  }

  function Header(hour: int, timeString: string): string {
    "Current context: " + TimeOfDay(hour) + " (" + timeString + ")"
  }

  function Temperature(tempF: real): string {
    IntToString(Round(tempF)) + DegreesF
  }

  function LocationPart(place: string, coords: Coordinates, fixed4: real -> string): string {
    "Location: " + place + " (" + fixed4(coords.latitude) + ", " + fixed4(coords.longitude) + ")"
  }

  /** `if (radius)`: a radius is used when it is given and not zero. */
  predicate RadiusGiven(radius: Option<real>) {
    radius.Some? && radius.value != 0.0
  }

  function RadiusClause(radius: real, numText: real -> string): string {
    "Strictly limit results to within " + numText(radius) + " mile" + (if radius != 1.0 then "s" else "")
  }

  /** The list of parts, built as the source pushes them. */
  function Parts(weather: Option<Weather>, coords: Coordinates, city: Option<string>, radius: Option<real>,
                 hour: int, timeString: string, fixed4: real -> string, numText: real -> string): seq<string>
  {
    var loc := LocationPart(Place(city), coords, fixed4);
    var initial := [Header(hour, timeString)];
    var withWeather :=
      if weather.Some? then initial + [Temperature(weather.value.tempF), weather.value.description, loc]
      else initial + [loc];
    if RadiusGiven(radius) then withWeather + [RadiusClause(radius.value, numText)] else withWeather
  }

  function BuildContextString(weather: Option<Weather>, coords: Coordinates, city: Option<string>,
                              radius: Option<real>, hour: int, timeString: string,
                              fixed4: real -> string, numText: real -> string): string
  {
    Join(Parts(weather, coords, city, radius, hour, timeString, fixed4, numText), ", ")
  }

  /**
   * The order of the parts: the header first; then temperature, description and location
   * when the weather is known, the location alone otherwise; then the radius clause,
   * present exactly when a non-zero radius is given.
   */
  lemma PartsOrder(weather: Option<Weather>, coords: Coordinates, city: Option<string>, radius: Option<real>,
                   hour: int, timeString: string, fixed4: real -> string, numText: real -> string)
    ensures var p := Parts(weather, coords, city, radius, hour, timeString, fixed4, numText);
      var loc := LocationPart(Place(city), coords, fixed4);
      var n := if weather.Some? then 4 else 2;
      && |p| == (if RadiusGiven(radius) then n + 1 else n)
      && p[0] == Header(hour, timeString)
      && (weather.Some? ==> p[1] == Temperature(weather.value.tempF) && p[2] == weather.value.description && p[3] == loc)
      && (weather.None? ==> p[1] == loc)
      && (RadiusGiven(radius) ==> p[n] == RadiusClause(radius.value, numText))
  {
  }

  /** The radius clause ends in "mile" for a radius of exactly 1 and in "miles" otherwise. */
  lemma RadiusWording(radius: real, numText: real -> string)
    ensures var c := RadiusClause(radius, numText);
      var stem := "Strictly limit results to within " + numText(radius) + " mile";
      (radius == 1.0 <==> c == stem) && (radius != 1.0 <==> c == stem + "s")
  {
  }

  /** The context string opens with the header. */
  lemma ContextStringStart(weather: Option<Weather>, coords: Coordinates, city: Option<string>, radius: Option<real>,
                           hour: int, timeString: string, fixed4: real -> string, numText: real -> string)
    ensures var s := BuildContextString(weather, coords, city, radius, hour, timeString, fixed4, numText);
      var head := Header(hour, timeString) + ", ";
      |head| <= |s| && s[..|head|] == head
  {
    var p := Parts(weather, coords, city, radius, hour, timeString, fixed4, numText);
    PartsOrder(weather, coords, city, radius, hour, timeString, fixed4, numText);
    JoinFirst(p, ", ");
  }

  /** With a radius, the context string closes with the radius clause. */
  lemma ContextStringEndsWithRadius(weather: Option<Weather>, coords: Coordinates, city: Option<string>, radius: Option<real>,
                                    hour: int, timeString: string, fixed4: real -> string, numText: real -> string)
    requires RadiusGiven(radius)
    ensures var s := BuildContextString(weather, coords, city, radius, hour, timeString, fixed4, numText);
      var tail := ", " + RadiusClause(radius.value, numText);
      |tail| <= |s| && s[|s| - |tail|..] == tail
  {
    var p := Parts(weather, coords, city, radius, hour, timeString, fixed4, numText);
    assert p[|p| - 1] == RadiusClause(radius.value, numText) by {
      PartsOrder(weather, coords, city, radius, hour, timeString, fixed4, numText);
    }
    JoinSuffix(p, ", ");
  }

  /** Without a radius, the context string closes with the location. */
  lemma ContextStringEndsWithLocation(weather: Option<Weather>, coords: Coordinates, city: Option<string>, radius: Option<real>,
                                      hour: int, timeString: string, fixed4: real -> string, numText: real -> string)
    requires !RadiusGiven(radius)
    ensures var s := BuildContextString(weather, coords, city, radius, hour, timeString, fixed4, numText);
      var tail := ", " + LocationPart(Place(city), coords, fixed4);
      |tail| <= |s| && s[|s| - |tail|..] == tail
  {
    var p := Parts(weather, coords, city, radius, hour, timeString, fixed4, numText);
    assert p[|p| - 1] == LocationPart(Place(city), coords, fixed4) by {
      PartsOrder(weather, coords, city, radius, hour, timeString, fixed4, numText);
    }
    JoinSuffix(p, ", ");
  }
}
