/**
 * The information panel: eight text lines and the "Show on Map" button.
 * `Render` says what the panel shows for a number once the lookups have
 * answered; `InfoPanel.ShowInformation` sets the lines one at a time as the
 * tracker does and is proved to end in that screen.
 */
module Display {
  import opened Wrappers
  import opened Text
  import Address

  /** What the phone-number library reports for a parsed number. */
  datatype NumberInfo = NumberInfo(
    description: string,     // English region description of the number
    carrierName: string,     // English carrier name, possibly empty
    timeZones: seq<string>)  // time-zone names for the number's region

  /** A geocoding match. Coordinates are kept as the text the panel prints for them. */
  datatype Place = Place(latitude: string, longitude: string, address: string)

  /** The lookup services beyond the phone-number library. */
  datatype Services = Services(
    geocode: string -> Option<Place>,     // free-text place query to its match, if any
    timezoneAt: Place -> Option<string>,  // time-zone name at the match's coordinates
    clock: string -> string)              // current time in a zone, as "hh:mm AM"

  /** The eight lines of the panel and whether the map button is enabled. */
  datatype Screen = Screen(
    country: string, sim: string, zone: string, phoneTime: string,
    longitude: string, latitude: string, city: string, state: string,
    mapEnabled: bool)

  /** What the panel holds before the first lookup: empty lines, map button disabled. */
  const Blank := Screen("", "", "", "", "", "", "", "", false)

  /** A time-zone answer counts only when it is a non-empty name (Python truthiness). */
  predicate HasZone(z: Option<string>) {
    z.Some? && z.value != ""
  }

  /** The screen after the lookups for `info` have answered through `svc`. */
  function Render(info: NumberInfo, svc: Services): (s: Screen)
    // the number's own data is shown whatever the geocoder answers
    ensures s.country == "Country: " + info.description
    ensures s.sim == "SIM: " + info.carrierName
    ensures s.zone == "Timezone: " + Join(info.timeZones, ", ")
    // the map is offered exactly when the region description was geocoded
    ensures s.mapEnabled <==> svc.geocode(info.description).Some?
    // without a match every place-derived line reads "Unknown"
    ensures svc.geocode(info.description).None? ==>
      s.longitude == "Longitude: Unknown" && s.latitude == "Latitude: Unknown"
      && s.city == "City: Unknown" && s.state == "State: Unknown"
      && s.phoneTime == "Phone Time: Unknown"
    // with a match the lines come from the match, and the phone time from its zone
    ensures svc.geocode(info.description).Some? ==>
      var p := svc.geocode(info.description).value;
      s.longitude == "Longitude: " + p.longitude && s.latitude == "Latitude: " + p.latitude
      && s.city == "City: " + Address.City(p.address)
      && s.state == "State: " + Address.State(p.address)
      && s.phoneTime == (if HasZone(svc.timezoneAt(p))
                         then "Phone Time: " + svc.clock(svc.timezoneAt(p).value)
                         else "Phone Time: Unknown")
  {
    var country := "Country: " + info.description;
    var sim := "SIM: " + info.carrierName;
    var zone := "Timezone: " + Join(info.timeZones, ", ");
    match svc.geocode(info.description)
    case None =>
      Screen(country, sim, zone, "Phone Time: Unknown", "Longitude: Unknown", "Latitude: Unknown",
             "City: Unknown", "State: Unknown", false)
    case Some(p) =>
      var z := svc.timezoneAt(p);
      Screen(country, sim, zone,
             if HasZone(z) then "Phone Time: " + svc.clock(z.value) else "Phone Time: Unknown",
             "Longitude: " + p.longitude, "Latitude: " + p.latitude,
             "City: " + Address.City(p.address), "State: " + Address.State(p.address), true)
  }

  /** Two numbers with the same region description get the same place-derived lines. */
  lemma PlaceFollowsDescription(a: NumberInfo, b: NumberInfo, svc: Services)
    requires a.description == b.description
    ensures Render(a, svc).(country := "", sim := "", zone := "")
         == Render(b, svc).(country := "", sim := "", zone := "")
  {
  }

  /** The eight lines in the order they are copied. */
  function Lines(s: Screen): seq<string> {
    [s.country, s.sim, s.zone, s.phoneTime, s.longitude, s.latitude, s.city, s.state]
  }

  /** The clipboard text: the eight lines joined by newlines. */
  function Clipboard(s: Screen): string {
    Join(Lines(s), "\n")
  }

  /** When no line holds a newline, the clipboard text splits back into exactly the eight lines. */
  lemma ClipboardLines(s: Screen)
    requires forall k :: 0 <= k < 8 ==> '\n' !in Lines(s)[k]
    ensures Split(Clipboard(s), '\n') == Lines(s)
  {
    SplitJoin(Lines(s), '\n');
  }

  /** The panel's text variables and map button. */
  class InfoPanel {
    var country: string
    var sim: string
    var zone: string
    var phoneTime: string
    var longitude: string
    var latitude: string
    var city: string
    var state: string
    var mapEnabled: bool

    function Current(): Screen
      reads this
    {
      Screen(country, sim, zone, phoneTime, longitude, latitude, city, state, mapEnabled)
    }

    constructor ()
      ensures Current() == Blank
    {
      country, sim, zone, phoneTime := "", "", "", "";
      longitude, latitude, city, state := "", "", "", "";
      mapEnabled := false;
    }

    /** Runs the lookups for `info` and updates the lines in the tracker's order. */
    method ShowInformation(info: NumberInfo, svc: Services)
      modifies this
      ensures Current() == Render(info, svc)
    {
      var locate := info.description;
      country := "Country: " + locate;
      sim := "SIM: " + info.carrierName;
      zone := "Timezone: " + Join(info.timeZones, ", ");
      var location := svc.geocode(locate);
      if location.Some? {
        var p := location.value;
        longitude := "Longitude: " + p.longitude;
        latitude := "Latitude: " + p.latitude;
        city := "City: " + Address.City(p.address);
        state := "State: " + Address.State(p.address);
        var result := svc.timezoneAt(p);
        if HasZone(result) {
          phoneTime := "Phone Time: " + svc.clock(result.value);
        } else {
          phoneTime := "Phone Time: Unknown";
        }
        mapEnabled := true;
      } else {
        longitude := "Longitude: Unknown";
        latitude := "Latitude: Unknown";
        city := "City: Unknown";
        state := "State: Unknown";
        phoneTime := "Phone Time: Unknown";
        mapEnabled := false;
      }
    }

    /** The text placed on the clipboard. */
    method CopyToClipboard() returns (text: string)
      ensures text == Clipboard(Current())
    {
      text := Join([country, sim, zone, phoneTime, longitude, latitude, city, state], "\n");
    }
  }
}
