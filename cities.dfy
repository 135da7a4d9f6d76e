/**
 * The three static tables of script.js: the city list that feeds the
 * navigation bar, the panorama URL of each city (keyed by slug), and the
 * time zone of each city (keyed by label), with the lookups made in them.
 */
module CityTables {
  import opened Optional
  import opened Strings

  datatype City = City(section: string, name: string)  // `name` holds the entry's `label`

  /** The navigation entries, in the order the bar shows them. */
  const Cities: seq<City> := [
    City("cupertino", "Cupertino"),
    City("new-york-city", "New York City"),
    City("london", "London"),
    City("amsterdam", "Amsterdam"),
    City("tokyo", "Tokyo"),
    City("hong-kong", "Hong Kong"),
    City("sydney", "Sydney")
  ]

  const PanoramaUrls: map<string, string> := map[
    "cupertino" := "https://i.imgur.com/AcxpOnH.jpeg",
    "new-york-city" := "https://i.imgur.com/TAS54cs.jpeg",
    "london" := "https://i.imgur.com/EeeHSWE.jpeg",
    "amsterdam" := "https://i.imgur.com/kAZ0ALt.jpeg",
    "tokyo" := "https://i.imgur.com/6fndpTM.jpeg",
    "hong-kong" := "https://i.imgur.com/7ukk0wI.jpeg",
    "sydney" := "https://i.imgur.com/siaLuSy.jpeg"
  ]

  const TimeZones: map<string, string> := map[
    "Cupertino" := "America/Los_Angeles",
    "New York City" := "America/New_York",
    "London" := "Europe/London",
    "Amsterdam" := "Europe/Amsterdam",
    "Tokyo" := "Asia/Tokyo",
    "Hong Kong" := "Asia/Hong_Kong",
    "Sydney" := "Australia/Sydney"
  ]

  predicate IsLabel(name: string)
  {
    exists i :: 0 <= i < |Cities| && Cities[i].name == name
  }

  /** The panorama looked up by `create360Scene`: the table entry under the name's slug. */
  function PanoramaUrl(cityName: string): (r: Option<string>)
    ensures r.Some? <==> Slug(cityName) in PanoramaUrls
    ensures r.Some? ==> r.value == PanoramaUrls[Slug(cityName)]
  {
    Get(PanoramaUrls, Slug(cityName))
  }

  /** The zone `updateCityTime` and the clock use; None for a name outside the table. */
  function TimeZone(cityName: string): (r: Option<string>)
    ensures r.Some? <==> IsLabel(cityName)
    ensures r.Some? ==> r.value == TimeZones[cityName]
  {
    TimeZoneKeysAreLabels();
    Get(TimeZones, cityName)
  }

  /** The time-zone table is keyed by exactly the navigation labels. */
  lemma TimeZoneKeysAreLabels()
    ensures forall name :: name in TimeZones <==> IsLabel(name)
  {
    forall name | IsLabel(name) ensures name in TimeZones {
      var i :| 0 <= i < |Cities| && Cities[i].name == name;
      assert 0 <= i < 7;
    }
    assert Cities[0].name == "Cupertino";
    assert Cities[1].name == "New York City";
    assert Cities[2].name == "London";
    assert Cities[3].name == "Amsterdam";
    assert Cities[4].name == "Tokyo";
    assert Cities[5].name == "Hong Kong";
    assert Cities[6].name == "Sydney";
  }

  /** The panorama table is keyed by exactly the navigation sections. */
  lemma PanoramaKeysAreSections()
    ensures forall key :: key in PanoramaUrls <==> exists i :: 0 <= i < |Cities| && Cities[i].section == key
  {
    forall key | exists i :: 0 <= i < |Cities| && Cities[i].section == key
      ensures key in PanoramaUrls
    {
      var i :| 0 <= i < |Cities| && Cities[i].section == key;
      assert 0 <= i < 7;
    }
    assert Cities[0].section == "cupertino";
    assert Cities[1].section == "new-york-city";
    assert Cities[2].section == "london";
    assert Cities[3].section == "amsterdam";
    assert Cities[4].section == "tokyo";
    assert Cities[5].section == "hong-kong";
    assert Cities[6].section == "sydney";
  }

  /** Slugging every label gives its section, so each navigation city has a panorama. */
  lemma LabelsSlugToSections(i: nat)
    requires i < |Cities|
    ensures Slug(Cities[i].name) == Cities[i].section
    ensures PanoramaUrl(Cities[i].name) == Some(PanoramaUrls[Cities[i].section])
  {
    SectionIsSlug(i);
    PanoramaKeysAreSections();
  }

  lemma SectionIsSlug(i: nat)
    requires i < |Cities|
    ensures Slug(Cities[i].name) == Cities[i].section
  {
    assert 0 <= i < 7;
    if i == 0 { SlugCupertino(); }
    else if i == 1 { SlugEntryNewYorkCity(); }
    else if i == 2 { SlugLondon(); }
    else if i == 3 { SlugAmsterdam(); }
    else if i == 4 { SlugTokyo(); }
    else if i == 5 { SlugEntryHongKong(); }
    else { SlugSydney(); }
  }

  lemma SlugCupertino()
    ensures Slug(Cities[0].name) == Cities[0].section
  {
    OneWordSpelled(Cities[0].name, "cupertino");
  }

  lemma SlugLondon()
    ensures Slug(Cities[2].name) == Cities[2].section
  {
    OneWordSpelled(Cities[2].name, "london");
  }

  lemma SlugAmsterdam()
    ensures Slug(Cities[3].name) == Cities[3].section
  {
    OneWordSpelled(Cities[3].name, "amsterdam");
  }

  lemma SlugTokyo()
    ensures Slug(Cities[4].name) == Cities[4].section
  {
    OneWordSpelled(Cities[4].name, "tokyo");
  }

  lemma SlugSydney()
    ensures Slug(Cities[6].name) == Cities[6].section
  {
    OneWordSpelled(Cities[6].name, "sydney");
  }

  lemma SlugEntryNewYorkCity()
    ensures Slug(Cities[1].name) == Cities[1].section
  {
    var a, b, c := "New", "York", "City";
    SlugNewYorkCity(a, b, c);
    SlugTransfer(Cities[1].name, a + " " + (b + " " + c), Cities[1].section);
  }

  lemma SlugEntryHongKong()
    ensures Slug(Cities[5].name) == Cities[5].section
  {
    var a, b := "Hong", "Kong";
    SlugHongKong(a, b);
    SlugTransfer(Cities[5].name, a + " " + b, Cities[5].section);
  }

  lemma SlugTransfer(name: string, spelled: string, section: string)
    requires name == spelled && Slug(spelled) == section
    ensures Slug(name) == section
  {
  }

  lemma SlugNewYorkCity(a: string, b: string, c: string)
    requires a == "New" && b == "York" && c == "City"
    ensures Slug(a + " " + (b + " " + c)) == "new-york-city"
  {
    SlugYorkCity(b, c);
    SlugJoin(a, b + " " + c, "new", "york-city");
  }

  lemma SlugYorkCity(b: string, c: string)
    requires b == "York" && c == "City"
    ensures Slug(b + " " + c) == "york-city"
  {
    OneWord(c, "city");
    SlugJoin(b, c, "york", "city");
  }

  /**
   * The same two-word step as SlugYorkCity, for the other two-word label;
   * each literal is unfolded in a lemma of its own, which keeps the case
   * analysis over all seven entries small.
   */
  lemma SlugHongKong(a: string, b: string)
    requires a == "Hong" && b == "Kong"
    ensures Slug(a + " " + b) == "hong-kong"
  {
    OneWord(b, "kong");
    SlugJoin(a, b, "hong", "kong");
  }

  /** A word without whitespace slugs to its lower-case form. */
  lemma OneWord(name: string, lower: string)
    requires Lower(name) == lower && NoWhitespace(lower)
    ensures Slug(name) == lower
  {
    DashRunsKeepsClean(lower);
  }

  /** A word without whitespace, given with its lower-case spelling letter by letter. */
  lemma OneWordSpelled(name: string, lower: string)
    requires |name| == |lower|
    requires forall k :: 0 <= k < |name| ==> LowerChar(name[k]) == lower[k] && !IsWhitespace(lower[k])
    ensures Slug(name) == lower
  {
    assert Lower(name) == lower;
    OneWord(name, lower);
  }

  /** A word, one space and a rest slug to the lower-case word, a dash and the rest's slug. */
  lemma SlugJoin(word: string, rest: string, lowerWord: string, restSlug: string)
    requires Lower(word) == lowerWord && NoWhitespace(lowerWord)
    requires rest != [] && !IsWhitespace(rest[0])
    requires Slug(rest) == restSlug
    ensures Slug(word + " " + rest) == lowerWord + "-" + restSlug
  {
    LowerConcat(word + " ", rest);
    LowerConcat(word, " ");
    assert Lower(" ") == " ";
    assert Lower(word + " " + rest) == lowerWord + " " + Lower(rest);
    assert Lower(rest)[0] == LowerChar(rest[0]);
    DashAt(lowerWord, " ", Lower(rest));
  }

  lemma {:induction false} LowerConcat(a: string, b: string)
    ensures Lower(a + b) == Lower(a) + Lower(b)
  {
    if a == [] {
      assert a + b == b;
    } else {
      assert (a + b)[1..] == a[1..] + b;
      LowerConcat(a[1..], b);
    }
  }
}
