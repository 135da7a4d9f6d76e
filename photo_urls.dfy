/**
 * `getCityImageUrls`: the list of placeholder-photo URLs requested for one
 * city. `Math.random` is not modelled; its successive draws are an input.
 */
module PhotoUrls {
  import opened Optional
  import opened Strings

  const Width: nat := 800
  const Height: nat := 600
  /** The default of the `count` parameter, the only value script.js ever uses. */
  const DefaultCount: nat := 35

  /** The fixed part before the city name. */
  const Prefix: string := "https://loremflickr.com/800/600/"
  const SeedMarker: string := "?random="

  /** A sequence of draws of `Math.random`, each in [0, 1). */
  predicate DrawsInRange(draws: seq<real>)
  {
    forall i :: 0 <= i < |draws| ==> 0.0 <= draws[i] < 1.0
  }

  /** `Math.floor(Math.random() * 1000)`. */
  function Seed(draw: real): (s: nat)
    requires 0.0 <= draw < 1.0
    ensures s < 1000
    ensures s as real <= draw * 1000.0 < s as real + 1.0
  {
    (draw * 1000.0).Floor
  }

  /** The fixed part is the service's address followed by the width and the height in decimal. */
  lemma PrefixSpellsSize()
    ensures Prefix == "https://loremflickr.com/" + DecimalString(Width) + "/" + DecimalString(Height) + "/"
  {
  }

  /** One URL of the list, for an already stripped city name. */
  function PhotoUrl(formattedName: string, seed: nat): string
  {
    Prefix + formattedName + SeedMarker + DecimalString(seed)
  }

  /** The list `getCityImageUrls(cityName, |draws|)` returns when `Math.random` yields `draws`. */
  function CityImageUrls(cityName: string, draws: seq<real>): (urls: seq<string>)
    requires DrawsInRange(draws)
    ensures |urls| == |draws|
    ensures forall i :: 0 <= i < |draws| ==>
      urls[i] == PhotoUrl(StripWhitespace(cityName), Seed(draws[i]))
  {
    seq(|draws|, i requires 0 <= i < |draws| => PhotoUrl(StripWhitespace(cityName), Seed(draws[i])))
  }

  /**
   * The loop of `getCityImageUrls`: strips the name once, then pushes one URL
   * per iteration, drawing one random seed each time.
   */
  method GetCityImageUrls(cityName: string, count: nat, draws: seq<real>) returns (urls: seq<string>)
    requires |draws| == count && DrawsInRange(draws)
    ensures |urls| == count
    ensures forall i :: 0 <= i < count ==>
      urls[i] == PhotoUrl(StripWhitespace(cityName), Seed(draws[i])) && Seed(draws[i]) < 1000
    ensures urls == CityImageUrls(cityName, draws)
  {
    var formattedCityName := StripWhitespace(cityName);
    urls := [];
    var i := 0;
    while i < count
      invariant 0 <= i <= count
      invariant |urls| == i
      invariant forall j :: 0 <= j < i ==> urls[j] == PhotoUrl(formattedCityName, Seed(draws[j]))
    {
      var randomSeed := Seed(draws[i]);
      urls := urls + [PhotoUrl(formattedCityName, randomSeed)];
      i := i + 1;
    }
  }

  /**
   * Every URL splits into the fixed prefix, the city name with its whitespace
   * removed, the `?random=` marker and the decimal seed, which reads back as
   * the seed drawn.
   */
  lemma PhotoUrlParts(cityName: string, draw: real)
    requires 0.0 <= draw < 1.0
    ensures var url := PhotoUrl(StripWhitespace(cityName), Seed(draw));
      var name := StripWhitespace(cityName);
      var start := |Prefix| + |name| + |SeedMarker|;
      && start < |url| <= start + 3
      && url[..|Prefix|] == Prefix
      && url[|Prefix|..|Prefix| + |name|] == name
      && NoWhitespace(url[|Prefix|..|Prefix| + |name|])
      && url[|Prefix| + |name|..start] == SeedMarker
      && ParseDecimal(url[start..]) == Some(Seed(draw))
  {
    var name := StripWhitespace(cityName);
    var seed := Seed(draw);
    var url := PhotoUrl(name, seed);
    assert url == Prefix + name + SeedMarker + DecimalString(seed);
    ParseDecimalString(seed);
    DecimalStringBelow1000(seed);
    var start := |Prefix| + |name| + |SeedMarker|;
    assert url[start..] == DecimalString(seed);
  }
}
