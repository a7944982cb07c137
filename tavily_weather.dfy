/**
 * The search-based weather service (app/tavily_weather_service.py): a
 * temperature and a condition phrase are scraped from the text of web-search
 * results with ordered regular-expression searches, and whatever cannot be
 * found is taken from a 12-location fallback table.
 *
 * The regular expressions are modelled by hand-written matchers with the
 * semantics of Python's `re.search(pattern, text, re.IGNORECASE)`: the
 * leftmost position where the pattern matches wins; alternatives are tried
 * in order at each position; letters compare without ASCII case.
 */
module TavilyWeather {
  import opened Wrappers
  import opened Text
  import opened WeatherData

  // ---------------------------------------------------------------------------
  // Fallback table and the locations offered to the user
  // ---------------------------------------------------------------------------

  const FallbackTable: Table := [
    ("Delhi", Reading(35, "Sunny and Hot")),
    ("Mumbai", Reading(28, "Humid and Cloudy")),
    ("Bangalore", Reading(25, "Pleasant and Breezy")),
    ("Chennai", Reading(32, "Hot and Humid")),
    ("Kolkata", Reading(30, "Warm and Rainy")),
    ("Rajasthan", Reading(40, "Very Hot and Dry")),
    ("Kerala", Reading(29, "Tropical and Humid")),
    ("Pune", Reading(26, "Pleasant and Partly Cloudy")),
    ("Shimla", Reading(18, "Cool and Misty")),
    ("Patna", Reading(33, "Hot and Humid")),
    ("Dubai", Reading(38, "Very Hot and Dry")),
    ("Indore", Reading(28, "Warm and Clear")),
    ("Default", Reading(27, "Moderate"))
  ]

  /** `FALLBACK_WEATHER.get(location, FALLBACK_WEATHER["Default"])`. */
  function FallbackWeather(location: string): (w: Weather)
    ensures w.dataSource.None?
  {
    assert FallbackTable[12].0 == "Default";
    AsWeather(GetOrDefault(FallbackTable, location))
  }

  lemma FallbackKeysDistinct()
    ensures DistinctKeys(FallbackTable)
  {
  }

  /** Each named location gets its own table row. */
  lemma FallbackEntry(i: nat)
    requires i < |FallbackTable|
    ensures FallbackWeather(FallbackTable[i].0) == AsWeather(FallbackTable[i].1)
  {
    FallbackKeysDistinct();
    GetEntry(FallbackTable, i);
  }

  /** A location missing from the table gets the Default row: 27 degrees, "Moderate". */
  lemma FallbackDefault(location: string)
    requires !HasKey(FallbackTable, location)
    ensures FallbackWeather(location) == Weather(27.0, "Moderate", None)
  {
    FallbackEntry(12);
  }

  /** The names of a table, in order: `list(table.keys())`. */
  function Names(table: Table): (ns: seq<string>)
    ensures |ns| == |table| && forall i :: 0 <= i < |table| ==> ns[i] == table[i].0
  {
    if table == [] then [] else [table[0].0] + Names(table[1..])
  }

  /** Python's `list.remove(x)`: drops the first occurrence of `x`. */
  function RemoveFirst(s: seq<string>, x: string): (r: seq<string>)
    requires x in s
    ensures |r| == |s| - 1
  {
    if s[0] == x then s[1..] else [s[0]] + RemoveFirst(s[1..], x)
  }

  /** A table's names with "Default" removed. */
  function NamesWithoutDefault(table: Table): seq<string>
    requires HasKey(table, "Default")
  {
    var i :| 0 <= i < |table| && table[i].0 == "Default";
    assert Names(table)[i] == "Default";
    RemoveFirst(Names(table), "Default")
  }

  /** `AVAILABLE_LOCATIONS`: the fallback table's names in order, without "Default". */
  function AvailableLocations(): seq<string> {
    assert FallbackTable[12].0 == "Default";
    NamesWithoutDefault(FallbackTable)
  }

  /** The locations offered are exactly the twelve named table entries, in table order. */
  lemma AvailableLocationsAreTableNames()
    ensures AvailableLocations() == Names(FallbackTable)[..12]
    ensures "Default" !in AvailableLocations()
    ensures forall loc :: loc in AvailableLocations() ==> HasKey(FallbackTable, loc)
  {
    FallbackKeysDistinct();
    DefaultLastRemoved(FallbackTable);
  }

  lemma DefaultLastRemoved(table: Table)
    requires DistinctKeys(table) && |table| > 0 && table[|table| - 1].0 == "Default"
    ensures HasKey(table, "Default")
    ensures NamesWithoutDefault(table) == Names(table)[..|table| - 1]
    ensures "Default" !in Names(table)[..|table| - 1]
    ensures forall loc :: loc in Names(table)[..|table| - 1] ==> HasKey(table, loc)
  {
    var ns := Names(table);
    assert forall i :: 0 <= i < |table| - 1 ==> ns[i] != "Default";
    RemoveOnlyLast(ns, "Default");
    NamesAreKeys(table, |table| - 1);
  }

  lemma NamesAreKeys(table: Table, n: nat)
    requires n <= |table|
    ensures forall loc :: loc in Names(table)[..n] ==> HasKey(table, loc)
  {
    forall loc | loc in Names(table)[..n] ensures HasKey(table, loc) {
      var k :| 0 <= k < n && Names(table)[..n][k] == loc;
      assert table[k].0 == loc;
    }
  }

  lemma {:induction false} RemoveOnlyLast(s: seq<string>, x: string)
    requires |s| > 0 && s[|s| - 1] == x
    requires forall i :: 0 <= i < |s| - 1 ==> s[i] != x
    ensures RemoveFirst(s, x) == s[..|s| - 1]
  {
    if |s| > 1 {
      assert s[1..][|s| - 2] == x;
      RemoveOnlyLast(s[1..], x);
      assert [s[0]] + s[1..][..|s| - 2] == s[..|s| - 1];
    }
  }

  // ---------------------------------------------------------------------------
  // A regex engine for the patterns at hand
  // ---------------------------------------------------------------------------

  /** `re.search`: the leftmost position from `i` on at which `matchAt` succeeds, with what it captured. */
  function Leftmost<T>(matchAt: nat -> Option<T>, i: nat, n: nat): (r: Option<(nat, T)>)
    requires i <= n
    ensures r.Some? ==> i <= r.value.0 <= n && matchAt(r.value.0) == Some(r.value.1)
    ensures r.Some? ==> forall j :: i <= j < r.value.0 ==> matchAt(j).None?
    ensures r.None? ==> forall j :: i <= j <= n ==> matchAt(j).None?
    decreases n - i
  {
    match matchAt(i)
    case Some(v) => Some((i, v))
    case None => if i == n then None else Leftmost(matchAt, i + 1, n)
  }

  /** The first pattern of `ps` (from index `k` on) for which `search` finds something, with what it found. */
  function FirstOf<P, T>(ps: seq<P>, search: P -> Option<T>, k: nat): (r: Option<(nat, T)>)
    requires k <= |ps|
    ensures r.Some? ==> k <= r.value.0 < |ps| && search(ps[r.value.0]) == Some(r.value.1)
    ensures r.Some? ==> forall j :: k <= j < r.value.0 ==> search(ps[j]).None?
    ensures r.None? ==> forall j :: k <= j < |ps| ==> search(ps[j]).None?
    decreases |ps| - k
  {
    if k == |ps| then None
    else
      match search(ps[k])
      case Some(v) => Some((k, v))
      case None => FirstOf(ps, search, k + 1)
  }

  /** The end of the run of digits that starts at `i`. */
  function DigitsEnd(s: string, i: nat): (e: nat)
    requires i <= |s|
    ensures i <= e <= |s| && (e == |s| || !IsDigit(s[e]))
    ensures forall j :: i <= j < e ==> IsDigit(s[j])
    decreases |s| - i
  {
    if i < |s| && IsDigit(s[i]) then DigitsEnd(s, i + 1) else i
  }

  /**
   * The end of the greedy match of `\d+(\.\d+)?` at `i`; `i` itself when no
   * digit is there.
   */
  function NumberEnd(s: string, i: nat): (e: nat)
    requires i <= |s|
    ensures i <= e <= |s|
  {
    var q := DigitsEnd(s, i);
    if q == i then i
    else if q + 1 < |s| && s[q] == '.' && IsDigit(s[q + 1]) then DigitsEnd(s, q + 1)
    else q
  }

  /** `s[i..e]` is matched by `\d+(\.\d+)?` (in any of the ways the regex could split it). */
  predicate NumberSpan(s: string, i: nat, e: nat) {
    i < e <= |s| &&
    exists q :: i < q <= e && (forall j :: i <= j < q ==> IsDigit(s[j])) &&
      (q == e || (s[q] == '.' && q + 1 < e && forall j :: q + 1 <= j < e ==> IsDigit(s[j])))
  }

  lemma {:induction false} DigitsEndAt(s: string, i: nat, e: nat)
    requires i <= e <= |s|
    requires forall j :: i <= j < e ==> IsDigit(s[j])
    requires e == |s| || !IsDigit(s[e])
    ensures DigitsEnd(s, i) == e
    decreases e - i
  {
    if i < e {
      DigitsEndAt(s, i + 1, e);
    }
  }

  /**
   * Backtracking cannot change the number a `\d+(\.\d+)?<unit>` pattern
   * captures when the unit begins with neither a digit nor a '.': any way of
   * matching the number that is followed by such a character ends where the
   * greedy match ends. So trying only the greedy number is the regex.
   */
  lemma NumberSpanIsGreedy(s: string, i: nat, e: nat)
    requires NumberSpan(s, i, e)
    requires e < |s| && !IsDigit(s[e]) && s[e] != '.'
    ensures NumberEnd(s, i) == e
  {
    var q :| i < q <= e && (forall j :: i <= j < q ==> IsDigit(s[j])) &&
      (q == e || (s[q] == '.' && q + 1 < e && forall j :: q + 1 <= j < e ==> IsDigit(s[j])));
    DigitsEndAt(s, i, q);
    if q < e {
      DigitsEndAt(s, q + 1, e);
    }
  }

  /** The characters of a case-insensitive occurrence agree with the word's, up to case. */
  lemma OccurrenceChar(s: string, w: string, i: nat, k: nat)
    requires OccursAtIgnoreCase(s, w, i) && k < |w|
    ensures LowerChar(s[i + k]) == LowerChar(w[k])
  {
    assert Lower(s[i..i + |w|])[k] == Lower(w)[k];
  }

  // ---------------------------------------------------------------------------
  // extract_temperature
  // ---------------------------------------------------------------------------

  /**
   * A temperature pattern: a number followed by a unit text
   * (`(\d+(?:\.\d+)?)<unit>`), or one of several lead-ins followed by a number
   * (`temperature (?:is|of) (\d+(?:\.\d+)?)`).
   */
  datatype TempPattern = NumberThen(unit: string) | LeadThenNumber(leads: seq<string>)

  const Degree: char := '\U{B0}'

  const CelsiusPatterns: seq<TempPattern> := [
    NumberThen([Degree, 'C']),
    NumberThen([' ', Degree, 'C']),
    NumberThen(" degrees Celsius"),
    NumberThen(" Celsius"),
    LeadThenNumber(["temperature is ", "temperature of "]),
    NumberThen(" degrees")
  ]

  const FahrenheitPatterns: seq<TempPattern> := [
    NumberThen([Degree, 'F']),
    NumberThen([' ', Degree, 'F']),
    NumberThen(" degrees Fahrenheit"),
    NumberThen(" Fahrenheit")
  ]

  /** The number text that `leads[k..]` followed by a number captures at `i`, trying the lead-ins in order. */
  function NumberAfterLead(leads: seq<string>, s: string, i: nat, k: nat): Option<string>
    requires i <= |s| && k <= |leads|
    decreases |leads| - k
  {
    if k == |leads| then None
    else
      var start := i + |leads[k]|;
      if OccursAtIgnoreCase(s, leads[k], i) && NumberEnd(s, start) > start then Some(s[start..NumberEnd(s, start)])
      else NumberAfterLead(leads, s, i, k + 1)
  }

  /** The number text that pattern `p` captures when matched at position `i`. */
  function TempMatchAt(p: TempPattern, s: string, i: nat): Option<string> {
    if i > |s| then None
    else
      match p
      case NumberThen(unit) =>
        var e := NumberEnd(s, i);
        if e > i && OccursAtIgnoreCase(s, unit, e) then Some(s[i..e]) else None
      case LeadThenNumber(leads) => NumberAfterLead(leads, s, i, 0)
  }

  function TempMatcher(p: TempPattern, s: string): nat -> Option<string> {
    (j: nat) => TempMatchAt(p, s, j)
  }

  function TempSearcher(s: string): TempPattern -> Option<string> {
    p => TempSearch(p, s)
  }

  /** `re.search(p, s, re.IGNORECASE).group(1)`, or None. */
  function TempSearch(p: TempPattern, s: string): Option<string> {
    match Leftmost(TempMatcher(p, s), 0, |s|)
    case Some((_, num)) => Some(num)
    case None => None
  }

  /** Python's `float(t)` for a `\d+(\.\d+)?` text, as an exact decimal. */
  function DecimalValue(t: string): (v: real)
    ensures v >= 0.0
  {
    var whole := LeadingDigits(t);
    var rest := t[|whole|..];
    var frac := if rest != [] && rest[0] == '.' then LeadingDigits(rest[1..]) else [];
    DigitsValue(whole) as real + DigitsValue(frac) as real / Pow10(|frac|) as real
  }

  function Pow10(n: nat): (p: nat)
    ensures p >= 1
  {
    if n == 0 then 1 else 10 * Pow10(n - 1)
  }

  function Tenths(m: int): real {
    m as real / 10.0
  }

  function Distance(x: real, y: real): real {
    if x >= y then x - y else y - x
  }

  /**
   * `round(x, 1)`: the multiple of 0.1 nearest to `x`, ties going to the
   * even multiple.
   */
  function Round1(x: real): (r: real)
    ensures exists n: int :: r == Tenths(n)
    ensures Distance(r, x) <= 0.05
    ensures forall m: int :: Distance(r, x) <= Distance(Tenths(m), x)
  {
    var y := x * 10.0;
    var f := y.Floor;
    var d := y - f as real;
    var n := if d > 0.5 then f + 1 else if d < 0.5 then f else if f % 2 == 0 then f else f + 1;
    assert Distance(Tenths(n), x) <= 0.05;
    forall m: int ensures Distance(Tenths(n), x) <= Distance(Tenths(m), x) {
      if m < n {
        assert Tenths(m) <= Tenths(n) - 0.1;
      } else if m > n {
        assert Tenths(m) >= Tenths(n) + 0.1;
      }
    }
    Tenths(n)
  }

  /** `round((f - 32) * 5 / 9, 1)`. */
  function FahrenheitToCelsius(f: real): real {
    Round1((f - 32.0) * 5.0 / 9.0)
  }

  /**
   * `extract_temperature`: the number of the first Celsius pattern (in list
   * order) that matches anywhere; failing all of them, the first Fahrenheit
   * pattern's number converted to Celsius; failing that, None.
   */
  function ExtractTemperature(text: string): (r: Option<real>)
    ensures r.None? <==>
      (forall k :: 0 <= k < |CelsiusPatterns| ==> TempSearch(CelsiusPatterns[k], text).None?) &&
      (forall k :: 0 <= k < |FahrenheitPatterns| ==> TempSearch(FahrenheitPatterns[k], text).None?)
    ensures (exists k :: 0 <= k < |CelsiusPatterns| && TempSearch(CelsiusPatterns[k], text).Some?) ==>
      r.Some? && r.value >= 0.0
  {
    match FirstOf(CelsiusPatterns, TempSearcher(text), 0)
    case Some((_, num)) => Some(DecimalValue(num))
    case None =>
      match FirstOf(FahrenheitPatterns, TempSearcher(text), 0)
      case Some((_, num)) => Some(FahrenheitToCelsius(DecimalValue(num)))
      case None => None
  }

  // ---------------------------------------------------------------------------
  // extract_weather_condition
  // ---------------------------------------------------------------------------

  /** The keyword alternations, in priority order (each word in lower case). */
  const ConditionPatterns: seq<seq<string>> := [
    ["sunny", "clear sky", "clear"],
    ["cloudy", "overcast", "cloud cover"],
    ["rainy", "raining", "rain shower", "light rain", "heavy rain"],
    ["snowy", "snowing", "snow shower", "light snow", "heavy snow"],
    ["foggy", "misty", "hazy"],
    ["stormy", "thunderstorm", "thunder", "lightning"],
    ["windy", "strong winds", "gusts"],
    ["humid", "humidity", "muggy"],
    ["dry", "arid"],
    ["hot", "warm", "pleasant", "cool", "cold", "chilly", "freezing"]
  ]

  /** The text matched at `i` by the alternation `words[k..]`: the first word found there, as written in `s`. */
  function WordsMatchAt(words: seq<string>, s: string, i: nat, k: nat): (r: Option<string>)
    requires k <= |words|
    ensures r.Some? ==> exists j :: k <= j < |words| && OccursAtIgnoreCase(s, words[j], i) && r.value == s[i..i + |words[j]|]
    decreases |words| - k
  {
    if k == |words| then None
    else if OccursAtIgnoreCase(s, words[k], i) then Some(s[i..i + |words[k]|])
    else WordsMatchAt(words, s, i, k + 1)
  }

  function WordsMatcher(words: seq<string>, s: string): nat -> Option<string> {
    (j: nat) => WordsMatchAt(words, s, j, 0)
  }

  function WordsSearcher(s: string): seq<string> -> Option<string> {
    words => WordsSearch(words, s)
  }

  function SentenceMatcher(s: string): nat -> Option<string> {
    (j: nat) => SentenceMatchAt(s, j)
  }

  /** `re.search("(w1|w2|...)", s, re.IGNORECASE).group(0)`, or None. */
  function WordsSearch(words: seq<string>, s: string): Option<string> {
    match Leftmost(WordsMatcher(words, s), 0, |s|)
    case Some((_, m)) => Some(m)
    case None => None
  }

  predicate IsTerminator(c: char) {
    c == '.' || c == '!' || c == '?'
  }

  /** The first sentence terminator at or after `i`. */
  function NextTerminator(s: string, i: nat): (r: Option<nat>)
    ensures r.Some? ==> i <= r.value < |s| && IsTerminator(s[r.value])
    ensures r.Some? ==> forall j :: i <= j < r.value ==> !IsTerminator(s[j])
    ensures r.None? ==> forall j :: i <= j < |s| ==> !IsTerminator(s[j])
    decreases |s| - i
  {
    if i >= |s| then None
    else if IsTerminator(s[i]) then Some(i)
    else NextTerminator(s, i + 1)
  }

  predicate ContainsIgnoreCase(s: string, w: string) {
    exists k: nat :: k <= |s| && OccursAtIgnoreCase(s, w, k)
  }

  /**
   * The match of `[^.!?]*(?:weather|condition)[^.!?]*[.!?]` at `i`: none of
   * its parts can cross a terminator, so it matches exactly when the text from
   * `i` up to the next terminator mentions one of the two words, and it then
   * runs through that terminator.
   */
  function SentenceMatchAt(s: string, i: nat): Option<string> {
    match NextTerminator(s, i)
    case None => None
    case Some(t) =>
      if ContainsIgnoreCase(s[i..t], "weather") || ContainsIgnoreCase(s[i..t], "condition") then Some(s[i..t + 1])
      else None
  }

  /**
   * `extract_weather_condition`: the matched text, capitalised, of the first
   * keyword alternation (in priority order) found anywhere; failing all of
   * them, the first sentence that mentions the weather or a condition,
   * stripped; failing that, None.
   */
  function ExtractCondition(text: string): (r: Option<string>)
    ensures (exists k :: 0 <= k < |ConditionPatterns| && WordsSearch(ConditionPatterns[k], text).Some?) ==> r.Some?
    ensures r.None? ==> forall k :: 0 <= k < |ConditionPatterns| ==> WordsSearch(ConditionPatterns[k], text).None?
  {
    match FirstOf(ConditionPatterns, WordsSearcher(text), 0)
    case Some((_, m)) => Some(Capitalize(m))
    case None =>
      match Leftmost(SentenceMatcher(text), 0, |text|)
      case Some((_, sentence)) => Some(Strip(sentence))
      case None => None
  }

  // ---------------------------------------------------------------------------
  // What the extractors give on typical texts
  // ---------------------------------------------------------------------------

  lemma LeftmostIs<T>(f: nat -> Option<T>, n: nat, k: nat)
    requires k <= n && f(k).Some?
    requires forall j :: 0 <= j < k ==> f(j).None?
    ensures Leftmost(f, 0, n) == Some((k, f(k).value))
  {
  }

  lemma LeftmostNone<T>(f: nat -> Option<T>, n: nat)
    requires forall j :: 0 <= j <= n ==> f(j).None?
    ensures Leftmost(f, 0, n).None?
  {
  }

  lemma FirstOfIs<P, T>(ps: seq<P>, f: P -> Option<T>, k: nat)
    requires k < |ps| && f(ps[k]).Some?
    requires forall j :: 0 <= j < k ==> f(ps[j]).None?
    ensures FirstOf(ps, f, 0) == Some((k, f(ps[k]).value))
  {
  }

  /**
   * The Celsius patterns are tried in list order: when pattern `k` is the
   * first that matches anywhere in the text, its number is the temperature.
   */
  lemma ExtractTemperatureCelsius(text: string, k: nat)
    requires k < |CelsiusPatterns| && TempSearch(CelsiusPatterns[k], text).Some?
    requires forall j :: 0 <= j < k ==> TempSearch(CelsiusPatterns[j], text).None?
    ensures ExtractTemperature(text) == Some(DecimalValue(TempSearch(CelsiusPatterns[k], text).value))
  {
    FirstOfIs(CelsiusPatterns, TempSearcher(text), k);
  }

  /**
   * Only when no Celsius pattern matches are the Fahrenheit patterns tried, in
   * list order: the first that matches gives its number converted to Celsius
   * and rounded to one decimal.
   */
  lemma ExtractTemperatureFahrenheit(text: string, k: nat)
    requires forall j :: 0 <= j < |CelsiusPatterns| ==> TempSearch(CelsiusPatterns[j], text).None?
    requires k < |FahrenheitPatterns| && TempSearch(FahrenheitPatterns[k], text).Some?
    requires forall j :: 0 <= j < k ==> TempSearch(FahrenheitPatterns[j], text).None?
    ensures ExtractTemperature(text) ==
      Some(FahrenheitToCelsius(DecimalValue(TempSearch(FahrenheitPatterns[k], text).value)))
  {
    assert FirstOf(CelsiusPatterns, TempSearcher(text), 0).None?;
    FirstOfIs(FahrenheitPatterns, TempSearcher(text), k);
  }

  /**
   * The keyword alternations are tried in priority order: when alternation
   * `k` is the first found anywhere in the text, the condition is its leftmost
   * match, capitalised.
   */
  lemma ExtractConditionKeyword(text: string, k: nat)
    requires k < |ConditionPatterns| && WordsSearch(ConditionPatterns[k], text).Some?
    requires forall j :: 0 <= j < k ==> WordsSearch(ConditionPatterns[j], text).None?
    ensures ExtractCondition(text) == Some(Capitalize(WordsSearch(ConditionPatterns[k], text).value))
  {
    FirstOfIs(ConditionPatterns, WordsSearcher(text), k);
  }

  /**
   * With no keyword anywhere, the condition is the leftmost sentence that
   * mentions the weather or a condition, stripped.
   */
  lemma ExtractConditionSentence(text: string, i: nat)
    requires forall j :: 0 <= j < |ConditionPatterns| ==> WordsSearch(ConditionPatterns[j], text).None?
    requires i <= |text| && SentenceMatchAt(text, i).Some?
    requires forall j :: 0 <= j < i ==> SentenceMatchAt(text, j).None?
    ensures ExtractCondition(text) == Some(Strip(SentenceMatchAt(text, i).value))
  {
    assert FirstOf(ConditionPatterns, WordsSearcher(text), 0).None?;
    LeftmostIs(SentenceMatcher(text), |text|, i);
  }

  /** There is no condition exactly when no keyword alternation and no such sentence occurs. */
  lemma ExtractConditionNone(text: string)
    ensures ExtractCondition(text).None? <==>
      (forall j :: 0 <= j < |ConditionPatterns| ==> WordsSearch(ConditionPatterns[j], text).None?) &&
      (forall i :: 0 <= i <= |text| ==> SentenceMatchAt(text, i).None?)
  {
    NoKeyword(text);
    NoSentence(text);
  }

  lemma NoKeyword(text: string)
    ensures FirstOf(ConditionPatterns, WordsSearcher(text), 0).None? <==>
      forall j :: 0 <= j < |ConditionPatterns| ==> WordsSearch(ConditionPatterns[j], text).None?
  {
    var keyword := FirstOf(ConditionPatterns, WordsSearcher(text), 0);
    if keyword.Some? {
      assert WordsSearcher(text)(ConditionPatterns[keyword.value.0]).Some?;
    }
  }

  lemma NoSentence(text: string)
    ensures Leftmost(SentenceMatcher(text), 0, |text|).None? <==>
      forall i :: 0 <= i <= |text| ==> SentenceMatchAt(text, i).None?
  {
    var sentence := Leftmost(SentenceMatcher(text), 0, |text|);
    if sentence.Some? {
      var k := sentence.value.0;
      assert SentenceMatcher(text)(k) == SentenceMatchAt(text, k);
      assert 0 <= k <= |text| && SentenceMatchAt(text, k).Some?;
    } else {
      forall i | 0 <= i <= |text| ensures SentenceMatchAt(text, i).None? {
        assert SentenceMatcher(text)(i).None?;
      }
    }
  }



  /** A run of digits followed by a digit-free tail that starts with neither a digit nor a '.'. */
  predicate NumberThenTail(ds: string, tail: string) {
    ds != [] && (forall i :: 0 <= i < |ds| ==> IsDigit(ds[i])) &&
    tail != [] && tail[0] != '.' && forall i :: 0 <= i < |tail| ==> !IsDigit(tail[i])
  }

  lemma NumberEndInDigits(ds: string, tail: string, j: nat)
    requires NumberThenTail(ds, tail) && j <= |ds + tail|
    ensures j < |ds| ==> NumberEnd(ds + tail, j) == |ds|
    ensures j >= |ds| ==> NumberEnd(ds + tail, j) == j
  {
    var s := ds + tail;
    if j < |ds| {
      DigitsEndAt(s, j, |ds|);
    } else if j < |s| {
      assert s[j] == tail[j - |ds|];
    }
  }

  lemma OccursAfter(ds: string, tail: string, w: string)
    ensures OccursAtIgnoreCase(ds + tail, w, |ds|) <==> OccursAtIgnoreCase(tail, w, 0)
  {
    if |w| <= |tail| {
      assert (ds + tail)[|ds|..|ds| + |w|] == tail[0..|w|];
    }
  }

  /** A number-then-unit pattern on such a text finds the digits exactly when the tail starts with the unit. */
  lemma NumberThenSearch(ds: string, tail: string, unit: string)
    requires NumberThenTail(ds, tail)
    ensures TempSearch(NumberThen(unit), ds + tail) == if OccursAtIgnoreCase(tail, unit, 0) then Some(ds) else None
  {
    var s := ds + tail;
    var f := TempMatcher(NumberThen(unit), s);
    OccursAfter(ds, tail, unit);
    forall j: nat | j <= |s|
      ensures f(j) == if j < |ds| && OccursAtIgnoreCase(tail, unit, 0) then Some(s[j..|ds|]) else None
    {
      NumberEndInDigits(ds, tail, j);
    }
    if OccursAtIgnoreCase(tail, unit, 0) {
      LeftmostIs(f, |s|, 0);
      assert s[0..|ds|] == ds;
    } else {
      LeftmostNone(f, |s|);
    }
  }

  /** The tail does not start with the unit: their first `k + 1` letters differ at position k. */
  lemma UnitDiffers(tail: string, unit: string, k: nat)
    requires k < |unit| && k < |tail| && LowerChar(tail[k]) != LowerChar(unit[k])
    ensures !OccursAtIgnoreCase(tail, unit, 0)
  {
    NotOccurring(tail, unit, 0, k);
  }

  /** A word does not occur where one of its letters disagrees with the text. */
  lemma NotOccurring(s: string, w: string, i: nat, k: nat)
    requires k < |w| && i + k < |s| && LowerChar(s[i + k]) != LowerChar(w[k])
    ensures !OccursAtIgnoreCase(s, w, i)
  {
    assert i + |w| <= |s| ==> Lower(s[i..i + |w|])[k] == LowerChar(s[i + k]);
  }

  lemma NoLeadAt(s: string, j: nat)
    requires j <= |s|
    requires forall i :: 0 <= i < |s| ==> LowerChar(s[i]) != 'm'
    ensures NumberAfterLead(["temperature is ", "temperature of "], s, j, 0).None?
  {
    var leads := ["temperature is ", "temperature of "];
    if j + 2 < |s| {
      NotOccurring(s, leads[0], j, 2);
      NotOccurring(s, leads[1], j, 2);
    }
  }

  /** The lead-in pattern cannot match a text in which no letter is an 'm' (both lead-ins have one as their third letter). */
  lemma LeadSearchNeedsM(s: string)
    requires forall i :: 0 <= i < |s| ==> LowerChar(s[i]) != 'm'
    ensures TempSearch(CelsiusPatterns[4], s).None?
  {
    var f := TempMatcher(CelsiusPatterns[4], s);
    forall j | 0 <= j <= |s| ensures f(j).None? {
      NoLeadAt(s, j);
    }
    LeftmostNone(f, |s|);
  }

  lemma NoMIn(ds: string, tail: string)
    requires forall i :: 0 <= i < |ds| ==> IsDigit(ds[i])
    requires forall i :: 0 <= i < |tail| ==> LowerChar(tail[i]) != 'm'
    ensures forall i :: 0 <= i < |ds + tail| ==> LowerChar((ds + tail)[i]) != 'm'
  {
    forall i | 0 <= i < |ds + tail| ensures LowerChar((ds + tail)[i]) != 'm' {
      if i >= |ds| {
        assert (ds + tail)[i] == tail[i - |ds|];
      }
    }
  }

  /** "<n>°F" has no Celsius reading, so the Fahrenheit value is converted. */
  lemma FahrenheitSymbolConverted(n: nat)
    ensures ExtractTemperature(NatToString(n) + [Degree, 'F']) == Some(FahrenheitToCelsius(n as real))
  {
    var ds := NatToString(n);
    var tail := [Degree, 'F'];
    var s := ds + tail;
    assert NumberThenTail(ds, tail);
    forall k | 0 <= k < |CelsiusPatterns| ensures TempSearcher(s)(CelsiusPatterns[k]).None? {
      if k == 4 {
        NoMIn(ds, tail);
        LeadSearchNeedsM(s);
      } else {
        var unit := CelsiusPatterns[k].unit;
        NumberThenSearch(ds, tail, unit);
        if k == 0 {
          UnitDiffers(tail, unit, 1);
        } else {
          UnitDiffers(tail, unit, 0);
        }
      }
    }
    NumberThenSearch(ds, tail, FahrenheitPatterns[0].unit);
    assert tail[0..2] == FahrenheitPatterns[0].unit;
    FirstOfIs(FahrenheitPatterns, TempSearcher(s), 0);
    DecimalOfDigits(n);
  }

  /** The bare " degrees" pattern is a Celsius pattern, so "<n> degrees Fahrenheit" reads as n degrees Celsius. */
  lemma DegreesFahrenheitReadAsCelsius(n: nat)
    ensures ExtractTemperature(NatToString(n) + " degrees Fahrenheit") == Some(n as real)
  {
    var tail := " degrees Fahrenheit";
    assert NumberThenTail(NatToString(n), tail);
    DegreesTail(NatToString(n), tail);
    DecimalOfDigits(n);
  }

  lemma DegreesTail(ds: string, tail: string)
    requires tail == " degrees Fahrenheit" && NumberThenTail(ds, tail)
    ensures ExtractTemperature(ds + tail) == Some(DecimalValue(ds))
  {
    var s := ds + tail;
    forall k | 0 <= k < 5 ensures TempSearcher(s)(CelsiusPatterns[k]).None? {
      DegreesFahrenheitSkips(ds, k);
    }
    var unit := " degrees";
    assert CelsiusPatterns[5] == NumberThen(unit);
    NumberThenSearch(ds, tail, unit);
    assert tail[0..8] == unit;
    FirstOfIs(CelsiusPatterns, TempSearcher(s), 5);
  }

  lemma DegreesFahrenheitSkips(ds: string, k: nat)
    requires NumberThenTail(ds, " degrees Fahrenheit") && k < 5
    ensures TempSearch(CelsiusPatterns[k], ds + " degrees Fahrenheit").None?
  {
    var tail := " degrees Fahrenheit";
    if k == 4 {
      TailLetters();
      LeadSkipped(ds, tail);
    } else if k == 0 {
      UnitSkipped(ds, tail, [Degree, 'C'], 0);
    } else if k == 1 {
      UnitSkipped(ds, tail, [' ', Degree, 'C'], 1);
    } else if k == 2 {
      UnitSkipped(ds, tail, " degrees Celsius", 9);
    } else {
      UnitSkipped(ds, tail, " Celsius", 1);
    }
  }

  lemma TailLetters()
    ensures forall i :: 0 <= i < |" degrees Fahrenheit"| ==> LowerChar(" degrees Fahrenheit"[i]) != 'm'
  {
  }

  /** A number-then-unit pattern finds nothing when the tail disagrees with the unit. */
  lemma UnitSkipped(ds: string, tail: string, unit: string, k: nat)
    requires NumberThenTail(ds, tail)
    requires k < |unit| && k < |tail| && LowerChar(tail[k]) != LowerChar(unit[k])
    ensures TempSearch(NumberThen(unit), ds + tail).None?
  {
    NumberThenSearch(ds, tail, unit);
    UnitDiffers(tail, unit, k);
  }

  lemma LeadSkipped(ds: string, tail: string)
    requires forall i :: 0 <= i < |ds| ==> IsDigit(ds[i])
    requires forall i :: 0 <= i < |tail| ==> LowerChar(tail[i]) != 'm'
    ensures TempSearch(CelsiusPatterns[4], ds + tail).None?
  {
    NoMIn(ds, tail);
    LeadSearchNeedsM(ds + tail);
  }

  lemma DecimalOfDigits(n: nat)
    ensures DecimalValue(NatToString(n)) == n as real
  {
    NatToStringValue(n);
    LeadingDigitsOfDigits(NatToString(n), []);
    assert NatToString(n) + [] == NatToString(n);
  }

  /** 77°F is 25.0 degrees Celsius. */
  lemma SeventySevenFahrenheit()
    ensures ExtractTemperature("77" + [Degree, 'F']) == Some(25.0)
  {
    assert NatToString(77) == "77";
    FahrenheitSymbolConverted(77);
    assert (77.0 - 32.0) * 5.0 / 9.0 == Tenths(250);
    Round1Exact(250);
  }

  lemma Round1Exact(n: int)
    ensures Round1(Tenths(n)) == Tenths(n)
  {
    var r := Round1(Tenths(n));
    var m: int :| r == Tenths(m);
    assert Distance(r, Tenths(n)) <= Distance(Tenths(n), Tenths(n));
  }

  lemma NoSunnyAt(s: string, j: nat)
    requires j < |s| && LowerChar(s[j]) != 's' && LowerChar(s[j]) != 'c'
    ensures WordsMatchAt(ConditionPatterns[0], s, j, 0).None?
  {
    var words := ConditionPatterns[0];
    assert words[0][0] == 's' && words[1][0] == 'c' && words[2][0] == 'c';
    NotOccurring(s, words[0], j, 0);
    NotOccurring(s, words[1], j, 0);
    NotOccurring(s, words[2], j, 0);
  }

  /**
   * "sunny" outranks every other keyword: in a text whose first "sunny" is
   * preceded by no 's' or 'c' (so no earlier sunny/clear match), the
   * condition is "Sunny" whatever else the text says, e.g. "hot and sunny".
   */
  lemma SunnyWins(prefix: string, rest: string)
    requires forall i :: 0 <= i < |prefix| ==> LowerChar(prefix[i]) != 's' && LowerChar(prefix[i]) != 'c'
    ensures ExtractCondition(prefix + "sunny" + rest) == Some("Sunny")
  {
    var s := prefix + "sunny" + rest;
    var f := WordsMatcher(ConditionPatterns[0], s);
    forall j | 0 <= j < |prefix| ensures f(j).None? {
      assert s[j] == prefix[j];
      NoSunnyAt(s, j);
    }
    assert s[|prefix|..|prefix| + 5] == "sunny";
    assert f(|prefix|) == Some("sunny");
    LeftmostIs(f, |s|, |prefix|);
    FirstOfIs(ConditionPatterns, WordsSearcher(s), 0);
    CapitalizeSunny();
  }

  lemma CapitalizeSunny()
    ensures Capitalize("sunny") == "Sunny"
  {
    assert Lower("unny") == "unny";
  }

  lemma HotAndSunny(text: string)
    requires text == "hot and sunny"
    ensures ExtractCondition(text) == Some("Sunny")
  {
    var prefix := "hot and ";
    HotAndLetters(prefix);
    assert prefix + "sunny" + "" == text;
    SunnyWins(prefix, "");
  }

  lemma HotAndLetters(prefix: string)
    requires prefix == "hot and "
    ensures forall i :: 0 <= i < |prefix| ==> LowerChar(prefix[i]) != 's' && LowerChar(prefix[i]) != 'c'
  {
  }

  // ---------------------------------------------------------------------------
  // parse_weather_from_search_results and get_weather_for_location
  // ---------------------------------------------------------------------------

  /** One search hit; only its `content` field is read. */
  datatype SearchItem = SearchItem(content: Option<string>)

  /** The decoded JSON body of a search reply; `results` is absent when the key is missing. */
  datatype SearchResponse = SearchResponse(results: Option<seq<SearchItem>>)

  /**
   * What the search request came to: an HTTP status with its body (None when
   * the body is not valid JSON, so decoding it raises), or an exception raised
   * while sending the request.
   */
  datatype SearchOutcome = Http(status: int, body: Option<SearchResponse>) | Raised(error: string)

  /** The text scanned for weather: every hit's content followed by one space, in order. */
  function ContentText(items: seq<SearchItem>): string {
    if items == [] then ""
    else
      var last := items[|items| - 1];
      ContentText(items[..|items| - 1]) + (if last.content.Some? then last.content.value + " " else "")
  }

  /** The scanned text of a concatenation of hit lists is the concatenation of their texts. */
  lemma {:induction false} ContentTextAppend(a: seq<SearchItem>, b: seq<SearchItem>)
    ensures ContentText(a + b) == ContentText(a) + ContentText(b)
    decreases |b|
  {
    if b != [] {
      var b' := b[..|b| - 1];
      assert (a + b)[..|a + b| - 1] == a + b';
      ContentTextAppend(a, b');
    } else {
      assert a + b == a;
    }
  }

  /** Each hit with content contributes exactly its content and a space; a hit without content contributes nothing. */
  lemma ContentTextSingle(item: SearchItem)
    ensures ContentText([item]) == if item.content.Some? then item.content.value + " " else ""
  {
    assert [item][..0] == [];
  }

  function AllText(response: SearchResponse): string {
    match response.results
    case None => ""
    case Some(items) => ContentText(items)
  }

  /**
   * The weather parsed from a search reply: each of the two fields is the
   * value extracted from the hits' text when there is one, and the fallback
   * entry's only when there is not; the source is "tavily" even when both
   * fields fell back.
   */
  function ParsedWeather(response: SearchResponse, location: string): (w: Weather)
    ensures w.dataSource == Some("tavily")
    ensures var t := ExtractTemperature(AllText(response));
      w.tempC == if t.Some? then t.value else FallbackWeather(location).tempC
    ensures var c := ExtractCondition(AllText(response));
      w.condition == if c.Some? then c.value else FallbackWeather(location).condition
  {
    var text := AllText(response);
    var fallback := FallbackWeather(location);
    Weather(ExtractTemperature(text).GetOr(fallback.tempC), ExtractCondition(text).GetOr(fallback.condition), Some("tavily"))
  }

  /** `parse_weather_from_search_results`: gathers the hits' text in one pass, then extracts and merges. */
  method ParseSearchResults(response: SearchResponse, location: string) returns (w: Weather)
    ensures w == ParsedWeather(response, location)
  {
    var allText := "";
    if response.results.Some? {
      var items := response.results.value;
      for i := 0 to |items|
        invariant allText == ContentText(items[..i])
      {
        assert items[..i + 1][..i] == items[..i];
        if items[i].content.Some? {
          allText := allText + items[i].content.value + " ";
        }
      }
      assert items[..|items|] == items;
    }
    var temp := ExtractTemperature(allText);
    var condition := ExtractCondition(allText);
    var fallback := FallbackWeather(location);
    if temp.None? || condition.None? {
      temp := Some(temp.GetOr(fallback.tempC));
      condition := Some(condition.GetOr(fallback.condition));
    }
    w := Weather(temp.value, condition.value, Some("tavily"));
  }

  /** The search query sent for a location. */
  function Query(location: string): string {
    "current weather in " + location + " temperature celsius"
  }

  /** The reply is used only when the key is set, the status is 200 and the body decodes. */
  predicate Usable(apiKey: Option<string>, outcome: SearchOutcome) {
    KeyConfigured(apiKey) && outcome.Http? && outcome.status == 200 && outcome.body.Some?
  }

  /** What `get_weather_for_location` returns for a given search outcome. */
  function WeatherFor(location: string, apiKey: Option<string>, outcome: SearchOutcome): (w: Weather)
    ensures w.dataSource.Some? <==> Usable(apiKey, outcome)
    ensures !Usable(apiKey, outcome) ==> w == FallbackWeather(location)
  {
    if Usable(apiKey, outcome) then ParsedWeather(outcome.body.value, location)
    else FallbackWeather(location)
  }

  /**
   * `get_weather_for_location`: without a key, returns the fallback entry
   * without searching; otherwise searches and parses a 200 reply, and falls
   * back on any other status or on an exception (it never raises).
   */
  method GetWeatherForLocation(location: string, apiKey: Option<string>, search: string -> SearchOutcome)
    returns (w: Weather)
    ensures w == WeatherFor(location, apiKey, search(Query(location)))
  {
    if !KeyConfigured(apiKey) {
      return FallbackWeather(location);
    }
    var outcome := search(Query(location));
    match outcome
    case Raised(_) =>
      w := FallbackWeather(location);
    case Http(status, body) =>
      if status == 200 && body.Some? {
        w := ParseSearchResults(body.value, location);
      } else {
        w := FallbackWeather(location);
      }
  }
}
