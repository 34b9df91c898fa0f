/** The country resolver of the client import (`COUNTRY_MAP`, `mapCountry`). */
module CountryResolver {
  import opened Wrappers
  import opened JsValues

  /** `COUNTRY_MAP`: lower-case English names and two-letter codes to the
      CRM's country names. */
  const CountryMap: map<string, string> := map[
    "russian federation" := "Россия", "ru" := "Россия", "russia" := "Россия",
    "kazakhstan" := "Казахстан", "kz" := "Казахстан",
    "belarus" := "Беларусь", "by" := "Беларусь", "belarussian" := "Беларусь",
    "uzbekistan" := "Узбекистан", "uz" := "Узбекистан",
    "ukraine" := "Украина", "ua" := "Украина",
    "armenia" := "Армения", "am" := "Армения",
    "georgia" := "Грузия", "ge" := "Грузия",
    "azerbaijan" := "Азербайджан", "az" := "Азербайджан",
    "kyrgyzstan" := "Киргизия", "kyrgyz" := "Киргизия", "kg" := "Киргизия",
    "tajikistan" := "Таджикистан", "tj" := "Таджикистан",
    "turkmenistan" := "Туркменистан", "tm" := "Туркменистан"
  ]

  /** The eleven country names the table maps to. */
  const CanonicalNames: set<string> := {
    "Россия", "Казахстан", "Беларусь", "Узбекистан", "Украина", "Армения",
    "Грузия", "Азербайджан", "Киргизия", "Таджикистан", "Туркменистан"
  }

  /** Every value of the table is one of the eleven canonical names, and
      none of them is empty. */
  lemma TableValues()
    ensures forall key :: key in CountryMap ==> CountryMap[key] in CanonicalNames
    ensures forall c :: c in CanonicalNames ==> c != ""
  {
  }

  /** The country a client-import deal gets when the row names none. */
  const DefaultCountry: string := "Россия"

  /** `(row.country || row.country_code || '').toString().trim().toLowerCase()`. */
  function CountryKey(row: Row): string {
    Lower(Trim(Text(FirstTruthy([Get(row, "country"), Get(row, "country_code")], Str("")))))
  }

  /** `mapCountry`: `None` for a row without country text; otherwise the
      canonical name when the table has the text, else the text itself. */
  function MapCountry(row: Row): (r: Option<string>)
    ensures r.None? <==> CountryKey(row) == ""
    ensures r.Some? && CountryKey(row) in CountryMap ==> r.value == CountryMap[CountryKey(row)]
    ensures r.Some? && CountryKey(row) !in CountryMap ==> r.value == CountryKey(row)
  {
    var key := CountryKey(row);
    if key == "" then None
    else if key in CountryMap then Some(CountryMap[key])
    else Some(key)
  }

  /** The key `mapCountry` looks up has no upper-case letter and no white
      space at its ends. */
  lemma CountryKeyShape(row: Row)
    requires CountryKey(row) != ""
    ensures var k := CountryKey(row);
      Lower(k) == k && !IsSpace(k[0]) && !IsSpace(k[|k| - 1])
  {
    var t := Trim(Text(FirstTruthy([Get(row, "country"), Get(row, "country_code")], Str(""))));
    LowerIdempotent(t);
    LowerCharSpace(t[0]);
    LowerCharSpace(t[|t| - 1]);
  }

  /** Every text `mapCountry` returns is non-empty, and is either one of the
      canonical names or the lower-cased, trimmed text of the row. */
  lemma MapCountryRange(row: Row)
    requires MapCountry(row).Some?
    ensures var c := MapCountry(row).value;
      c != "" &&
      (c in CanonicalNames ||
       (c == CountryKey(row) && Lower(c) == c && !IsSpace(c[0]) && !IsSpace(c[|c| - 1])))
  {
    TableValues();
    CountryKeyShape(row);
  }

  /** For a row whose `country` cell holds `text`, stripped of its ends'
      white space, `mapCountry` looks up the lower case of `text`. */
  lemma CountryKeyOfCell(text: string)
    requires text != [] ==> !IsSpace(text[0]) && !IsSpace(text[|text| - 1])
    ensures CountryKey(map["country" := Str(text)]) == Lower(text)
  {
    var row := map["country" := Str(text)];
    if text == "" {
      assert FirstTruthy([Get(row, "country"), Get(row, "country_code")], Str("")) == Str("");
    } else {
      assert FirstTruthy([Get(row, "country"), Get(row, "country_code")], Str("")) == Str(text);
    }
    TrimNoEdgeSpace(text);
  }

  /** The lower-case forms of the sample texts below. */
  lemma SampleLowerCase()
    ensures Lower("RU") == "ru" && Lower("Peru") == "peru"
    ensures Lower("Россия") == "россия" && Lower("Constructor") == "constructor"
  {
  }

  /** Which of the sample keys the table has. */
  lemma SampleLookups()
    ensures "ru" in CountryMap && CountryMap["ru"] == "Россия"
    ensures "peru" !in CountryMap && "россия" !in CountryMap && "constructor" !in CountryMap
  {
  }

  /** A code in upper case resolves to its canonical name. */
  lemma MapCountryOfCode()
    ensures MapCountry(map["country" := Str("RU")]) == Some("Россия")
  {
    CountryKeyOfCell("RU");
    SampleLowerCase();
    SampleLookups();
  }

  /** An unknown name passes through lower-cased. */
  lemma MapCountryOfUnknownName()
    ensures MapCountry(map["country" := Str("Peru")]) == Some("peru")
  {
    CountryKeyOfCell("Peru");
    SampleLowerCase();
    SampleLookups();
  }

  /** A row without country text resolves to `None`. */
  lemma MapCountryOfNothing()
    ensures MapCountry(map["country" := Str("")]) == None
    ensures MapCountry(map[]) == None
  {
    CountryKeyOfCell("");
    assert FirstTruthy([Get(map[], "country"), Get(map[], "country_code")], Str("")) == Str("");
  }

  /** `country_code` is consulted only when `country` is falsy. */
  lemma CountryCodeFallback(row: Row)
    requires !Truthy(Get(row, "country"))
    ensures CountryKey(row) == Lower(Trim(Text(FirstTruthy([Get(row, "country_code")], Str("")))))
  {
  }

  /** The canonical names are not keys of the table, so resolving a country
      twice is not resolving it once: "Россия" comes back lower-cased. */
  lemma CanonicalNameIsNotAKey()
    ensures MapCountry(map["country" := Str("Россия")]) == Some("россия")
  {
    CountryKeyOfCell("Россия");
    SampleLowerCase();
    SampleLookups();
  }

  // ----------------------------------------------------------------- finding
  // `COUNTRY_MAP[raw]` is a property read on a plain object literal, so it
  // also finds the properties every object inherits. The two whose names
  // are already lower case are below; for them the source returns an
  // object, not a country name.

  const InheritedKeys: set<string> := {"constructor", "__proto__"}

  /** What the property read yields: text, or an inherited JavaScript object. */
  datatype CountryValue = Name(text: string) | InheritedMember(key: string)

  /** `mapCountry` as the source writes it. */
  function MapCountryAsWritten(row: Row): (r: Option<CountryValue>)
    ensures r.None? <==> CountryKey(row) == ""
  {
    var key := CountryKey(row);
    if key == "" then None
    else if key in CountryMap then Some(Name(CountryMap[key]))
    else if key in InheritedKeys then Some(InheritedMember(key))
    else Some(Name(key))
  }

  /** The discrepancy: a country cell "Constructor" resolves to the
      `Object` constructor instead of passing through as text. */
  lemma InheritedKeyCounterexample()
    ensures MapCountryAsWritten(map["country" := Str("Constructor")]) == Some(InheritedMember("constructor"))
    ensures MapCountry(map["country" := Str("Constructor")]) == Some("constructor")
  {
    CountryKeyOfCell("Constructor");
    SampleLowerCase();
    SampleLookups();
  }

  /** Outside the inherited names, the source and the model agree. */
  lemma AsWrittenAgreesElsewhere(row: Row)
    requires CountryKey(row) !in InheritedKeys
    ensures MapCountryAsWritten(row) ==
      match MapCountry(row) case None => None case Some(c) => Some(Name(c))
  {
  }
}
