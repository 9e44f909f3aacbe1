/** The language catalog and the selector's lookup with its English fallback. */
module LanguageSelector {
  import opened Wrappers

  datatype Language = Language(code: string, name: string, native: string)

  /** The catalog, in display order; the first entry is the fallback. */
  const Catalog: seq<Language> := [
    Language("english", "English", "English"),
    Language("hindi", "Hindi", "हिंदी"),
    Language("tamil", "Tamil", "தமிழ்"),
    Language("telugu", "Telugu", "తెలుగు"),
    Language("bengali", "Bengali", "বাংলা"),
    Language("marathi", "Marathi", "मराठी"),
    Language("gujarati", "Gujarati", "ગુજરાતી"),
    Language("kannada", "Kannada", "ಕನ್ನಡ"),
    Language("malayalam", "Malayalam", "മലയാളം"),
    Language("punjabi", "Punjabi", "ਪੰਜਾਬੀ"),
    Language("odia", "Odia", "ଓଡ଼ିଆ"),
    Language("assamese", "Assamese", "অসমীয়া")
  ]

  /** Codes serve as item keys, so no two entries may share one. */
  predicate DistinctCodes(langs: seq<Language>) {
    forall i, j :: 0 <= i < j < |langs| ==> langs[i].code != langs[j].code
  }

  lemma CatalogShape()
    ensures |Catalog| == 12
    ensures Catalog[0].code == "english"
    ensures DistinctCodes(Catalog)
  {
  }

  /** `langs.findIndex(l => l.code == code)` offset by `from`: the first matching index at or after `from`. */
  function FindFrom(langs: seq<Language>, code: string, from: nat): (r: Option<nat>)
    requires from <= |langs|
    ensures r.Some? ==> from <= r.value < |langs| && langs[r.value].code == code
    ensures r.Some? ==> forall j :: from <= j < r.value ==> langs[j].code != code
    ensures r.None? ==> forall j :: from <= j < |langs| ==> langs[j].code != code
    decreases |langs| - from
  {
    if from == |langs| then None
    else if langs[from].code == code then Some(from)
    else FindFrom(langs, code, from + 1)
  }

  /** `languages.find(lang => lang.code === code) || languages[0]`. */
  function Lookup(code: string): (r: Language)
    ensures r in Catalog
    ensures (exists i :: 0 <= i < |Catalog| && Catalog[i].code == code) ==> r.code == code
    ensures (forall i :: 0 <= i < |Catalog| ==> Catalog[i].code != code) ==> r == Catalog[0]
  {
    match FindFrom(Catalog, code, 0)
    case Some(i) => Catalog[i]
    case None => Catalog[0]
  }

  /** Every catalog entry is found by its own code: no entry shadows another. */
  lemma LookupFindsEveryEntry(i: nat)
    requires i < |Catalog|
    ensures Lookup(Catalog[i].code) == Catalog[i]
  {
    CatalogShape();
    var r := FindFrom(Catalog, Catalog[i].code, 0);
    assert r == Some(i);
  }

  /** An unknown code shows English. */
  lemma LookupUnknownIsEnglish(code: string)
    requires code !in {"english", "hindi", "tamil", "telugu", "bengali", "marathi",
                       "gujarati", "kannada", "malayalam", "punjabi", "odia", "assamese"}
    ensures Lookup(code) == Language("english", "English", "English")
  {
  }
}
