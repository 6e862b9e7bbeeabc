/** The interface language: the translation tables and `changeLanguage`. */
module Translations {
  import opened Wrappers

  /** The Arabic table. */
  const Arabic: map<string, string> := map[
    "loading" := "جاري التحميل...",
    "app_title" := "GAIA-Scout Pro",
    "locate_me" := "حدد موقعي",
    "login" := "دخول",
    "locating" := "جاري تحديد الموقع...",
    "detected" := "مكتشف",
    "confidence" := "الثقة",
    "depth" := "العمق",
    "upload_image" := "رفع صورة",
    "gpr_controls" := "ضوابط GPR",
    "shallow" := "سطحي",
    "medium" := "متوسط",
    "deep" := "عميق",
    "map" := "الخريطة",
    "sync_location" := "مزامنة الموقع",
    "analysis" := "التحليل",
    "soil_type" := "نوع التربة",
    "probability" := "الاحتمالية",
    "period" := "الفترة",
    "discoveries" := "الاكتشافات",
    "detailed_report" := "تقرير تفصيلي",
    "sign_in" := "تسجيل الدخول",
    "historical_period" := "العصر الروماني",
    "analysis_complete" := "اكتمل التحليل",
    "kmz_synced" := "تمت مزامنة الموقع مع الخريطة",
    "permission_required" := "مطلوب إذن الوصول للموقع"
  ]

  /** The French table. */
  const French: map<string, string> := map[
    "loading" := "Chargement...",
    "app_title" := "GAIA-Scout Pro",
    "locate_me" := "Me localiser",
    "login" := "Connexion",
    "locating" := "Localisation en cours...",
    "detected" := "Détecté",
    "confidence" := "Confiance",
    "depth" := "Profondeur",
    "upload_image" := "Télécharger image",
    "gpr_controls" := "Contrôles GPR",
    "shallow" := "Superficiel",
    "medium" := "Moyen",
    "deep" := "Profond",
    "map" := "Carte",
    "sync_location" := "Sync Position",
    "analysis" := "Analyse",
    "soil_type" := "Type de sol",
    "probability" := "Probabilité",
    "period" := "Période",
    "discoveries" := "Découvertes",
    "detailed_report" := "Rapport détaillé",
    "sign_in" := "Se connecter",
    "historical_period" := "Période romaine",
    "analysis_complete" := "Analyse complète",
    "kmz_synced" := "Position synchronisée avec la carte",
    "permission_required" := "Permission d'accès à la position requise"
  ]

  /** The English table. */
  const English: map<string, string> := map[
    "loading" := "Loading...",
    "app_title" := "GAIA-Scout Pro",
    "locate_me" := "Locate Me",
    "login" := "Login",
    "locating" := "Locating...",
    "detected" := "Detected",
    "confidence" := "Confidence",
    "depth" := "Depth",
    "upload_image" := "Upload Image",
    "gpr_controls" := "GPR Controls",
    "shallow" := "Shallow",
    "medium" := "Medium",
    "deep" := "Deep",
    "map" := "Map",
    "sync_location" := "Sync Location",
    "analysis" := "Analysis",
    "soil_type" := "Soil Type",
    "probability" := "Probability",
    "period" := "Period",
    "discoveries" := "Discoveries",
    "detailed_report" := "Detailed Report",
    "sign_in" := "Sign In",
    "historical_period" := "Roman Period",
    "analysis_complete" := "Analysis Complete",
    "kmz_synced" := "Location synced with map",
    "permission_required" := "Location access permission required"
  ]

  /** `translations`: language code to table. Any other code has no table. */
  const Tables: map<string, map<string, string>> := map["ar" := Arabic, "fr" := French, "en" := English]

  /** The application title, the same in every language. */
  const AppTitle: string := "GAIA-Scout Pro"

  /** The three tables translate the same keys. */
  lemma TablesShareKeys()
    ensures Arabic.Keys == French.Keys == English.Keys
    ensures forall lang :: lang in Tables ==> Tables[lang].Keys == English.Keys
  {
  }

  /** No entry of the table is empty text. */
  predicate NoEmptyText(table: map<string, string>)
  {
    forall key :: key in table ==> table[key] != ""
  }

  lemma ArabicHasNoEmptyText() ensures NoEmptyText(Arabic) {}
  lemma FrenchHasNoEmptyText() ensures NoEmptyText(French) {}
  lemma EnglishHasNoEmptyText() ensures NoEmptyText(English) {}

  /** Every entry of every table is a non-empty text, so every lookup of a known key succeeds. */
  lemma NoEmptyEntries()
    ensures forall lang :: lang in Tables ==> NoEmptyText(Tables[lang])
  {
    ArabicHasNoEmptyText();
    FrenchHasNoEmptyText();
    EnglishHasNoEmptyText();
  }

  /** `app_title` is the same in every language. */
  lemma AppTitleEverywhere()
    ensures forall lang :: lang in Tables ==> "app_title" in Tables[lang] && Tables[lang]["app_title"] == AppTitle
  {
  }

  /** `document.documentElement.dir`: right-to-left for Arabic only. */
  function Direction(lang: string): (dir: string)
    ensures dir == "rtl" <==> lang == "ar"
    ensures dir == "ltr" <==> lang != "ar"
  {
    if lang == "ar" then "rtl" else "ltr"
  }

  /** An element marked with `data-translate`: its key and its current text. */
  datatype Element = Element(key: string, text: string)

  /** `translations[lang][key]` when it is truthy, i.e. present and non-empty. */
  function Lookup(table: map<string, string>, key: string): (r: Option<string>)
    ensures r.Some? <==> key in table && table[key] != ""
    ensures r.Some? ==> r.value == table[key]
  {
    if key in table && table[key] != "" then Some(table[key]) else None
  }

  /** One element after a language change: the table's text if it has one for the key,
      otherwise the element as it was. */
  function Translated(e: Element, table: map<string, string>): (r: Element)
    ensures r.key == e.key
    ensures Lookup(table, e.key).Some? ==> r.text == table[e.key]
    ensures Lookup(table, e.key).None? ==> r == e
  {
    match Lookup(table, e.key)
    case Some(text) => Element(e.key, text)
    case None => e
  }

  /** Every element translated on its own; no element's text depends on another's. */
  function TranslateAll(es: seq<Element>, table: map<string, string>): (r: seq<Element>)
    ensures |r| == |es|
    ensures forall k :: 0 <= k < |es| ==> r[k] == Translated(es[k], table)
  {
    if es == [] then [] else [Translated(es[0], table)] + TranslateAll(es[1..], table)
  }

  /** Switching to `first` and then to `second` leaves the same texts as switching to `second`
      directly: the tables share their keys and have no empty entries, so a later language
      overwrites every text an earlier one wrote. */
  lemma LastLanguageWins(es: seq<Element>, first: string, second: string)
    requires first in Tables && second in Tables
    ensures TranslateAll(TranslateAll(es, Tables[first]), Tables[second]) == TranslateAll(es, Tables[second])
  {
    TablesShareKeys();
    NoEmptyEntries();
    var once := TranslateAll(es, Tables[first]);
    forall k | 0 <= k < |es|
      ensures Translated(once[k], Tables[second]) == Translated(es[k], Tables[second])
    {
      assert once[k].key == es[k].key;
      assert es[k].key in Tables[first] <==> es[k].key in Tables[second];
    }
  }

  /** The page state `changeLanguage` changes. */
  class Page {
    /** The module-level `currentLanguage`. */
    var currentLanguage: string
    /** `document.documentElement.lang` and `.dir`. */
    var docLang: string
    var docDir: string
    /** The elements `querySelectorAll('[data-translate]')` finds, in document order. */
    var elements: seq<Element>

    /** A page with the given document attributes and elements, before any change of language. */
    constructor (lang: string, dir: string, es: seq<Element>)
      ensures currentLanguage == "ar" && docLang == lang && docDir == dir && elements == es
    {
      currentLanguage := "ar";
      docLang := lang;
      docDir := dir;
      elements := es;
    }

    /** `changeLanguage(lang)`. The language and direction are set first; with an unknown code the
        lookup of the first element then throws (`ok` is false) and no text changes. */
    method ChangeLanguage(lang: string) returns (ok: bool)
      modifies this
      ensures currentLanguage == lang && docLang == lang && docDir == Direction(lang)
      ensures ok <==> lang in Tables || old(elements) == []
      ensures elements == if lang in Tables then TranslateAll(old(elements), Tables[lang]) else old(elements)
    {
      currentLanguage := lang;
      docLang := lang;
      docDir := Direction(lang);
      if lang !in Tables {
        ok := elements == [];
        return;
      }
      var table := Tables[lang];
      ghost var before := elements;
      var i := 0;
      while i < |elements|
        modifies this`elements
        invariant |elements| == |before| && 0 <= i <= |before|
        invariant forall k :: 0 <= k < i ==> elements[k] == Translated(before[k], table)
        invariant forall k :: i <= k < |before| ==> elements[k] == before[k]
      {
        var key := elements[i].key;
        match Lookup(table, key) {
          case Some(text) => elements := elements[i := Element(key, text)];
          case None =>
        }
        i := i + 1;
      }
      ok := true;
    }
  }
}
