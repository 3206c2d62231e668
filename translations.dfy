/** The page's three-language translation table and the code that applies it
    to every element tagged with a `data-translate` key. The DOM is abstracted
    into an array of tagged elements in document order, the language
    `<select>` into a string field, and the browser's `localStorage` into one
    optional string slot for the key "lang". */
module Translations {

  datatype Option<T> = None | Some(value: T)

  /** A tagged element: the value of its `data-translate` attribute and its
      current text content. */
  datatype Element = Element(key: string, text: string)

  /** The static translation table: language code to UI key to text. */
  const Table: map<string, map<string, string>> := map[
    "en" := map[
      "title" := "Our Location",
      "getLocation" := "Get Location",
      "subtitle" := "Navoi region, Karmana district, Old city, opposite the Telegraph",
      "footer" := "Powered by: Nurali Vafoyev"
    ],
    "uz" := map[
      "title" := "Bizning joylashuvimiz",
      "getLocation" := "Joylashuvni Aniqlash",
      "subtitle" := "Navoiy viloyati, Karmana tumani, Eski shahar, Telegraf ro'parasida",
      "footer" := "Nurali Vafoyev tomonidan yaratildi"
    ],
    "ru" := map[
      "title" := "Наше местоположение",
      "getLocation" := "Определить Местоположение",
      "subtitle" := "Навоийская область, Корманский район, Старый город, напротив Телеграфа",
      "footer" := "Создано Нурали Вафоевым"
    ]
  ]

  /** The UI keys every language of the table defines. */
  const UiKeys: set<string> := {"title", "getLocation", "subtitle", "footer"}

  /** `translations[lang]` is truthy: the code is a language of the table. */
  predicate Supported(lang: string) {
    lang in Table
  }

  /** The guard in front of the overwrite: the table has the language and a
      truthy entry for the key (a string is truthy when it is non-empty). */
  predicate HasTranslation(lang: string, key: string) {
    lang in Table && key in Table[lang] && Table[lang][key] != ""
  }

  /** One element after applying `lang`: its text is overwritten when the
      guard holds. */
  function Translate(e: Element, lang: string): Element {
    if HasTranslation(lang, e.key) then e.(text := Table[lang][e.key]) else e
  }

  /** The effect of applying `lang` to the tagged elements `s`, in document
      order; it keeps the number of elements. */
  function ApplyAll(s: seq<Element>, lang: string): (r: seq<Element>)
    ensures |r| == |s|
  {
    if s == [] then [] else [Translate(s[0], lang)] + ApplyAll(s[1..], lang)
  }

  /** What applying `lang` does to the element at position `i`: its key is
      kept; its text becomes the table entry when the table has the language
      and a non-empty entry for the key, and is kept otherwise (unknown
      language, missing key, empty entry). */
  lemma {:induction false} ApplyAllAt(s: seq<Element>, lang: string, i: int)
    requires 0 <= i < |s|
    ensures ApplyAll(s, lang)[i].key == s[i].key
    ensures HasTranslation(lang, s[i].key) ==> ApplyAll(s, lang)[i].text == Table[lang][s[i].key]
    ensures !HasTranslation(lang, s[i].key) ==> ApplyAll(s, lang)[i].text == s[i].text
  {
    if i > 0 {
      ApplyAllAt(s[1..], lang, i - 1);
    }
  }

  /** The table holds exactly the languages en, uz and ru, each with the same
      four keys and only non-empty texts. */
  lemma TableShape()
    ensures Table.Keys == {"en", "uz", "ru"}
    ensures forall lang :: lang in Table ==> Table[lang].Keys == UiKeys
    ensures forall lang, key :: lang in Table && key in Table[lang] ==> Table[lang][key] != ""
  {
  }

  /** Every supported language translates exactly the elements whose key is
      one of the UI keys. */
  lemma {:induction false} SupportedTranslatesUiKeys(lang: string, key: string)
    requires Supported(lang)
    ensures HasTranslation(lang, key) <==> key in UiKeys
  {
    TableShape();
  }

  /** An unknown language code leaves every element as it was. */
  lemma {:induction false} UnsupportedIsIdentity(s: seq<Element>, lang: string)
    requires !Supported(lang)
    ensures ApplyAll(s, lang) == s
  {
    var r := ApplyAll(s, lang);
    forall i | 0 <= i < |s| ensures r[i] == s[i] {
      ApplyAllAt(s, lang, i);
    }
  }

  /** Applying the same language twice has the effect of applying it once. */
  lemma {:induction false} ApplyIdempotent(s: seq<Element>, lang: string)
    ensures ApplyAll(ApplyAll(s, lang), lang) == ApplyAll(s, lang)
  {
    var once := ApplyAll(s, lang);
    var twice := ApplyAll(once, lang);
    forall i | 0 <= i < |s| ensures twice[i] == once[i] {
      ApplyAllAt(s, lang, i);
      ApplyAllAt(once, lang, i);
    }
  }

  /** Applying any language and then a supported one has the effect of
      applying the supported one alone: the last applied language wins. */
  lemma {:induction false} LastSupportedWins(s: seq<Element>, first: string, last: string)
    requires Supported(last)
    ensures ApplyAll(ApplyAll(s, first), last) == ApplyAll(s, last)
  {
    var mid := ApplyAll(s, first);
    var both := ApplyAll(mid, last);
    var only := ApplyAll(s, last);
    forall i | 0 <= i < |s| ensures both[i] == only[i] {
      var key := s[i].key;
      ApplyAllAt(s, first, i);
      ApplyAllAt(mid, last, i);
      ApplyAllAt(s, last, i);
      if !HasTranslation(last, key) {
        SupportedTranslatesUiKeys(last, key);
        if Supported(first) {
          SupportedTranslatesUiKeys(first, key);
        }
        assert !HasTranslation(first, key);
      }
    }
  }

  /** The language the second start-up handler applies: the stored "lang"
      value, or "uz" when nothing is stored or the stored value is empty
      (the `||` fallback). */
  function StartLang(saved: Option<string>): (lang: string)
    ensures lang != ""
    ensures saved.Some? && saved.value != "" ==> lang == saved.value
    ensures saved.None? || saved.value == "" ==> lang == "uz"
  {
    match saved
    case Some(v) => if v != "" then v else "uz"
    case None => "uz"
  }

  /** The page: its tagged elements, the language switcher and the stored
      language preference. */
  class Page {
    /** the elements carrying a `data-translate` attribute, in document order */
    var elements: array<Element>
    /** the value of the language switcher */
    var selected: string
    /** the `localStorage` slot for the key "lang" */
    var stored: Option<string>

    constructor (tagged: seq<Element>, initial: string, saved: Option<string>)
      ensures fresh(elements) && elements[..] == tagged
      ensures selected == initial && stored == saved
    {
      elements := new Element[|tagged|](i requires 0 <= i < |tagged| => tagged[i]);
      selected := initial;
      stored := saved;
    }

    /** `applyTranslations(lang)`: overwrite, element by element, the text of
        every element whose key has a truthy entry for `lang`. */
    method ApplyTranslations(lang: string)
      modifies elements
      ensures elements[..] == ApplyAll(old(elements[..]), lang)
    {
      var i := 0;
      while i < elements.Length
        invariant 0 <= i <= elements.Length
        invariant forall j :: 0 <= j < i ==> elements[j].key == old(elements[j]).key
        invariant forall j :: 0 <= j < i && HasTranslation(lang, elements[j].key) ==>
                    elements[j].text == Table[lang][elements[j].key]
        invariant forall j :: 0 <= j < i && !HasTranslation(lang, elements[j].key) ==>
                    elements[j].text == old(elements[j]).text
        invariant forall j :: i <= j < elements.Length ==> elements[j] == old(elements[j])
      {
        var el := elements[i];
        if HasTranslation(lang, el.key) {
          elements[i] := el.(text := Table[lang][el.key]);
        }
        i := i + 1;
      }
      ghost var before := old(elements[..]);
      forall j | 0 <= j < elements.Length ensures elements[j] == ApplyAll(before, lang)[j] {
        ApplyAllAt(before, lang, j);
      }
    }

    /** The first change listener: apply the switcher's language. */
    method ChangeListenerFirst()
      modifies elements
      ensures elements[..] == ApplyAll(old(elements[..]), selected)
    {
      ApplyTranslations(selected);
    }

    /** The second change listener: apply the switcher's language, then store
        it under "lang", whether or not it is a language of the table. */
    method ChangeListenerSecond()
      modifies this`stored, elements
      ensures elements[..] == ApplyAll(old(elements[..]), selected)
      ensures stored == Some(selected)
    {
      ApplyTranslations(selected);
      stored := Some(selected);
    }

    /** The user picks `value` in the switcher: both change listeners run, in
        the order they were registered. Together they have the effect of one
        application of `value`, and the value is stored. */
    method SelectLanguage(value: string)
      modifies this`selected, this`stored, elements
      ensures selected == value && stored == Some(value)
      ensures elements[..] == ApplyAll(old(elements[..]), value)
      ensures !Supported(value) ==> elements[..] == old(elements[..])
    {
      selected := value;
      ChangeListenerFirst();
      ChangeListenerSecond();
      ApplyIdempotent(old(elements[..]), value);
      if !Supported(value) {
        UnsupportedIsIdentity(old(elements[..]), value);
      }
    }

    /** The first start-up listener: select and apply English. */
    method LoadListenerFirst()
      modifies this`selected, elements
      ensures selected == "en"
      ensures elements[..] == ApplyAll(old(elements[..]), "en")
    {
      var defaultLang := "en";
      selected := defaultLang;
      ApplyTranslations(defaultLang);
    }

    /** The second start-up listener: select and apply the stored language,
        falling back to "uz". */
    method LoadListenerSecond()
      modifies this`selected, elements
      ensures selected == StartLang(stored)
      ensures elements[..] == ApplyAll(old(elements[..]), selected)
    {
      var savedLang := if stored.Some? && stored.value != "" then stored.value else "uz";
      selected := savedLang;
      ApplyTranslations(savedLang);
    }

    /** The page finishes loading: both start-up listeners run, in the order
        they were registered. The stored language (or "uz") is selected; its
        texts are shown when it is a language of the table, and otherwise the
        English texts of the first listener remain. */
    method Load()
      modifies this`selected, elements
      ensures selected == StartLang(stored)
      ensures Supported(selected) ==> elements[..] == ApplyAll(old(elements[..]), selected)
      ensures !Supported(selected) ==> elements[..] == ApplyAll(old(elements[..]), "en")
    {
      LoadListenerFirst();
      ghost var english := elements[..];
      LoadListenerSecond();
      if Supported(selected) {
        LastSupportedWins(old(elements[..]), "en", selected);
      } else {
        UnsupportedIsIdentity(english, selected);
      }
    }
  }
}
