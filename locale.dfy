/**
 * Locale resolution: the two static tables of form.js that turn the page's
 * locale into the default interface language and the default phone country,
 * the fallback applied when the locale is unset, and the dictionary lookups
 * of service.js that fail when the active locale or a message key is missing.
 */
module Locale {
  import opened Wrappers
  import opened JsText

  /** The locales with their own interface language. */
  const SupportedLocales: set<string> := {"pl", "en", "ro", "es", "tr"}

  /** The object literal behind `defaultLang`. */
  const LangTable: map<string, string> :=
    map["pl" := "pl", "en" := "en", "ro" := "ro", "es" := "es", "tr" := "tr"]

  /** The object literal behind `itiLocale`: English pages dial the Philippines by default. */
  const ItiTable: map<string, string> :=
    map["pl" := "pl", "en" := "ph", "ro" := "ro", "es" := "es", "tr" := "tr"]

  /** `table[key] || fallback`, where the key is the property name `String(locale)`. */
  function LookupOr(table: map<string, string>, locale: JsValue, fallback: string): string {
    var key := ToString(locale);
    if key in table && table[key] != "" then table[key] else fallback
  }

  /** `defaultLang`: the supported locales map to themselves, everything else to "uk". */
  function DefaultLang(locale: JsValue): (r: string)
    ensures ToString(locale) in SupportedLocales ==> r == ToString(locale)
    ensures ToString(locale) !in SupportedLocales ==> r == "uk"
  {
    LookupOr(LangTable, locale, "uk")
  }

  /** `itiLocale`: en goes to "ph", the other supported locales stay, the rest goes to "ua". */
  function ItiLocale(locale: JsValue): (r: string)
    ensures ToString(locale) == "en" ==> r == "ph"
    ensures ToString(locale) in SupportedLocales - {"en"} ==> r == ToString(locale)
    ensures ToString(locale) !in SupportedLocales ==> r == "ua"
  {
    LookupOr(ItiTable, locale, "ua")
  }

  /** The phone country follows the interface language, except for English and the fallback. */
  lemma ItiFollowsLang(locale: JsValue)
    ensures ItiLocale(locale) == match DefaultLang(locale)
                                 case "en" => "ph"
                                 case "uk" => "ua"
                                 case lang => lang
  {
  }

  /**
   * The value of `window.locale` once the page has loaded: an unset (falsy)
   * locale is replaced by `defaultLang`, a set one is kept as it is, even when
   * it is not one of the supported locales.
   */
  function ResolveLocale(locale: JsValue): (r: JsValue)
    ensures Truthy(r)
    ensures !Truthy(locale) ==> r == Str("uk")
    ensures Truthy(locale) ==> r == locale
  {
    if Truthy(locale) then locale else Str(DefaultLang(locale))
  }

  /** One entry of a locale dictionary file: a key and its text per locale. */
  datatype LocaleEntry = LocaleEntry(key: string, dict: map<string, string>)

  /** A message entry cut down to one locale. */
  datatype Message = Message(key: string, msg: string)

  datatype ConfigError = MissingLocale(locale: string) | MissingMessage(key: string)

  /** `dict[locale]` is truthy. */
  predicate HasLocale(e: LocaleEntry, locale: string) {
    locale in e.dict && e.dict[locale] != ""
  }

  predicate AllHaveLocale(entries: seq<LocaleEntry>, locale: string) {
    forall i :: 0 <= i < |entries| ==> HasLocale(entries[i], locale)
  }

  /**
   * `getValidationLocale`: every entry cut down to the one locale, in the same
   * order; fails as soon as one entry lacks the locale.
   */
  function GetValidationLocale(entries: seq<LocaleEntry>, locale: string): (r: Result<seq<LocaleEntry>, ConfigError>)
    ensures r.Ok? <==> AllHaveLocale(entries, locale)
    ensures r.Err? ==> r.error == MissingLocale(locale)
    ensures r.Ok? ==> |r.value| == |entries|
    ensures r.Ok? ==> forall i :: 0 <= i < |entries| ==>
                        r.value[i] == LocaleEntry(entries[i].key, map[locale := entries[i].dict[locale]])
    decreases |entries|
  {
    if entries == [] then Ok([])
    else if !HasLocale(entries[0], locale) then Err(MissingLocale(locale))
    else
      var rest :- GetValidationLocale(entries[1..], locale);
      Ok([LocaleEntry(entries[0].key, map[locale := entries[0].dict[locale]])] + rest)
  }

  /**
   * `getFormMessageLocale`: one message per entry, in the same order; fails
   * as soon as one entry lacks the locale.
   */
  function GetFormMessageLocale(entries: seq<LocaleEntry>, locale: string): (r: Result<seq<Message>, ConfigError>)
    ensures r.Ok? <==> AllHaveLocale(entries, locale)
    ensures r.Err? ==> r.error == MissingLocale(locale)
    ensures r.Ok? ==> |r.value| == |entries|
    ensures r.Ok? ==> forall i :: 0 <= i < |entries| ==>
                        r.value[i] == Message(entries[i].key, entries[i].dict[locale])
    decreases |entries|
  {
    if entries == [] then Ok([])
    else if !HasLocale(entries[0], locale) then Err(MissingLocale(locale))
    else
      var rest :- GetFormMessageLocale(entries[1..], locale);
      Ok([Message(entries[0].key, entries[0].dict[locale])] + rest)
  }

  /** `messages.find(({key: k}) => k === key)?.msg`. */
  function FindMessage(messages: seq<Message>, key: string): (r: Option<string>)
    ensures r.None? <==> forall i :: 0 <= i < |messages| ==> messages[i].key != key
    ensures r.Some? ==> exists i :: 0 <= i < |messages| && messages[i].key == key && r.value == messages[i].msg
                                   && forall j :: 0 <= j < i ==> messages[j].key != key
    decreases |messages|
  {
    if messages == [] then None
    else if messages[0].key == key then Some(messages[0].msg)
    else
      var r := FindMessage(messages[1..], key);
      assert r.Some? ==> exists i :: 0 <= i < |messages| && messages[i].key == key && r.value == messages[i].msg
                                    && forall j :: 0 <= j < i ==> messages[j].key != key by {
        if r.Some? {
          var i :| 0 <= i < |messages| - 1 && messages[1..][i].key == key && r.value == messages[1..][i].msg
                   && forall j :: 0 <= j < i ==> messages[1..][j].key != key;
          assert messages[i + 1].key == key && forall j :: 0 <= j < i + 1 ==> messages[j].key != key by {
            forall j | 0 <= j < i + 1 ensures messages[j].key != key {
              if j > 0 { assert messages[j] == messages[1..][j - 1]; }
            }
          }
        }
      }
      r
  }

  /**
   * `translate(key, locale)`: the text of the first entry with that key;
   * throws when an entry lacks the locale, or when no entry has the key or
   * its text is empty.
   */
  function Translate(entries: seq<LocaleEntry>, key: string, locale: string): (r: Result<string, ConfigError>)
    ensures !AllHaveLocale(entries, locale) ==> r == Err(MissingLocale(locale))
    ensures (AllHaveLocale(entries, locale) && forall i :: 0 <= i < |entries| ==> entries[i].key != key)
            ==> r == Err(MissingMessage(key))
    ensures r.Ok? ==> r.value != ""
    ensures r.Ok? ==> exists i :: 0 <= i < |entries| && entries[i].key == key && r.value == entries[i].dict[locale]
                                 && forall j :: 0 <= j < i ==> entries[j].key != key
  {
    var messages :- GetFormMessageLocale(entries, locale);
    var found := FindMessage(messages, key);
    if found.None? || found.value == "" then Err(MissingMessage(key)) else Ok(found.value)
  }

  /** A key present in a dictionary that has the locale everywhere always translates. */
  lemma TranslateFound(entries: seq<LocaleEntry>, key: string, locale: string, i: nat)
    requires AllHaveLocale(entries, locale)
    requires i < |entries| && entries[i].key == key
    requires forall j :: 0 <= j < i ==> entries[j].key != key
    ensures Translate(entries, key, locale) == Ok(entries[i].dict[locale])
  {
    var messages := GetFormMessageLocale(entries, locale).value;
    var found := FindMessage(messages, key);
    assert messages[i].key == key;
    var k :| 0 <= k < |messages| && messages[k].key == key && found.value == messages[k].msg
             && forall j :: 0 <= j < k ==> messages[j].key != key;
    assert k == i;
  }

  /** The message text per key, first entry winning: what `find` over the messages amounts to. */
  function MessageTable(messages: seq<Message>): map<string, string>
    decreases |messages|
  {
    if messages == [] then map[] else MessageTable(messages[1..])[messages[0].key := messages[0].msg]
  }

  /** `find(...)?.msg` is a lookup in the message table. */
  lemma {:induction false} FindMessageInTable(messages: seq<Message>, key: string)
    ensures FindMessage(messages, key) == if key in MessageTable(messages) then Some(MessageTable(messages)[key]) else None
    decreases |messages|
  {
    if messages != [] {
      FindMessageInTable(messages[1..], key);
    }
  }
}
