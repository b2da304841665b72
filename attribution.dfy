/**
 * Attribution tracking of service.js: reading a query parameter of the page
 * URL, rewriting the tracked marks in the cookie store on page load (with
 * two expiry tiers), and copying payload fields into URL parameters for the
 * embedded CRM widget. The URL query is the decoded name/value view that
 * URLSearchParams gives; the cookie store is the name/value view of js-cookie.
 */
module Attribution {
  import opened Wrappers
  import opened JsText

  /**
   * `getUrlParameter(name)`: undefined for an absent name, `true` for the
   * literal value "undefined", and any other value, "" included, verbatim.
   */
  function GetUrlParameter(query: map<string, string>, name: string): (r: JsValue)
    ensures r == Undefined <==> name !in query
    ensures r == True <==> name in query && query[name] == "undefined"
    ensures name in query && query[name] != "undefined" ==> r == Str(query[name])
    ensures Truthy(r) <==> name in query && query[name] != ""
    ensures name in query ==> ToString(r) == if query[name] == "undefined" then "true" else query[name]
  {
    if name !in query then Undefined
    else if query[name] == "undefined" then True
    else Str(query[name])
  }

  /** The expiry a cookie was written with; `OneHour` is js-cookie's `expires: 1 / 24` (days). */
  datatype Expiry = SessionOnly | OneHour | ThirtyDays

  datatype Cookie = Cookie(value: string, expiry: Expiry)

  type CookieJar = map<string, Cookie>

  /** `Cookies.get(name)`. */
  function CookieGet(jar: CookieJar, name: string): (r: JsValue)
    ensures r == Undefined <==> name !in jar
    ensures name in jar ==> r == Str(jar[name].value)
  {
    if name in jar then Str(jar[name].value) else Undefined
  }

  /** The marks form.js asks to keep, in its order. */
  const TrackedMarks: seq<string> :=
    ["utm_source", "utm_medium", "utm_content", "utm_term", "utm_campaign", "campaignId", "adsetId", "adId"]

  /** `hasUtmMark`: some tracked mark has a truthy URL value. */
  predicate AnyMarkSet(query: map<string, string>, marks: seq<string>) {
    exists m :: m in marks && Truthy(GetUrlParameter(query, m))
  }

  /** `hasAdmOrSdInUtmSource`: utm_source is tracked and names one of the two affiliate networks. */
  predicate AffiliateSource(query: map<string, string>, marks: seq<string>) {
    && "utm_source" in marks
    && GetUrlParameter(query, "utm_source") in {Str("admitad"), Str("salesdoubler")}
  }

  function TierFor(query: map<string, string>, marks: seq<string>): Expiry {
    if AffiliateSource(query, marks) then ThirtyDays else OneHour
  }

  /** One pass of `setCookiesFromParams`, over the marks in order: remove, then set when truthy. */
  function RewriteMarks(jar: CookieJar, query: map<string, string>, marks: seq<string>, tier: Expiry): CookieJar
    decreases |marks|
  {
    if marks == [] then jar
    else
      var before := RewriteMarks(jar, query, marks[..|marks| - 1], tier);
      var mark := marks[|marks| - 1];
      var value := GetUrlParameter(query, mark);
      if Truthy(value) then (before - {mark})[mark := Cookie(ToString(value), tier)]
      else before - {mark}
  }

  /** The cookie store after `saveParamsToCookies(marks)`. */
  function SavedCookies(jar: CookieJar, query: map<string, string>, marks: seq<string>): CookieJar {
    if AnyMarkSet(query, marks) then RewriteMarks(jar, query, marks, TierFor(query, marks)) else jar
  }

  /** `k` is present in both or absent in both, with the same cookie. */
  predicate SameEntry<V(==)>(m1: map<string, V>, m2: map<string, V>, k: string) {
    (k in m1 <==> k in m2) && (k in m1 ==> m1[k] == m2[k])
  }

  lemma {:induction false} RewriteMarksEffect(jar: CookieJar, query: map<string, string>, marks: seq<string>, tier: Expiry, k: string)
    ensures var r := RewriteMarks(jar, query, marks, tier);
            var value := GetUrlParameter(query, k);
            && (k !in marks ==> SameEntry(r, jar, k))
            && (k in marks && Truthy(value) ==> k in r && r[k] == Cookie(ToString(value), tier))
            && (k in marks && !Truthy(value) ==> k !in r)
    decreases |marks|
  {
    if marks != [] {
      var prefix := marks[..|marks| - 1];
      RewriteMarksEffect(jar, query, prefix, tier, k);
      assert marks == prefix + [marks[|marks| - 1]];
    }
  }

  /**
   * `saveParamsToCookies`: with no truthy tracked mark in the URL the store is
   * untouched; otherwise every tracked mark is rewritten from the URL (absent
   * ones end up removed) with the 30-day tier for admitad or salesdoubler
   * traffic and the one-hour tier otherwise, and no other cookie changes.
   */
  lemma SaveParamsToCookiesEffect(jar: CookieJar, query: map<string, string>, marks: seq<string>)
    ensures !AnyMarkSet(query, marks) ==> SavedCookies(jar, query, marks) == jar
    ensures AnyMarkSet(query, marks) ==> forall k :: k in marks ==>
              var value := GetUrlParameter(query, k);
              var saved := SavedCookies(jar, query, marks);
              if Truthy(value) then k in saved && saved[k] == Cookie(ToString(value), TierFor(query, marks))
              else k !in saved
    ensures forall k :: k !in marks ==> SameEntry(SavedCookies(jar, query, marks), jar, k)
  {
    var tier := TierFor(query, marks);
    forall k {
      RewriteMarksEffect(jar, query, marks, tier, k);
    }
  }

  /** An affiliate link stores its marks for 30 days, any other source for one hour. */
  lemma TierExamples()
    ensures TierFor(map["utm_source" := "admitad", "utm_campaign" := "x"], TrackedMarks) == ThirtyDays
    ensures TierFor(map["utm_source" := "salesdoubler"], TrackedMarks) == ThirtyDays
    ensures TierFor(map["utm_source" := "google", "utm_campaign" := "x"], TrackedMarks) == OneHour
    ensures TierFor(map["utm_campaign" := "admitad"], TrackedMarks) == OneHour
  {
  }

  /** The form-field to URL-parameter mapping of `setParamsForLeeloo`, in its order. */
  const LeelooFields: seq<(string, string)> := [
    ("utm_source", "utm_source"), ("utm_medium", "utm_medium"), ("utm_term", "utm_term"),
    ("utm_campaign", "utm_campaign"), ("utm_content", "utm_content"), ("campaignId", "campaignid"),
    ("adsetId", "adsetid"), ("adId", "adid"), ("google_id", "ga"), ("name", "first_name"),
    ("phone", "phone"), ("email", "email"), ("product_name", "zoho_product_name"),
    ("product_id", "zoho_product_id")]

  predicate DistinctTargets(fields: seq<(string, string)>) {
    forall i, j :: 0 <= i < j < |fields| ==> fields[i].1 != fields[j].1
  }

  /** The URL parameter names of LeelooFields, in order. */
  function Targets(fields: seq<(string, string)>): seq<string> {
    seq(|fields|, i requires 0 <= i < |fields| => fields[i].1)
  }

  const MarkTargets: seq<string> :=
    ["utm_source", "utm_medium", "utm_term", "utm_campaign", "utm_content", "campaignid", "adsetid"]
  const FieldTargets: seq<string> :=
    ["adid", "ga", "first_name", "phone", "email", "zoho_product_name", "zoho_product_id"]

  lemma TargetSectionsDistinct()
    ensures Distinct(MarkTargets) && Distinct(FieldTargets) && Disjoint(MarkTargets, FieldTargets)
  {
  }

  /** No two mapped keys write the same URL parameter. */
  lemma LeelooTargetsDistinct()
    ensures |LeelooFields| == 14 && DistinctTargets(LeelooFields)
  {
    assert Targets(LeelooFields) == MarkTargets + FieldTargets;
    TargetSectionsDistinct();
    DistinctConcat(MarkTargets, FieldTargets);
    assert Distinct(Targets(LeelooFields));
  }

  /**
   * What the URL parameter for form field `key` is set to, or None when the
   * field is skipped: a value of "undefined" or "null" is skipped, and a
   * missing field (get gives null) is written as "null".
   */
  function LeelooTargetValue(fd: FormData, key: string): (r: Option<string>)
    ensures r.None? <==> FormDataGet(fd, key) in {Some("undefined"), Some("null")}
    ensures FormDataGet(fd, key).None? ==> r == Some("null")
    ensures r.Some? && FormDataGet(fd, key).Some? ==> r.value == FormDataGet(fd, key).value
  {
    match FormDataGet(fd, key)
    case None => Some("null")
    case Some(v) => if v == "undefined" || v == "null" then None else Some(v)
  }

  /** The query after the loop of `setParamsForLeeloo` has handled `fields`. */
  function LeelooQuery(query: map<string, string>, fd: FormData, fields: seq<(string, string)>): map<string, string>
    decreases |fields|
  {
    if fields == [] then query
    else
      var before := LeelooQuery(query, fd, fields[..|fields| - 1]);
      var field := fields[|fields| - 1];
      match LeelooTargetValue(fd, field.0)
      case None => before
      case Some(v) => before[field.1 := v]
  }

  /**
   * Each mapped parameter ends up with its field's value unless the field was
   * skipped, in which case it keeps its old value; every other parameter is
   * unchanged.
   */
  lemma {:induction false} LeelooQueryEffect(query: map<string, string>, fd: FormData, fields: seq<(string, string)>, t: string)
    requires DistinctTargets(fields)
    ensures var r := LeelooQuery(query, fd, fields);
            && ((forall j :: 0 <= j < |fields| ==> fields[j].1 != t) ==> SameEntry(r, query, t))
            && (forall j :: 0 <= j < |fields| && fields[j].1 == t ==>
                  match LeelooTargetValue(fd, fields[j].0)
                  case None => SameEntry(r, query, t)
                  case Some(v) => t in r && r[t] == v)
    decreases |fields|
  {
    if fields != [] {
      var n := |fields| - 1;
      var prefix := fields[..n];
      assert DistinctTargets(prefix);
      LeelooQueryEffect(query, fd, prefix, t);
      if fields[n].1 == t {
        assert forall j :: 0 <= j < n ==> prefix[j].1 != t;
      }
      forall j | 0 <= j < |fields| && fields[j].1 == t && j < n
        ensures prefix[j].1 == t
      {
      }
    }
  }
}
