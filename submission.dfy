/**
 * Submission building of submit.js: the payload `generateData` appends, field
 * by field in a fixed order, from the user's input, the page globals, the
 * attribution cookies and the analytics cookie; `readCookie`, which extracts
 * the analytics client id from the raw cookie header; and how the transport
 * settles.
 */
module Submission {
  import opened Wrappers
  import opened JsText
  import opened Attribution
  import opened Enrichment

  /** The page globals `generateData` and the submit handler read (`window.*`, `document.cookie`). */
  datatype Session = Session(
    locale: JsValue,
    ajaxNonce: JsValue,
    post: JsValue,
    templateVersion: JsValue,
    origin: string,
    pathname: string,
    leadFormat: JsValue,
    ipData: IpInfo,
    userAgent: string,
    documentCookie: string,
    productName: JsValue,
    productId: JsValue,
    leelooHash: JsValue,
    elzaToken: JsValue,
    leelooDeepLink: JsValue)

  /** `crmParams` of the submit handler. */
  datatype CrmParams = CrmParams(
    userName: string,
    userPhone: string,
    userEmail: string,
    productName: JsValue,
    productId: JsValue)

  /** `tmp[i]` inside a template literal: a missing segment prints as "undefined". */
  function Segment(parts: seq<string>, i: nat): string {
    if i < |parts| then parts[i] else "undefined"
  }

  /** The client id `readCookie` builds: the third and fourth `.`-segments of the value, joined by `.`. */
  function ClientId(value: string): string {
    var tmp := Split(value, '.');
    Segment(tmp, 2) + "." + Segment(tmp, 3)
  }

  /** For a `GA1.2.<id>.<time>` value the client id is `<id>.<time>`. */
  lemma {:induction false} ClientIdOfSegments(v0: string, v1: string, v2: string, v3: string, rest: seq<string>)
    requires '.' !in v0 && '.' !in v1 && '.' !in v2 && '.' !in v3
    requires forall i :: 0 <= i < |rest| ==> '.' !in rest[i]
    ensures ClientId(Join([v0, v1, v2, v3] + rest, '.')) == v2 + "." + v3
  {
    var parts := [v0, v1, v2, v3] + rest;
    forall i | 0 <= i < |parts| ensures '.' !in parts[i] {
      if i >= 4 { assert parts[i] == rest[i - 4]; }
    }
    SplitJoin(parts, '.');
  }

  /** A value with fewer than four segments yields "undefined" for the missing ones. */
  lemma {:induction false} ClientIdOfShortValue(value: string)
    requires '.' !in value
    ensures ClientId(value) == "undefined.undefined"
  {
    SplitWhole(value, '.');
  }

  /** `document.cookie.split(';')` with every entry trimmed, as `readCookie` looks at them. */
  function CookieEntries(documentCookie: string): (r: seq<string>)
    ensures |r| == |Split(documentCookie, ';')| >= 1
    ensures forall i :: 0 <= i < |r| ==> r[i] == Trim(Split(documentCookie, ';')[i])
  {
    var ca := Split(documentCookie, ';');
    seq(|ca|, i requires 0 <= i < |ca| => Trim(ca[i]))
  }

  /**
   * There is one entry per `;` plus one, and no entry starts or ends with
   * white space, so `name=` can match an entry written as `; name=…`.
   */
  lemma CookieEntriesShape(documentCookie: string)
    ensures |CookieEntries(documentCookie)| == multiset(documentCookie)[';'] + 1
    ensures forall i :: 0 <= i < |CookieEntries(documentCookie)| ==>
              var e := CookieEntries(documentCookie)[i];
              e == [] || (!IsWhiteSpace(e[0]) && !IsWhiteSpace(e[|e| - 1]))
  {
    SplitCount(documentCookie, ';');
  }

  /** The index of the first entry, from `from` on, that starts with `nameEQ`. */
  function FirstCookieFrom(entries: seq<string>, nameEQ: string, from: nat): (r: Option<nat>)
    ensures r.None? <==> forall i :: from <= i < |entries| ==> !StartsWith(entries[i], nameEQ)
    ensures r.Some? ==> from <= r.value < |entries| && StartsWith(entries[r.value], nameEQ)
    ensures r.Some? ==> forall j :: from <= j < r.value ==> !StartsWith(entries[j], nameEQ)
    decreases |entries| - from
  {
    if from >= |entries| then None
    else if StartsWith(entries[from], nameEQ) then Some(from)
    else FirstCookieFrom(entries, nameEQ, from + 1)
  }

  /** What `readCookie(name)` returns: null or a string, never undefined. */
  function ReadCookieValue(documentCookie: string, name: string): (r: JsValue)
    ensures r == Null || r.Str?
  {
    var ca := CookieEntries(documentCookie);
    match FirstCookieFrom(ca, name + "=", 0)
    case None => Null
    case Some(i) => Str(ClientId(ca[i][|name| + 1..]))
  }

  /** It is null exactly when no entry starts with `name=`. */
  lemma ReadCookieAbsent(documentCookie: string, name: string)
    ensures ReadCookieValue(documentCookie, name) == Null <==>
            forall i :: 0 <= i < |CookieEntries(documentCookie)| ==> !StartsWith(CookieEntries(documentCookie)[i], name + "=")
  {
  }

  /** Otherwise the first entry that starts with `name=` decides, through its value's client id. */
  lemma ReadCookieFirstMatch(documentCookie: string, name: string, i: nat)
    requires i < |CookieEntries(documentCookie)|
    requires StartsWith(CookieEntries(documentCookie)[i], name + "=")
    requires forall j :: 0 <= j < i ==> !StartsWith(CookieEntries(documentCookie)[j], name + "=")
    ensures ReadCookieValue(documentCookie, name) == Str(ClientId(CookieEntries(documentCookie)[i][|name| + 1..]))
  {
    var entries := CookieEntries(documentCookie);
    var found := FirstCookieFrom(entries, name + "=", 0);
    assert found.Some? by {
      assert StartsWith(entries[i], name + "=");
    }
    assert found.value == i;
  }

  /** `readCookie(name)`: scans the entries and returns at the first one that starts with `name=`. */
  method ReadCookie(documentCookie: string, name: string) returns (r: JsValue)
    ensures r == ReadCookieValue(documentCookie, name)
  {
    var nameEQ := name + "=";
    var ca := Split(documentCookie, ';');
    ghost var entries := CookieEntries(documentCookie);
    var k := 0;
    while k < |ca|
      invariant 0 <= k <= |ca|
      invariant FirstCookieFrom(entries, nameEQ, k) == FirstCookieFrom(entries, nameEQ, 0)
    {
      var c := Trim(ca[k]);
      assert c == entries[k];
      if StartsWith(c, nameEQ) {
        var cidLong := c[|nameEQ|..];
        var tmp := Split(cidLong, '.');
        return Str(Segment(tmp, 2) + "." + Segment(tmp, 3));
      }
      k := k + 1;
    }
    return Null;
  }

  /** The match is on the whole `name=` prefix: `_ga_XYZ=…` is not the `_ga` cookie. */
  lemma GaPrefixOnly()
    ensures !StartsWith("_ga_XYZ=GS1.1.1.1", "_ga=")
    ensures StartsWith("_ga=GA1.2.3.4", "_ga=")
  {
    assert "_ga_XYZ=GS1.1.1.1"[..4][3] == '_';
  }

  /** `window.ipData?.ip || ""`. */
  function LeadIp(ipData: IpInfo): (r: string)
    ensures "ip" in ipData && ipData["ip"].Str? ==> r == ipData["ip"].s
    ensures !("ip" in ipData && Truthy(ipData["ip"])) ==> r == ""
  {
    if "ip" in ipData && Truthy(ipData["ip"]) then ToString(ipData["ip"]) else ""
  }

  /** The names `generateData` appends, section by section: WordPress Ajax and locale, inputs, site data, lead info, UTMs. */
  const AjaxKeys: seq<string> := ["action", "security", "post", "locale"]
  const InputKeys: seq<string> := ["name", "phone", "email"]
  const SiteKeys: seq<string> :=
    ["product_name", "product_id", "templateVersion", "SiteURL", "website", "Projects", "Potential_Category", "Course"]
  const LeadKeys: seq<string> :=
    ["leadActionSource", "leadFormat", "leadIP", "leadUserAgent", "google_id", "leadFBC", "leadFBP"]
  const UtmKeys: seq<string> :=
    ["utm_source", "utm_medium", "utm_term", "utm_campaign", "utm_content", "campaignId", "adsetId", "adId"]

  const PayloadKeys: seq<string> := AjaxKeys + InputKeys + SiteKeys + LeadKeys + UtmKeys

  lemma SectionsDistinct()
    ensures Distinct(AjaxKeys) && Distinct(InputKeys) && Distinct(SiteKeys) && Distinct(LeadKeys) && Distinct(UtmKeys)
  {
  }

  lemma EarlySectionsDisjoint()
    ensures Disjoint(AjaxKeys, InputKeys) && Disjoint(AjaxKeys + InputKeys, SiteKeys)
  {
    assert Disjoint(AjaxKeys, SiteKeys) && Disjoint(InputKeys, SiteKeys);
    DisjointConcat(AjaxKeys, InputKeys, SiteKeys);
  }

  lemma SiteLeadDisjoint()
    ensures Disjoint(SiteKeys, LeadKeys)
  {
  }

  lemma LeadSectionDisjoint()
    ensures Disjoint(AjaxKeys + InputKeys + SiteKeys, LeadKeys)
  {
    assert Disjoint(AjaxKeys, LeadKeys) && Disjoint(InputKeys, LeadKeys);
    SiteLeadDisjoint();
    DisjointConcat(AjaxKeys, InputKeys, LeadKeys);
    DisjointConcat(AjaxKeys + InputKeys, SiteKeys, LeadKeys);
  }

  lemma SiteUtmDisjoint()
    ensures Disjoint(SiteKeys, UtmKeys)
  {
  }

  lemma LeadUtmDisjoint()
    ensures Disjoint(LeadKeys, UtmKeys)
  {
  }

  lemma UtmSectionDisjoint()
    ensures Disjoint(AjaxKeys + InputKeys + SiteKeys + LeadKeys, UtmKeys)
  {
    assert Disjoint(AjaxKeys, UtmKeys) && Disjoint(InputKeys, UtmKeys);
    SiteUtmDisjoint();
    LeadUtmDisjoint();
    DisjointConcat(AjaxKeys, InputKeys, UtmKeys);
    DisjointConcat(AjaxKeys + InputKeys, SiteKeys, UtmKeys);
    DisjointConcat(AjaxKeys + InputKeys + SiteKeys, LeadKeys, UtmKeys);
  }

  /** `generateData` appends thirty names, each exactly once. */
  lemma PayloadKeysDistinct()
    ensures |PayloadKeys| == 30 && Distinct(PayloadKeys)
  {
    SectionsDistinct();
    EarlySectionsDisjoint();
    LeadSectionDisjoint();
    UtmSectionDisjoint();
    DistinctConcat(AjaxKeys, InputKeys);
    DistinctConcat(AjaxKeys + InputKeys, SiteKeys);
    DistinctConcat(AjaxKeys + InputKeys + SiteKeys, LeadKeys);
    DistinctConcat(AjaxKeys + InputKeys + SiteKeys + LeadKeys, UtmKeys);
  }

  function Keys(fd: FormData): (r: seq<string>)
    ensures |r| == |fd| && forall i :: 0 <= i < |fd| ==> r[i] == fd[i].0
  {
    seq(|fd|, i requires 0 <= i < |fd| => fd[i].0)
  }

  lemma KeysConcat(a: FormData, b: FormData)
    ensures Keys(a + b) == Keys(a) + Keys(b)
  {
  }

  /** "WordPress Ajax" and "Locale and Connector". */
  function AjaxEntries(s: Session): FormData {
    [("action", "forms"), ("security", ToString(s.ajaxNonce)), ("post", ToString(s.post)), ("locale", ToString(s.locale))]
  }

  /** "Inputs". */
  function InputEntries(crm: CrmParams): FormData {
    [("name", crm.userName), ("phone", crm.userPhone), ("email", crm.userEmail)]
  }

  /** "Site Data": the product, the template, the page URL without its query, three constants, and the product id again. */
  function SiteEntries(crm: CrmParams, s: Session): FormData {
    [("product_name", ToString(crm.productName)), ("product_id", ToString(crm.productId)),
     ("templateVersion", ToString(s.templateVersion)), ("SiteURL", s.origin + s.pathname),
     ("website", "website"), ("Projects", "GoIT"), ("Potential_Category", "Course"),
     ("Course", ToString(crm.productId))]
  }

  /** "Lead info", with the value `readCookie("_ga")` returned. */
  function LeadEntries(s: Session, jar: CookieJar, googleId: JsValue): FormData {
    [("leadActionSource", s.origin + s.pathname),
     ("leadFormat", if Truthy(s.leadFormat) then ToString(s.leadFormat) else "marathon"),
     ("leadIP", LeadIp(s.ipData)), ("leadUserAgent", s.userAgent), ("google_id", ToString(googleId)),
     ("leadFBC", ToString(CookieGet(jar, "_fbc"))), ("leadFBP", ToString(CookieGet(jar, "_fbp")))]
  }

  /** "UTMs": each mark from the cookie of its own name. */
  function UtmEntries(jar: CookieJar): FormData {
    [("utm_source", ToString(CookieGet(jar, "utm_source"))), ("utm_medium", ToString(CookieGet(jar, "utm_medium"))),
     ("utm_term", ToString(CookieGet(jar, "utm_term"))), ("utm_campaign", ToString(CookieGet(jar, "utm_campaign"))),
     ("utm_content", ToString(CookieGet(jar, "utm_content"))), ("campaignId", ToString(CookieGet(jar, "campaignId"))),
     ("adsetId", ToString(CookieGet(jar, "adsetId"))), ("adId", ToString(CookieGet(jar, "adId")))]
  }

  /** The payload `generateData(crmParams)` builds, given what `readCookie("_ga")` returned. */
  function PayloadFor(crm: CrmParams, s: Session, jar: CookieJar, googleId: JsValue): FormData {
    AjaxEntries(s) + InputEntries(crm) + SiteEntries(crm, s) + LeadEntries(s, jar, googleId) + UtmEntries(jar)
  }

  /** The payload's names are the thirty names in order, so each appears once. */
  lemma PayloadKeysOf(crm: CrmParams, s: Session, jar: CookieJar, googleId: JsValue)
    ensures Keys(PayloadFor(crm, s, jar, googleId)) == PayloadKeys
  {
    var a, i, t, l, u := AjaxEntries(s), InputEntries(crm), SiteEntries(crm, s), LeadEntries(s, jar, googleId), UtmEntries(jar);
    assert Keys(a) == AjaxKeys && Keys(i) == InputKeys && Keys(t) == SiteKeys;
    assert Keys(l) == LeadKeys && Keys(u) == UtmKeys;
    KeysConcat(a, i);
    KeysConcat(a + i, t);
    KeysConcat(a + i + t, l);
    KeysConcat(a + i + t + l, u);
  }

  /** `get` within one section whose names are distinct. */
  lemma SectionGet(fd: FormData, keys: seq<string>, i: nat)
    requires Keys(fd) == keys && Distinct(keys) && i < |keys|
    ensures FormDataGet(fd, keys[i]) == Some(fd[i].1)
  {
    FormDataGetAt(fd, i);
  }

  lemma SectionMiss(fd: FormData, keys: seq<string>, key: string)
    requires Keys(fd) == keys && key !in keys
    ensures FormDataGet(fd, key).None?
  {
    FormDataGetNone(fd, key);
  }

  lemma SectionHit(fd: FormData, keys: seq<string>, key: string)
    requires Keys(fd) == keys && key in keys
    ensures FormDataGet(fd, key).Some?
  {
    FormDataGetNone(fd, key);
    var k :| 0 <= k < |keys| && keys[k] == key;
    assert fd[k].0 == key;
  }

  /** `get` on five sections appended one after the other: the first section with the name wins. */
  lemma FiveSectionsGet(a: FormData, b: FormData, c: FormData, d: FormData, e: FormData, key: string)
    ensures FormDataGet(a + b + c + d + e, key) ==
            if FormDataGet(a, key).Some? then FormDataGet(a, key)
            else if FormDataGet(b, key).Some? then FormDataGet(b, key)
            else if FormDataGet(c, key).Some? then FormDataGet(c, key)
            else if FormDataGet(d, key).Some? then FormDataGet(d, key)
            else FormDataGet(e, key)
  {
    FormDataGetConcat(a, b, key);
    FormDataGetConcat(a + b, c, key);
    FormDataGetConcat(a + b + c, d, key);
    FormDataGetConcat(a + b + c + d, e, key);
  }

  /** The names of each section. */
  lemma SectionKeys(crm: CrmParams, s: Session, jar: CookieJar, googleId: JsValue)
    ensures Keys(AjaxEntries(s)) == AjaxKeys && Keys(InputEntries(crm)) == InputKeys
    ensures Keys(SiteEntries(crm, s)) == SiteKeys && Keys(LeadEntries(s, jar, googleId)) == LeadKeys
    ensures Keys(UtmEntries(jar)) == UtmKeys
  {
  }

  /** `get` on the payload is `get` on the section that holds the name. */
  lemma PayloadLookup(crm: CrmParams, s: Session, jar: CookieJar, googleId: JsValue, key: string)
    ensures var p := PayloadFor(crm, s, jar, googleId);
            && (key in AjaxKeys ==> FormDataGet(p, key) == FormDataGet(AjaxEntries(s), key))
            && (key in InputKeys ==> FormDataGet(p, key) == FormDataGet(InputEntries(crm), key))
            && (key in SiteKeys ==> FormDataGet(p, key) == FormDataGet(SiteEntries(crm, s), key))
            && (key in LeadKeys ==> FormDataGet(p, key) == FormDataGet(LeadEntries(s, jar, googleId), key))
            && (key in UtmKeys ==> FormDataGet(p, key) == FormDataGet(UtmEntries(jar), key))
  {
    var a, i, t, l, u := AjaxEntries(s), InputEntries(crm), SiteEntries(crm, s), LeadEntries(s, jar, googleId), UtmEntries(jar);
    SectionKeys(crm, s, jar, googleId);
    FiveSectionsGet(a, i, t, l, u, key);
    EarlySectionsDisjoint();
    LeadSectionDisjoint();
    UtmSectionDisjoint();
    if key in AjaxKeys {
      SectionHit(a, AjaxKeys, key);
    } else {
      SectionMiss(a, AjaxKeys, key);
      if key in InputKeys {
        SectionHit(i, InputKeys, key);
      } else {
        SectionMiss(i, InputKeys, key);
        if key in SiteKeys {
          SectionHit(t, SiteKeys, key);
        } else {
          SectionMiss(t, SiteKeys, key);
          if key in LeadKeys {
            SectionHit(l, LeadKeys, key);
          } else {
            SectionMiss(l, LeadKeys, key);
          }
        }
      }
    }
  }

  /** Both page-URL fields carry origin plus path, without the query string. */
  lemma PayloadUrlFields(crm: CrmParams, s: Session, jar: CookieJar, googleId: JsValue)
    ensures var p := PayloadFor(crm, s, jar, googleId);
            && FormDataGet(p, "SiteURL") == Some(s.origin + s.pathname)
            && FormDataGet(p, "leadActionSource") == Some(s.origin + s.pathname)
  {
    PayloadLookup(crm, s, jar, googleId, "SiteURL");
    PayloadLookup(crm, s, jar, googleId, "leadActionSource");
    SectionsDistinct();
    assert Keys(SiteEntries(crm, s)) == SiteKeys && Keys(LeadEntries(s, jar, googleId)) == LeadKeys;
    SectionGet(SiteEntries(crm, s), SiteKeys, 3);
    SectionGet(LeadEntries(s, jar, googleId), LeadKeys, 0);
  }

  /** The name, phone and email are the user's as given. */
  lemma PayloadInputFields(crm: CrmParams, s: Session, jar: CookieJar, googleId: JsValue)
    ensures var p := PayloadFor(crm, s, jar, googleId);
            && FormDataGet(p, "name") == Some(crm.userName)
            && FormDataGet(p, "phone") == Some(crm.userPhone)
            && FormDataGet(p, "email") == Some(crm.userEmail)
  {
    PayloadLookup(crm, s, jar, googleId, "name");
    PayloadLookup(crm, s, jar, googleId, "phone");
    PayloadLookup(crm, s, jar, googleId, "email");
    SectionsDistinct();
    assert Keys(InputEntries(crm)) == InputKeys;
    SectionGet(InputEntries(crm), InputKeys, 0);
    SectionGet(InputEntries(crm), InputKeys, 1);
    SectionGet(InputEntries(crm), InputKeys, 2);
  }

  /** Course repeats product_id. */
  lemma PayloadCourseField(crm: CrmParams, s: Session, jar: CookieJar, googleId: JsValue)
    ensures var p := PayloadFor(crm, s, jar, googleId);
            FormDataGet(p, "Course") == FormDataGet(p, "product_id") == Some(ToString(crm.productId))
  {
    PayloadLookup(crm, s, jar, googleId, "Course");
    PayloadLookup(crm, s, jar, googleId, "product_id");
    SectionsDistinct();
    assert Keys(SiteEntries(crm, s)) == SiteKeys;
    SectionGet(SiteEntries(crm, s), SiteKeys, 1);
    SectionGet(SiteEntries(crm, s), SiteKeys, 7);
  }

  /** The lead format defaults to "marathon", the IP to "", and google_id is what readCookie gave. */
  lemma PayloadLeadFields(crm: CrmParams, s: Session, jar: CookieJar, googleId: JsValue)
    ensures var p := PayloadFor(crm, s, jar, googleId);
            && FormDataGet(p, "leadFormat") == Some(if Truthy(s.leadFormat) then ToString(s.leadFormat) else "marathon")
            && FormDataGet(p, "leadIP") == Some(LeadIp(s.ipData))
            && FormDataGet(p, "google_id") == Some(ToString(googleId))
  {
    PayloadLookup(crm, s, jar, googleId, "leadFormat");
    PayloadLookup(crm, s, jar, googleId, "leadIP");
    PayloadLookup(crm, s, jar, googleId, "google_id");
    SectionsDistinct();
    var l := LeadEntries(s, jar, googleId);
    assert Keys(l) == LeadKeys;
    SectionGet(l, LeadKeys, 1);
    SectionGet(l, LeadKeys, 2);
    SectionGet(l, LeadKeys, 4);
  }

  /** Each tracked mark comes from the cookie of the same name. */
  lemma PayloadMarkAt(crm: CrmParams, s: Session, jar: CookieJar, googleId: JsValue, k: nat)
    requires k < |UtmKeys|
    ensures FormDataGet(PayloadFor(crm, s, jar, googleId), UtmKeys[k]) == Some(ToString(CookieGet(jar, UtmKeys[k])))
  {
    PayloadLookup(crm, s, jar, googleId, UtmKeys[k]);
    SectionsDistinct();
    var u := UtmEntries(jar);
    assert Keys(u) == UtmKeys;
    assert u[k] == (UtmKeys[k], ToString(CookieGet(jar, UtmKeys[k])));
    SectionGet(u, UtmKeys, k);
  }

  /** Every tracked mark comes from the cookie of the same name, a missing one as "undefined". */
  lemma PayloadMarks(crm: CrmParams, s: Session, jar: CookieJar, googleId: JsValue)
    ensures var p := PayloadFor(crm, s, jar, googleId);
            forall m :: m in TrackedMarks ==> FormDataGet(p, m) == Some(ToString(CookieGet(jar, m)))
  {
    forall m | m in TrackedMarks ensures FormDataGet(PayloadFor(crm, s, jar, googleId), m) == Some(ToString(CookieGet(jar, m))) {
      assert m in UtmKeys;
      var k :| 0 <= k < |UtmKeys| && UtmKeys[k] == m;
      PayloadMarkAt(crm, s, jar, googleId, k);
    }
  }

  /** `generateData(crmParams)`: reads the analytics cookie, then fills a fresh FormData. */
  method GenerateData(crm: CrmParams, s: Session, jar: CookieJar) returns (form: FormData)
    ensures form == PayloadFor(crm, s, jar, ReadCookieValue(s.documentCookie, "_ga"))
  {
    var googleId := ReadCookie(s.documentCookie, "_ga");
    form := AppendPayload(crm, s, jar, googleId);
  }

  /** The successive `formData.append` calls of `generateData`, section by section. */
  method AppendPayload(crm: CrmParams, s: Session, jar: CookieJar, googleId: JsValue) returns (form: FormData)
    ensures form == PayloadFor(crm, s, jar, googleId)
  {
    form := AppendAjax(s);
    form := AppendInputs(form, crm);
    form := AppendSiteData(form, crm, s);
    form := AppendLeadInfo(form, s, jar, googleId);
    form := AppendUtms(form, jar);
  }

  /** A fresh FormData with the WordPress Ajax fields and the locale. */
  method AppendAjax(s: Session) returns (form: FormData)
    ensures form == AjaxEntries(s)
  {
    form := [];
    form := form + [("action", "forms")];
    form := form + [("security", ToString(s.ajaxNonce))];
    form := form + [("post", ToString(s.post))];
    form := form + [("locale", ToString(s.locale))];
  }

  /** Appends the three inputs. */
  method AppendInputs(before: FormData, crm: CrmParams) returns (form: FormData)
    ensures form == before + InputEntries(crm)
  {
    form := before;
    form := form + [("name", crm.userName)];
    form := form + [("phone", crm.userPhone)];
    form := form + [("email", crm.userEmail)];
  }

  /** Appends the site data. */
  method AppendSiteData(before: FormData, crm: CrmParams, s: Session) returns (form: FormData)
    ensures form == before + SiteEntries(crm, s)
  {
    var actionSource := s.origin + s.pathname;
    form := before;
    form := form + [("product_name", ToString(crm.productName))];
    form := form + [("product_id", ToString(crm.productId))];
    form := form + [("templateVersion", ToString(s.templateVersion))];
    form := form + [("SiteURL", actionSource)];
    form := form + [("website", "website")];
    form := form + [("Projects", "GoIT")];
    form := form + [("Potential_Category", "Course")];
    form := form + [("Course", ToString(crm.productId))];
  }

  /** Appends the lead info. */
  method AppendLeadInfo(before: FormData, s: Session, jar: CookieJar, googleId: JsValue) returns (form: FormData)
    ensures form == before + LeadEntries(s, jar, googleId)
  {
    var actionSource := s.origin + s.pathname;
    form := before;
    form := form + [("leadActionSource", actionSource)];
    form := form + [("leadFormat", if Truthy(s.leadFormat) then ToString(s.leadFormat) else "marathon")];
    form := form + [("leadIP", LeadIp(s.ipData))];
    form := form + [("leadUserAgent", s.userAgent)];
    form := form + [("google_id", ToString(googleId))];
    form := form + [("leadFBC", ToString(CookieGet(jar, "_fbc")))];
    form := form + [("leadFBP", ToString(CookieGet(jar, "_fbp")))];
  }

  /** Appends the tracked marks. */
  method AppendUtms(before: FormData, jar: CookieJar) returns (form: FormData)
    ensures form == before + UtmEntries(jar)
  {
    form := before;
    form := form + [("utm_source", ToString(CookieGet(jar, "utm_source")))];
    form := form + [("utm_medium", ToString(CookieGet(jar, "utm_medium")))];
    form := form + [("utm_term", ToString(CookieGet(jar, "utm_term")))];
    form := form + [("utm_campaign", ToString(CookieGet(jar, "utm_campaign")))];
    form := form + [("utm_content", ToString(CookieGet(jar, "utm_content")))];
    form := form + [("campaignId", ToString(CookieGet(jar, "campaignId")))];
    form := form + [("adsetId", ToString(CookieGet(jar, "adsetId")))];
    form := form + [("adId", ToString(CookieGet(jar, "adId")))];
  }

  /** What the relay request led to: no reply at all, or an HTTP status and the response's `intelza_id`. */
  datatype HttpReply = NetworkError | HttpResponse(status: int, intelzaId: JsValue)

  /** The settled `send` promise as the handler sees it. */
  datatype SendOutcome = Resolved(status: int, intelzaId: JsValue) | Rejected

  /** axios's default `validateStatus`: a 2xx status resolves, anything else rejects. */
  function Settle(reply: HttpReply): (r: SendOutcome)
    ensures r.Resolved? <==> reply.HttpResponse? && 200 <= reply.status < 300
    ensures r.Resolved? ==> r.status == reply.status && r.intelzaId == reply.intelzaId
  {
    match reply
    case NetworkError => Rejected
    case HttpResponse(status, id) => if 200 <= status < 300 then Resolved(status, id) else Rejected
  }
}
