/**
 * Network enrichment of service.js, reduced to the decisions taken on the
 * responses: parsing the `key=value` trace text into `ipData`, choosing the
 * phone-input country from it or from a second lookup, and accepting an
 * email domain only on an "ok" status. The requests themselves are abstract
 * inputs.
 */
module Enrichment {
  import opened Wrappers
  import opened JsText

  /** The object `getIpInfo` resolves to: `obj[key]` is a string, or undefined for a line with no `=`. */
  type IpInfo = map<string, JsValue>

  /** One line of the trace: the text before the first `=` and the segment after it up to the next `=`. */
  function TraceEntry(line: string): (string, JsValue) {
    var pair := Split(line, '=');
    (pair[0], if |pair| >= 2 then Str(pair[1]) else Undefined)
  }

  /** The reduce over the lines: each line sets its key, so a later duplicate wins. */
  function ParseTraceLines(lines: seq<string>): IpInfo
    decreases |lines|
  {
    if lines == [] then map[]
    else
      var entry := TraceEntry(lines[|lines| - 1]);
      ParseTraceLines(lines[..|lines| - 1])[entry.0 := entry.1]
  }

  /** `getIpInfo()`: None stands for a failed request, which gives the empty object. */
  function GetIpInfo(response: Option<string>): (r: IpInfo)
    ensures response.None? ==> r == map[]
  {
    match response
    case None => map[]
    case Some(data) => ParseTraceLines(Split(Trim(data), '\n'))
  }

  /** A line `k=v` or `k=v=rest` stores `v` under `k`. */
  lemma {:induction false} TraceEntryOfPair(k: string, v: string, rest: seq<string>)
    requires '=' !in k && '=' !in v
    requires forall i :: 0 <= i < |rest| ==> '=' !in rest[i]
    ensures TraceEntry(Join([k, v] + rest, '=')) == (k, Str(v))
  {
    var parts := [k, v] + rest;
    forall i | 0 <= i < |parts| ensures '=' !in parts[i] {
      if i >= 2 { assert parts[i] == rest[i - 2]; }
    }
    SplitJoin(parts, '=');
  }

  /** A line without `=` stores undefined under the whole line. */
  lemma {:induction false} TraceEntryNoValue(line: string)
    requires '=' !in line
    ensures TraceEntry(line) == (line, Undefined)
  {
    SplitWhole(line, '=');
  }

  /** A key is present exactly when some line carries it. */
  lemma {:induction false} ParseTraceKeys(lines: seq<string>, k: string)
    ensures k in ParseTraceLines(lines) <==> exists i :: 0 <= i < |lines| && TraceEntry(lines[i]).0 == k
    decreases |lines|
  {
    if lines != [] {
      var n := |lines| - 1;
      ParseTraceKeys(lines[..n], k);
      if k in ParseTraceLines(lines[..n]) {
        var i :| 0 <= i < n && TraceEntry(lines[..n][i]).0 == k;
        assert TraceEntry(lines[i]).0 == k;
      }
      if exists i :: 0 <= i < |lines| && TraceEntry(lines[i]).0 == k {
        var i :| 0 <= i < |lines| && TraceEntry(lines[i]).0 == k;
        if i < n {
          assert TraceEntry(lines[..n][i]).0 == k;
        }
      }
    }
  }

  /** The value stored under a key is the one of the last line carrying that key. */
  lemma {:induction false} ParseTraceLastWins(lines: seq<string>, i: nat)
    requires i < |lines|
    requires forall j :: i < j < |lines| ==> TraceEntry(lines[j]).0 != TraceEntry(lines[i]).0
    ensures var k := TraceEntry(lines[i]).0;
            k in ParseTraceLines(lines) && ParseTraceLines(lines)[k] == TraceEntry(lines[i]).1
    decreases |lines|
  {
    var n := |lines| - 1;
    if i < n {
      assert lines[..n][i] == lines[i];
      forall j | i < j < n ensures TraceEntry(lines[..n][j]).0 != TraceEntry(lines[..n][i]).0 {
        assert lines[..n][j] == lines[j];
      }
      ParseTraceLastWins(lines[..n], i);
    }
  }

  /** `toLowerCase` on the ASCII letters that country codes use. */
  function LowerAscii(s: string): (r: string)
    ensures |r| == |s|
    ensures forall i :: 0 <= i < |r| ==> !('A' <= r[i] <= 'Z')
    ensures forall i :: 0 <= i < |s| && 'A' <= s[i] <= 'Z' ==> 'a' <= r[i] <= 'z' && r[i] as int == s[i] as int + 32
    ensures forall i :: 0 <= i < |s| && !('A' <= s[i] <= 'Z') ==> r[i] == s[i]
  {
    seq(|s|, i requires 0 <= i < |s| => if 'A' <= s[i] <= 'Z' then (s[i] - 'A' + 'a') as char else s[i])
  }

  /** A code without upper-case letters, an already lower-cased one in particular, comes back unchanged. */
  lemma LowerAsciiKeeps(s: string)
    requires forall i :: 0 <= i < |s| ==> !('A' <= s[i] <= 'Z')
    ensures LowerAscii(s) == s
  {
  }

  /** Lower-casing twice is lower-casing once. */
  lemma LowerAsciiIdempotent(s: string)
    ensures LowerAscii(LowerAscii(s)) == LowerAscii(s)
  {
    LowerAsciiKeeps(LowerAscii(s));
  }

  /** The second geo lookup: failed, or the `data?.ip?.country_code` value it returned. */
  datatype GeoReply = GeoFailed | GeoReplied(countryCode: JsValue)

  /**
   * `geoIpLookup(defaultCountry)`: a truthy `ipData.loc` lower-cased; without
   * it, the second lookup's string country code lower-cased; an empty result,
   * a missing or non-string code, or a failure gives the default.
   */
  function GeoIpLookup(ipData: IpInfo, reply: GeoReply, defaultCountry: string): (r: string)
    ensures defaultCountry != "" ==> r != ""
    ensures "loc" in ipData && ipData["loc"].Str? && ipData["loc"].s != "" ==> r == LowerAscii(ipData["loc"].s)
    ensures (!("loc" in ipData && Truthy(ipData["loc"])) && (reply.GeoFailed? || !reply.countryCode.Str?))
            ==> r == defaultCountry
    ensures !("loc" in ipData && Truthy(ipData["loc"])) && reply.GeoReplied? && reply.countryCode.Str?
            ==> r == if reply.countryCode.s == "" then defaultCountry else LowerAscii(reply.countryCode.s)
  {
    var loc := if "loc" in ipData then ipData["loc"] else Undefined;
    if Truthy(loc) then
      var lower := LowerAscii(ToString(loc));
      if lower != "" then lower else defaultCountry
    else
      match reply
      case GeoReplied(Str(code)) =>
        var lower := LowerAscii(code);
        if lower != "" then lower else defaultCountry
      case _ => defaultCountry
  }

  /** `getItiConfig`'s country: `window.itiInitialCountry` when truthy, else a fresh lookup defaulting to "ua". */
  function InitialCountry(itiInitialCountry: JsValue, ipData: IpInfo, reply: GeoReply): (r: string)
    ensures r != ""
    ensures Truthy(itiInitialCountry) ==> r == ToString(itiInitialCountry)
  {
    if Truthy(itiInitialCountry) then ToString(itiInitialCountry) else GeoIpLookup(ipData, reply, "ua")
  }

  /** The domain-check request: failed, or the `data?.data?.status` value it returned. */
  datatype DomainReply = DomainFailed | DomainReplied(status: JsValue)

  /** `checkEmailDomain`: true only for the status "ok"; any other status or a failure is false. */
  function EmailDomainOk(reply: DomainReply): (ok: bool)
    ensures ok <==> reply == DomainReplied(Str("ok"))
  {
    match reply
    case DomainReplied(Str(status)) => status == "ok"
    case _ => false
  }
}
