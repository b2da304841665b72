/**
 * The form handler of form.js: the phone-input filter, the deep link into
 * the learning platform, and the `onSuccess` submit handler with its two
 * endings, the embedded CRM widget (`showLeelooBlock`) and the inline
 * success alert (`showDefaultBlock`).
 */
module Form {
  import opened Wrappers
  import opened JsText
  import opened Locale
  import opened Attribution
  import opened Enrichment
  import opened Submission
  import opened Page

  // ---------------------------------------------------------------------------
  // Phone input: `value.replace(/[^\d\s]/g, "")`
  // ---------------------------------------------------------------------------

  /** `\d` (ASCII digits) or `\s` (ECMAScript white space and line terminators). */
  predicate PhoneChar(c: char) {
    ('0' <= c <= '9') || IsWhiteSpace(c)
  }

  predicate AllPhoneChars(s: string) {
    forall i :: 0 <= i < |s| ==> PhoneChar(s[i])
  }

  /** The input value after the `input` listener: every other character removed. */
  function SanitizePhone(s: string): (r: string)
    ensures |r| <= |s|
    ensures AllPhoneChars(r)
    decreases |s|
  {
    if s == [] then []
    else (if PhoneChar(s[0]) then [s[0]] else []) + SanitizePhone(s[1..])
  }

  /** The filter works character by character: it distributes over concatenation. */
  lemma {:induction false} SanitizeAppend(a: string, b: string)
    ensures SanitizePhone(a + b) == SanitizePhone(a) + SanitizePhone(b)
    decreases |a|
  {
    if a != [] {
      var head := if PhoneChar(a[0]) then [a[0]] else [];
      assert (a + b)[0] == a[0];
      assert (a + b)[1..] == a[1..] + b;
      assert SanitizePhone(a + b) == head + SanitizePhone(a[1..] + b);
      SanitizeAppend(a[1..], b);
      assert SanitizePhone(a) == head + SanitizePhone(a[1..]);
    } else {
      assert a + b == b;
    }
  }

  /** A value made only of digits and white space is left as it is. */
  lemma {:induction false} SanitizeKeeps(s: string)
    requires AllPhoneChars(s)
    ensures SanitizePhone(s) == s
    decreases |s|
  {
    if s != [] {
      assert AllPhoneChars(s[1..]) by {
        forall i | 0 <= i < |s| - 1 ensures PhoneChar(s[1..][i]) {
          assert s[1..][i] == s[i + 1];
        }
      }
      SanitizeKeeps(s[1..]);
    }
  }

  /** A value with no digit and no white space is emptied. */
  lemma {:induction false} SanitizeDrops(s: string)
    requires forall i :: 0 <= i < |s| ==> !PhoneChar(s[i])
    ensures SanitizePhone(s) == ""
    decreases |s|
  {
    if s != [] {
      assert forall i :: 0 <= i < |s| - 1 ==> !PhoneChar(s[1..][i]) by {
        forall i | 0 <= i < |s| - 1 ensures !PhoneChar(s[1..][i]) {
          assert s[1..][i] == s[i + 1];
        }
      }
      SanitizeDrops(s[1..]);
    }
  }

  /** Filtering a second time changes nothing. */
  lemma SanitizeIdempotent(s: string)
    ensures SanitizePhone(SanitizePhone(s)) == SanitizePhone(s)
  {
    SanitizeKeeps(SanitizePhone(s));
  }

  /** Every digit and white-space character is kept, as often as it occurs; every other character is gone. */
  lemma {:induction false} SanitizeCounts(s: string, c: char)
    ensures multiset(SanitizePhone(s))[c] == if PhoneChar(c) then multiset(s)[c] else 0
    decreases |s|
  {
    if s != [] {
      SanitizeCounts(s[1..], c);
      assert s == [s[0]] + s[1..];
      assert multiset(s) == multiset([s[0]]) + multiset(s[1..]);
    }
  }

  /** A plus sign, a parenthesis or a dash typed anywhere in the number is removed and the rest is filtered as before. */
  lemma PunctuationRemoved(before: string, c: char, after: string)
    requires c in "+()-"
    ensures SanitizePhone(before + [c] + after) == SanitizePhone(before) + SanitizePhone(after)
  {
    assert c == '+' || c == '(' || c == ')' || c == '-';
    assert !PhoneChar(c);
    assert SanitizePhone([c]) == [] by {
      assert [c][1..] == [];
    }
    SanitizeAppend(before + [c], after);
    SanitizeAppend(before, [c]);
    var kept := SanitizePhone(before);
    assert kept + [] == kept;
    calc {
      SanitizePhone(before + [c] + after);
      SanitizePhone(before + [c]) + SanitizePhone(after);
      (kept + SanitizePhone([c])) + SanitizePhone(after);
      kept + SanitizePhone(after);
    }
  }

  /** The phone input's `input` listener. */
  method OnPhoneInput(b: Browser)
    modifies b
    ensures b.View() == old(b.View()).(inputs := old(b.View()).inputs.(phone := SanitizePhone(old(b.phone))))
  {
    b.phone := SanitizePhone(b.phone);
  }

  // ---------------------------------------------------------------------------
  // Deep link into the learning platform
  // ---------------------------------------------------------------------------

  const LinkName := "fullname=%7Bname%7D"
  const LinkPhone := "phone=%7Bphone%7D"
  const LinkEmail := "email=%7Bemail%7D"

  /** `if (link.includes(placeholder)) link = link.replace(placeholder, replacement)`. */
  function Substitute(link: string, placeholder: string, replacement: string): (r: string)
    ensures !Contains(link, placeholder) ==> r == link
    ensures Contains(link, placeholder) ==> |r| == |link| - |placeholder| + |replacement|
  {
    if Contains(link, placeholder) then ReplaceFirst(link, placeholder, replacement) else link
  }

  /**
   * Only the first occurrence of a placeholder is replaced, and the text on
   * both sides of it is kept.
   */
  lemma SubstituteFirst(pre: string, placeholder: string, post: string, replacement: string)
    requires forall j :: 0 <= j < |pre| ==> !OccursAt(pre + placeholder + post, placeholder, j)
    ensures Substitute(pre + placeholder + post, placeholder, replacement) == pre + replacement + post
  {
    ReplaceFirstAt(pre, placeholder, post, replacement);
  }

  /** The link with the user's name, phone and email put in for the three placeholders, in that order. */
  function DeepLinkFor(template: string, crm: CrmParams): string {
    var withName := Substitute(template, LinkName, "fullname=" + crm.userName);
    var withPhone := Substitute(withName, LinkPhone, "phone=" + crm.userPhone);
    Substitute(withPhone, LinkEmail, "email=" + crm.userEmail)
  }

  /** A template without any of the placeholders comes out unchanged. */
  lemma DeepLinkWithoutPlaceholders(template: string, crm: CrmParams)
    requires !Contains(template, LinkName) && !Contains(template, LinkPhone) && !Contains(template, LinkEmail)
    ensures DeepLinkFor(template, crm) == template
  {
  }

  /** The reassignments of `deepLink` in `showLeelooBlock`. */
  method BuildDeepLink(template: string, crm: CrmParams) returns (deepLink: string)
    ensures deepLink == DeepLinkFor(template, crm)
  {
    deepLink := template;
    if Contains(deepLink, LinkName) {
      deepLink := ReplaceFirst(deepLink, LinkName, "fullname=" + crm.userName);
    }
    if Contains(deepLink, LinkPhone) {
      deepLink := ReplaceFirst(deepLink, LinkPhone, "phone=" + crm.userPhone);
    }
    if Contains(deepLink, LinkEmail) {
      deepLink := ReplaceFirst(deepLink, LinkEmail, "email=" + crm.userEmail);
    }
  }

  // ---------------------------------------------------------------------------
  // The submit handler
  // ---------------------------------------------------------------------------

  /** `params.needsCheckEmailDomain`. */
  const NeedsCheckEmailDomain := true

  /** The handler stops at the email-domain check. */
  predicate EmailGateFails(domain: DomainReply) {
    NeedsCheckEmailDomain && !EmailDomainOk(domain)
  }

  /** `crmParams`, from the input values, the number the phone widget formats and the page's product. */
  function CrmOf(inputs: Inputs, phoneNumber: string, s: Session): CrmParams {
    CrmParams(inputs.name, phoneNumber, inputs.email, s.productName, s.productId)
  }

  /** What `generateData(crmParams)` gives for the page's cookies. */
  function PayloadOf(crm: CrmParams, s: Session, jar: CookieJar): FormData {
    PayloadFor(crm, s, jar, ReadCookieValue(s.documentCookie, "_ga"))
  }

  /** `$(form).css("display", "block"); service.showError();` */
  function ErrorShownSpec(v: PageView, lang: Lang): (r: Outcome)
    ensures r.view.controls.formVisible
    ensures r.view.(controls := v.controls) == v
  {
    var a := NoticeSpec(v.controls.(formVisible := true), lang, ErrorKind, Undefined, None, false);
    Outcome(v.(controls := a.controls), a.ending)
  }

  /** The URL query after the 200 branch of `showLeelooBlock`. */
  function WelcomeQuery(query: map<string, string>, name: string, s: Session, crm: CrmParams, intelzaId: JsValue): map<string, string> {
    var named := query["name2" := name]["template_version" := ToString(s.templateVersion)];
    var withElza := if Truthy(s.elzaToken) then named["elza_id" := ToString(intelzaId)] else named;
    if Truthy(s.leelooDeepLink) then withElza["lms_deeplink" := DeepLinkFor(ToString(s.leelooDeepLink), crm)]
    else withElza
  }

  /**
   * The 200 branch of `showLeelooBlock`: URL parameters for the widget, the
   * widget itself, then the form hidden and reset and step 3 shown.
   * `initializeLeeloo` is called without a hash, so it falls back to
   * `window.leelooHash`.
   */
  function WelcomeSpec(v: PageView, s: Session, crm: CrmParams, intelzaId: JsValue): PageView {
    v.(query := WelcomeQuery(v.query, v.inputs.name, s, crm, intelzaId),
       widget := Widget(true, v.widget.leadgenTools + [s.leelooHash]),
       controls := v.controls.(formVisible := false),
       inputs := Inputs("", "", ""),
       steps := Activate(|v.steps|, 3))
  }

  /** The `try` block of `showLeelooBlock`, after the URL parameters were copied from the payload. */
  function LeelooTrySpec(v: PageView, s: Session, lang: Lang, crm: CrmParams, outcome: SendOutcome): Outcome {
    match outcome
    case Rejected => Outcome(v, Threw)
    case Resolved(status, id) =>
      if status == 200 then Outcome(WelcomeSpec(v, s, crm, id), Returned) else ErrorShownSpec(v, lang)
  }

  /** `setParamsForLeeloo(crm.generateData(crmParams))`. */
  function CopiedSpec(v: PageView, s: Session, crm: CrmParams): PageView {
    v.(query := LeelooQuery(v.query, PayloadOf(crm, s, v.cookies), LeelooFields))
  }

  /** The `catch` block of `showLeelooBlock`, run when the `try` block threw. */
  function LeelooCatchSpec(tried: Outcome, lang: Lang): Outcome {
    if tried.ending == Returned then tried else ErrorShownSpec(tried.view, lang)
  }

  /** `showLeelooBlock`: copy the payload into the URL, await the send, `catch` with an error, `finally` hide loading. */
  function LeelooSpec(v: PageView, s: Session, lang: Lang, crm: CrmParams, outcome: SendOutcome): Outcome {
    var caught := LeelooCatchSpec(LeelooTrySpec(CopiedSpec(v, s, crm), s, lang, crm, outcome), lang);
    Outcome(caught.view.(controls := HideLoadingSpec(caught.view.controls, Loader(false))), caught.ending)
  }

  /**
   * The 200 branch of `showDefaultBlock`: reset, step 3, then
   * `showSuccess(translate("reply"), true, loading, true)` and the form shown.
   */
  function DefaultWelcomeSpec(v: PageView, lang: Lang): Outcome {
    var reset := v.(inputs := Inputs("", "", ""), steps := Activate(|v.steps|, 3));
    match Tr(lang, "reply")
    case Err(_) => Outcome(reset, Threw)
    case Ok(reply) =>
      var a := NoticeSpec(reset.controls, lang, SuccessKind, Str(reply), Some(Loader(false)), true);
      if a.ending == Threw then Outcome(reset.(controls := a.controls), Threw)
      else Outcome(reset.(controls := a.controls.(formVisible := true)), Returned)
  }

  /** The `try` block of `showDefaultBlock`. */
  function DefaultTrySpec(v: PageView, lang: Lang, outcome: SendOutcome): Outcome {
    match outcome
    case Rejected => Outcome(v, Threw)
    case Resolved(status, _) => if status == 200 then DefaultWelcomeSpec(v, lang) else ErrorShownSpec(v, lang)
  }

  /** `showDefaultBlock`: only the `catch` block hides the loading indicator, after its error alert. */
  function DefaultSpec(v: PageView, lang: Lang, outcome: SendOutcome): Outcome {
    DefaultCatchSpec(DefaultTrySpec(v, lang, outcome), lang)
  }

  /** The `catch` block of `showDefaultBlock`: the error alert, then loading hidden. */
  function DefaultCatchSpec(tried: Outcome, lang: Lang): Outcome {
    if tried.ending == Returned then tried
    else
      var e := ErrorShownSpec(tried.view, lang);
      if e.ending == Threw then e
      else Outcome(e.view.(controls := HideLoadingSpec(e.view.controls, Loader(false))), Returned)
  }

  /** The state once the handler has hidden the form, shown loading, sent the request and gone to step 2. */
  function DispatchedSpec(v: PageView, s: Session, phoneNumber: string): PageView {
    var crm := CrmOf(v.inputs, phoneNumber, s);
    v.(controls := v.controls.(formVisible := false, loading := true),
       outbox := v.outbox + [PayloadOf(crm, s, v.cookies)],
       steps := Activate(|v.steps|, 2))
  }

  /**
   * The `onSuccess` handler: disable the button, check the email domain,
   * trim the name, show loading, send, go to step 2, then one of the two
   * endings. `translate` throwing anywhere is an uncaught exception unless a
   * `catch` around it handles it.
   */
  function SubmitSpec(v: PageView, s: Session, lang: Lang, domain: DomainReply, phoneNumber: string, reply: HttpReply): Outcome {
    var disabled := v.(controls := v.controls.(submitDisabled := true));
    if EmailGateFails(domain) then EmailRejectedSpec(disabled, lang)
    else ProceedSpec(disabled, s, lang, phoneNumber, reply)
  }

  /** `return service.showError(service.translate("emailNotExists"))`. */
  function EmailRejectedSpec(v: PageView, lang: Lang): Outcome {
    match Tr(lang, "emailNotExists")
    case Err(_) => Outcome(v, Threw)
    case Ok(msg) =>
      var a := NoticeSpec(v.controls, lang, ErrorKind, Str(msg), None, false);
      Outcome(v.(controls := a.controls), a.ending)
  }

  /** The handler past the domain check: trim the name, translate the loading message, send, and branch. */
  function ProceedSpec(v: PageView, s: Session, lang: Lang, phoneNumber: string, reply: HttpReply): Outcome {
    var trimmed := v.(inputs := v.inputs.(name := Trim(v.inputs.name)));
    if Tr(lang, "loadingMessage").Err? then Outcome(trimmed, Threw)
    else
      var sent := DispatchedSpec(trimmed, s, phoneNumber);
      var crm := CrmOf(sent.inputs, phoneNumber, s);
      if Truthy(s.leelooHash) then LeelooSpec(sent, s, lang, crm, Settle(reply))
      else DefaultSpec(sent, lang, Settle(reply))
  }

  // ---------------------------------------------------------------------------
  // What the handler guarantees
  // ---------------------------------------------------------------------------

  /** Every message the handler can ask `translate` for exists in the active locale. */
  predicate Translatable(lang: Lang) {
    && Tr(lang, "error").Ok? && Tr(lang, "tryAgain").Ok? && Tr(lang, "thanks").Ok?
    && Tr(lang, "reply").Ok? && Tr(lang, "loadingMessage").Ok? && Tr(lang, "emailNotExists").Ok?
  }

  /** The handler got past the domain check and sent the request. */
  predicate Dispatches(lang: Lang, domain: DomainReply) {
    !EmailGateFails(domain) && Tr(lang, "loadingMessage").Ok?
  }

  /**
   * A failed domain check ends the handler before anything is built or sent:
   * the form, loading, the steps, the URL, the cookies and the inputs stay as
   * they were. With the messages present the error alert re-enables the
   * button; without "emailNotExists" the handler throws and the button stays
   * disabled.
   */
  lemma GateBlocksSubmission(v: PageView, s: Session, lang: Lang, domain: DomainReply, phoneNumber: string, reply: HttpReply)
    requires EmailGateFails(domain)
    ensures var r := SubmitSpec(v, s, lang, domain, phoneNumber, reply);
            && r.view.outbox == v.outbox && r.view.steps == v.steps && r.view.query == v.query
            && r.view.cookies == v.cookies && r.view.inputs == v.inputs && r.view.widget == v.widget
            && r.view.controls.formVisible == v.controls.formVisible && r.view.controls.loading == v.controls.loading
            && (Translatable(lang) ==>
                  && r.ending == Returned && !r.view.controls.submitDisabled
                  && r.view.controls.notice == Shown(ErrorKind, Tr(lang, "error").value, Tr(lang, "emailNotExists").value))
            && (Tr(lang, "emailNotExists").Err? ==> r.ending == Threw && r.view.controls.submitDisabled)
  {
    var disabled := v.(controls := v.controls.(submitDisabled := true));
    assert SubmitSpec(v, s, lang, domain, phoneNumber, reply) == EmailRejectedSpec(disabled, lang);
  }

  /** Without a loading message the handler throws after trimming the name: nothing is sent and the button stays disabled. */
  lemma MissingLoadingMessage(v: PageView, s: Session, lang: Lang, domain: DomainReply, phoneNumber: string, reply: HttpReply)
    requires !EmailGateFails(domain) && Tr(lang, "loadingMessage").Err?
    ensures var r := SubmitSpec(v, s, lang, domain, phoneNumber, reply);
            && r.ending == Threw && r.view.controls.submitDisabled && r.view.outbox == v.outbox
            && r.view.inputs.name == Trim(v.inputs.name) && r.view.steps == v.steps
  {
  }

  /** The state `ProceedSpec` hands to the chosen ending. */
  function SentView(v: PageView, s: Session, phoneNumber: string): PageView {
    var disabled := v.(controls := v.controls.(submitDisabled := true));
    DispatchedSpec(disabled.(inputs := disabled.inputs.(name := Trim(v.inputs.name))), s, phoneNumber)
  }

  /** The handler past the domain check is one of the two endings, applied to the state after the send. */
  lemma SubmitBranches(v: PageView, s: Session, lang: Lang, domain: DomainReply, phoneNumber: string, reply: HttpReply)
    requires Dispatches(lang, domain)
    ensures var sent := SentView(v, s, phoneNumber);
            var crm := CrmOf(sent.inputs, phoneNumber, s);
            SubmitSpec(v, s, lang, domain, phoneNumber, reply) ==
              if Truthy(s.leelooHash) then LeelooSpec(sent, s, lang, crm, Settle(reply))
              else DefaultSpec(sent, lang, Settle(reply))
  {
  }

  /**
   * Once past the domain check, exactly one request leaves, and its name is
   * the trimmed name; phone is the widget's number and email the input's.
   */
  lemma SubmitSendsTrimmedName(v: PageView, s: Session, lang: Lang, domain: DomainReply, phoneNumber: string, reply: HttpReply)
    requires Dispatches(lang, domain)
    ensures var r := SubmitSpec(v, s, lang, domain, phoneNumber, reply);
            && |r.view.outbox| == |v.outbox| + 1 && r.view.outbox[..|v.outbox|] == v.outbox
            && FormDataGet(r.view.outbox[|v.outbox|], "name") == Some(Trim(v.inputs.name))
            && FormDataGet(r.view.outbox[|v.outbox|], "phone") == Some(phoneNumber)
            && FormDataGet(r.view.outbox[|v.outbox|], "email") == Some(v.inputs.email)
  {
    var sent := SentView(v, s, phoneNumber);
    var crm := CrmOf(sent.inputs, phoneNumber, s);
    var p := PayloadOf(crm, s, v.cookies);
    SubmitBranches(v, s, lang, domain, phoneNumber, reply);
    LeelooKeepsOutbox(sent, s, lang, crm, Settle(reply));
    DefaultKeepsOutbox(sent, lang, Settle(reply));
    assert sent.outbox == v.outbox + [p];
    PayloadOfInputs(crm, s, v.cookies);
  }

  /**
   * A 200 reply with every message present: step 3, the form reset and the
   * loading indicator gone. The Leeloo ending then shows the widget and keeps
   * the form hidden and the button disabled; the default ending shows the
   * success alert, closes the modal and brings the form and button back.
   */
  lemma SubmitOn200(v: PageView, s: Session, lang: Lang, domain: DomainReply, phoneNumber: string, id: JsValue)
    requires Dispatches(lang, domain) && Translatable(lang)
    ensures var r := SubmitSpec(v, s, lang, domain, phoneNumber, HttpResponse(200, id));
            && r.ending == Returned
            && r.view.steps == Activate(|v.steps|, 3) && r.view.inputs == Inputs("", "", "")
            && !r.view.controls.loading
            && (Truthy(s.leelooHash) ==>
                  && r.view.widget == Widget(true, v.widget.leadgenTools + [s.leelooHash])
                  && "name2" in r.view.query && r.view.query["name2"] == Trim(v.inputs.name)
                  && !r.view.controls.formVisible && r.view.controls.submitDisabled)
            && (!Truthy(s.leelooHash) ==>
                  && r.view.widget == v.widget && r.view.controls.formVisible && !r.view.controls.submitDisabled
                  && !r.view.controls.modalOpen
                  && r.view.controls.notice == Shown(SuccessKind, Tr(lang, "thanks").value, Tr(lang, "reply").value))
  {
    var sent := SentView(v, s, phoneNumber);
    var crm := CrmOf(sent.inputs, phoneNumber, s);
    SubmitBranches(v, s, lang, domain, phoneNumber, HttpResponse(200, id));
    assert Settle(HttpResponse(200, id)) == Resolved(200, id);
    assert |sent.steps| == |v.steps| && sent.widget == v.widget;
    if Truthy(s.leelooHash) {
      LeelooWelcomeOn200(sent, s, lang, crm, id);
      WelcomeQueryEffect(LeelooQuery(sent.query, PayloadOf(crm, s, sent.cookies), LeelooFields), sent.inputs.name, s, crm, id, "name2");
    } else {
      DefaultSuccessOn200(sent, lang, id);
    }
  }

  /**
   * Any other reply with every message present: the handler returns with step
   * 2 active, the trimmed name still in the form, the form shown, the button
   * enabled and the error alert up. Loading stays on screen exactly in the
   * default ending with a 2xx status other than 200.
   */
  lemma SubmitFailure(v: PageView, s: Session, lang: Lang, domain: DomainReply, phoneNumber: string, reply: HttpReply)
    requires Dispatches(lang, domain) && Translatable(lang)
    requires !(reply.HttpResponse? && reply.status == 200)
    ensures var r := SubmitSpec(v, s, lang, domain, phoneNumber, reply);
            && r.ending == Returned
            && r.view.steps == Activate(|v.steps|, 2) && r.view.inputs == v.inputs.(name := Trim(v.inputs.name))
            && r.view.widget == v.widget
            && r.view.controls.formVisible && !r.view.controls.submitDisabled
            && r.view.controls.notice == Shown(ErrorKind, Tr(lang, "error").value, Tr(lang, "tryAgain").value)
            && (r.view.controls.loading <==> !Truthy(s.leelooHash) && reply.HttpResponse? && 200 < reply.status < 300)
  {
    var sent := SentView(v, s, phoneNumber);
    var crm := CrmOf(sent.inputs, phoneNumber, s);
    var outcome := Settle(reply);
    SubmitBranches(v, s, lang, domain, phoneNumber, reply);
    assert sent.controls.loading;
    if Truthy(s.leelooHash) {
      LeelooErrorOtherwise(sent, s, lang, crm, outcome);
    } else if outcome.Rejected? {
      DefaultRejectedHidesLoading(sent, lang);
    } else {
      DefaultErrorKeepsLoading(sent, lang, outcome.status, outcome.intelzaId);
    }
  }

  lemma PayloadOfInputs(crm: CrmParams, s: Session, jar: CookieJar)
    ensures var p := PayloadOf(crm, s, jar);
            && FormDataGet(p, "name") == Some(crm.userName)
            && FormDataGet(p, "phone") == Some(crm.userPhone)
            && FormDataGet(p, "email") == Some(crm.userEmail)
  {
    PayloadInputFields(crm, s, jar, ReadCookieValue(s.documentCookie, "_ga"));
  }

  /** Neither ending sends anything else or touches the cookies. */
  lemma LeelooKeepsOutbox(v: PageView, s: Session, lang: Lang, crm: CrmParams, outcome: SendOutcome)
    ensures var r := LeelooSpec(v, s, lang, crm, outcome);
            r.view.outbox == v.outbox && r.view.cookies == v.cookies
  {
    var copied := CopiedSpec(v, s, crm);
    assert copied.outbox == v.outbox && copied.cookies == v.cookies;
    LeelooCaughtFrame(copied, s, lang, crm, outcome);
  }

  /** Neither ending sends anything else or touches the cookies. */
  lemma DefaultKeepsOutbox(v: PageView, lang: Lang, outcome: SendOutcome)
    ensures var r := DefaultSpec(v, lang, outcome);
            r.view.outbox == v.outbox && r.view.cookies == v.cookies
  {
    match outcome {
      case Rejected =>
        ErrorShownEffect(v, lang);
      case Resolved(status, id) =>
        if status == 200 {
          var w := DefaultWelcomeSpec(v, lang);
          assert w.view.outbox == v.outbox && w.view.cookies == v.cookies;
          ErrorShownEffect(w.view, lang);
        } else {
          DefaultErrorKeepsLoading(v, lang, status, id);
        }
    }
  }

  lemma LeelooCaughtFrame(c: PageView, s: Session, lang: Lang, crm: CrmParams, outcome: SendOutcome)
    ensures var r := LeelooCatchSpec(LeelooTrySpec(c, s, lang, crm, outcome), lang);
            r.view.outbox == c.outbox && r.view.cookies == c.cookies
  {
  }

  /**
   * The URL parameters of the 200 branch: `name2` and `template_version`
   * always, `elza_id` only with an Elza token, `lms_deeplink` only with a deep
   * link; every other parameter is left alone.
   */
  lemma WelcomeQueryEffect(query: map<string, string>, name: string, s: Session, crm: CrmParams, intelzaId: JsValue, t: string)
    ensures var r := WelcomeQuery(query, name, s, crm, intelzaId);
            && "name2" in r && r["name2"] == name
            && "template_version" in r && r["template_version"] == ToString(s.templateVersion)
            && (Truthy(s.elzaToken) ==> "elza_id" in r && r["elza_id"] == ToString(intelzaId))
            && (!Truthy(s.elzaToken) ==> SameEntry(r, query["name2" := name]["template_version" := ToString(s.templateVersion)], "elza_id"))
            && (Truthy(s.leelooDeepLink) ==> "lms_deeplink" in r && r["lms_deeplink"] == DeepLinkFor(ToString(s.leelooDeepLink), crm))
            && (!Truthy(s.leelooDeepLink) ==> SameEntry(r, query["name2" := name]["template_version" := ToString(s.templateVersion)], "lms_deeplink"))
            && (t != "name2" && t != "template_version" && t != "elza_id" && t != "lms_deeplink" ==> SameEntry(r, query, t))
  {
  }

  /** `finally { loading.hide() }`: the Leeloo ending always hides the loading indicator and never touches the modal. */
  lemma LeelooAlwaysHidesLoading(v: PageView, s: Session, lang: Lang, crm: CrmParams, outcome: SendOutcome)
    ensures var r := LeelooSpec(v, s, lang, crm, outcome);
            !r.view.controls.loading && r.view.controls.modalOpen == v.controls.modalOpen
  {
    var copied := CopiedSpec(v, s, crm);
    assert copied.controls == v.controls;
    LeelooCaughtModal(copied, s, lang, crm, outcome);
  }

  lemma LeelooCaughtModal(c: PageView, s: Session, lang: Lang, crm: CrmParams, outcome: SendOutcome)
    ensures LeelooCatchSpec(LeelooTrySpec(c, s, lang, crm, outcome), lang).view.controls.modalOpen == c.controls.modalOpen
  {
    var tried := LeelooTrySpec(c, s, lang, crm, outcome);
    match outcome {
      case Rejected =>
      case Resolved(status, id) =>
        if status == 200 {
          assert tried.view.controls == c.controls.(formVisible := false);
        } else {
          assert tried == ErrorShownSpec(c, lang);
        }
    }
    ErrorShownEffect(tried.view, lang);
  }

  /**
   * A 200 reply in the Leeloo ending: the URL carries the payload fields and
   * the welcome parameters, the widget is shown with the page's hash, the form
   * is hidden and reset, step 3 is active and loading is hidden; the button
   * is left disabled and no alert is raised.
   */
  lemma LeelooWelcomeOn200(v: PageView, s: Session, lang: Lang, crm: CrmParams, id: JsValue)
    ensures var r := LeelooSpec(v, s, lang, crm, Resolved(200, id));
            && r.ending == Returned
            && r.view.query == WelcomeQuery(LeelooQuery(v.query, PayloadOf(crm, s, v.cookies), LeelooFields), v.inputs.name, s, crm, id)
            && r.view.widget == Widget(true, v.widget.leadgenTools + [s.leelooHash])
            && r.view.inputs == Inputs("", "", "") && r.view.steps == Activate(|v.steps|, 3)
            && !r.view.controls.formVisible && !r.view.controls.loading
            && r.view.controls.submitDisabled == v.controls.submitDisabled && r.view.controls.notice == v.controls.notice
            && r.view.outbox == v.outbox && r.view.cookies == v.cookies
  {
    var copied := CopiedSpec(v, s, crm);
    assert copied.controls == v.controls && copied.inputs == v.inputs;
    LeelooCaught200(copied, s, lang, crm, id);
  }

  lemma LeelooCaught200(c: PageView, s: Session, lang: Lang, crm: CrmParams, id: JsValue)
    ensures var r := LeelooCatchSpec(LeelooTrySpec(c, s, lang, crm, Resolved(200, id)), lang);
            r.ending == Returned && r.view == WelcomeSpec(c, s, crm, id)
  {
  }

  /**
   * Any other outcome in the Leeloo ending: the payload fields are still in
   * the URL, the form is shown again, loading is hidden, and nothing else on
   * the page changes. The handler returns normally exactly when both error
   * messages exist, and then the error alert is up and the button enabled.
   */
  lemma LeelooErrorOtherwise(v: PageView, s: Session, lang: Lang, crm: CrmParams, outcome: SendOutcome)
    requires !(outcome.Resolved? && outcome.status == 200)
    ensures var r := LeelooSpec(v, s, lang, crm, outcome);
            && r.view.query == LeelooQuery(v.query, PayloadOf(crm, s, v.cookies), LeelooFields)
            && r.view.widget == v.widget && r.view.inputs == v.inputs && r.view.steps == v.steps
            && r.view.outbox == v.outbox && r.view.cookies == v.cookies
            && r.view.controls.formVisible && !r.view.controls.loading
            && (r.ending == Returned <==> Tr(lang, "error").Ok? && Tr(lang, "tryAgain").Ok?)
            && (r.ending == Returned ==>
                  && !r.view.controls.submitDisabled
                  && r.view.controls.notice == Shown(ErrorKind, Tr(lang, "error").value, Tr(lang, "tryAgain").value))
  {
    var copied := CopiedSpec(v, s, crm);
    LeelooCaughtError(copied, s, lang, crm, outcome);
  }

  lemma LeelooCaughtError(c: PageView, s: Session, lang: Lang, crm: CrmParams, outcome: SendOutcome)
    requires !(outcome.Resolved? && outcome.status == 200)
    ensures var r := LeelooCatchSpec(LeelooTrySpec(c, s, lang, crm, outcome), lang);
            && r.view.(controls := c.controls) == c
            && r.view.controls.formVisible
            && (r.ending == Returned <==> Tr(lang, "error").Ok? && Tr(lang, "tryAgain").Ok?)
            && (r.ending == Returned ==>
                  && !r.view.controls.submitDisabled
                  && r.view.controls.notice == Shown(ErrorKind, Tr(lang, "error").value, Tr(lang, "tryAgain").value))
  {
    var tried := LeelooTrySpec(c, s, lang, crm, outcome);
    ErrorShownEffect(c, lang);
    ErrorShownEffect(tried.view, lang);
  }

  /**
   * A 200 reply in the default ending: the form is reset, step 3 is active,
   * the success alert carries the "reply" message, loading and the modal are
   * closed, the form is shown again and the button enabled.
   */
  lemma DefaultSuccessOn200(v: PageView, lang: Lang, id: JsValue)
    requires Tr(lang, "reply").Ok? && Tr(lang, "thanks").Ok?
    ensures var r := DefaultSpec(v, lang, Resolved(200, id));
            && r.ending == Returned
            && r.view.controls.notice == Shown(SuccessKind, Tr(lang, "thanks").value, Tr(lang, "reply").value)
            && !r.view.controls.submitDisabled && r.view.controls.formVisible
            && !r.view.controls.loading && !r.view.controls.modalOpen
            && r.view.inputs == Inputs("", "", "") && r.view.steps == Activate(|v.steps|, 3)
            && r.view.query == v.query && r.view.widget == v.widget
            && r.view.outbox == v.outbox && r.view.cookies == v.cookies
  {
    assert DefaultSpec(v, lang, Resolved(200, id)) == DefaultWelcomeSpec(v, lang);
  }

  /**
   * A resolved reply other than 200 in the default ending: the error alert is
   * raised outside the `catch`, so nothing hides the loading indicator.
   */
  lemma DefaultErrorKeepsLoading(v: PageView, lang: Lang, status: int, id: JsValue)
    requires status != 200
    ensures var r := DefaultSpec(v, lang, Resolved(status, id));
            && r.view.controls.loading == v.controls.loading && r.view.controls.modalOpen == v.controls.modalOpen
            && r.view.controls.formVisible
            && r.view.(controls := v.controls) == v
            && (r.ending == Returned <==> Tr(lang, "error").Ok? && Tr(lang, "tryAgain").Ok?)
            && (r.ending == Returned ==>
                  && !r.view.controls.submitDisabled
                  && r.view.controls.notice == Shown(ErrorKind, Tr(lang, "error").value, Tr(lang, "tryAgain").value))
  {
    var tried := DefaultTrySpec(v, lang, Resolved(status, id));
    assert tried == ErrorShownSpec(v, lang);
    ErrorShownEffect(v, lang);
    ErrorShownEffect(tried.view, lang);
  }

  /**
   * A rejected send in the default ending goes to the `catch`: the error alert,
   * then loading hidden, unless the alert itself throws.
   */
  lemma DefaultRejectedHidesLoading(v: PageView, lang: Lang)
    ensures var r := DefaultSpec(v, lang, Rejected);
            && r.view.controls.formVisible && r.view.controls.modalOpen == v.controls.modalOpen
            && r.view.(controls := v.controls) == v
            && (r.ending == Returned <==> Tr(lang, "error").Ok? && Tr(lang, "tryAgain").Ok?)
            && (r.ending == Returned ==>
                  && !r.view.controls.loading && !r.view.controls.submitDisabled
                  && r.view.controls.notice == Shown(ErrorKind, Tr(lang, "error").value, Tr(lang, "tryAgain").value))
            && (r.ending == Threw ==> r.view.controls.loading == v.controls.loading)
  {
    ErrorShownEffect(v, lang);
  }

  /**
   * `$(form).css("display", "block"); service.showError()`: the form is shown,
   * loading and the modal are left alone; with both messages present the
   * error alert is up and the button enabled, otherwise it throws with the
   * button and the alert as they were.
   */
  lemma ErrorShownEffect(v: PageView, lang: Lang)
    ensures var r := ErrorShownSpec(v, lang);
            && r.view.controls.formVisible
            && r.view.controls.loading == v.controls.loading && r.view.controls.modalOpen == v.controls.modalOpen
            && (r.ending == Returned <==> Tr(lang, "error").Ok? && Tr(lang, "tryAgain").Ok?)
            && (r.ending == Returned ==>
                  && !r.view.controls.submitDisabled
                  && r.view.controls.notice == Shown(ErrorKind, Tr(lang, "error").value, Tr(lang, "tryAgain").value))
            && (r.ending == Threw ==>
                  r.view.controls.submitDisabled == v.controls.submitDisabled && r.view.controls.notice == v.controls.notice)
  {
  }
  // ---------------------------------------------------------------------------
  // The handler's steps on the page
  // ---------------------------------------------------------------------------

  method ShowFormWithError(b: Browser, lang: Lang) returns (ending: Ending)
    modifies b
    ensures Outcome(b.View(), ending) == ErrorShownSpec(old(b.View()), lang)
  {
    b.SetFormVisible(true);
    ending := b.ShowError(lang, Undefined, None, false);
  }

  method SetWelcomeParameters(b: Browser, s: Session, crm: CrmParams, intelzaId: JsValue)
    modifies b
    ensures b.View() == old(b.View()).(query := WelcomeQuery(old(b.query), old(b.name), s, crm, intelzaId))
  {
    b.SetUrlParameter("name2", b.name);
    b.SetUrlParameter("template_version", ToString(s.templateVersion));
    if Truthy(s.elzaToken) {
      b.SetUrlParameter("elza_id", ToString(intelzaId));
    }
    if Truthy(s.leelooDeepLink) {
      var deepLink := BuildDeepLink(ToString(s.leelooDeepLink), crm);
      b.SetUrlParameter("lms_deeplink", deepLink);
    }
  }

  method ShowWelcome(b: Browser, s: Session, crm: CrmParams, intelzaId: JsValue)
    modifies b, b.steps
    ensures b.View() == WelcomeSpec(old(b.View()), s, crm, intelzaId)
  {
    SetWelcomeParameters(b, s, crm, intelzaId);
    b.InitializeLeeloo(s.leelooHash);
    b.SetFormVisible(false);
    b.ResetForm();
    b.ChangeFormStep(3);
  }

  method LeelooTry(b: Browser, s: Session, lang: Lang, crm: CrmParams, outcome: SendOutcome) returns (ending: Ending)
    modifies b, b.steps
    ensures Outcome(b.View(), ending) == LeelooTrySpec(old(b.View()), s, lang, crm, outcome)
  {
    match outcome
    case Rejected =>
      ending := Threw;
    case Resolved(status, id) =>
      if status == 200 {
        ShowWelcome(b, s, crm, id);
        ending := Returned;
      } else {
        ending := ShowFormWithError(b, lang);
      }
  }

  method CopyPayloadToUrl(b: Browser, s: Session, crm: CrmParams)
    modifies b
    ensures b.View() == CopiedSpec(old(b.View()), s, crm)
  {
    var data := GenerateData(crm, s, b.cookies);
    b.SetParamsForLeeloo(data);
  }

  method LeelooCatch(b: Browser, lang: Lang, tried: Ending) returns (ending: Ending)
    modifies b
    ensures Outcome(b.View(), ending) == LeelooCatchSpec(Outcome(old(b.View()), tried), lang)
  {
    ending := tried;
    if tried == Threw {
      ending := ShowFormWithError(b, lang);
    }
  }

  /** `showLeelooBlock()`. */
  method ShowLeelooBlock(b: Browser, s: Session, lang: Lang, crm: CrmParams, outcome: SendOutcome) returns (ending: Ending)
    modifies b, b.steps
    ensures Outcome(b.View(), ending) == LeelooSpec(old(b.View()), s, lang, crm, outcome)
  {
    CopyPayloadToUrl(b, s, crm);
    ending := LeelooTry(b, s, lang, crm, outcome);
    ending := LeelooCatch(b, lang, ending);
    b.HideLoading(Loader(false));
  }

  method DefaultWelcome(b: Browser, lang: Lang) returns (ending: Ending)
    modifies b, b.steps
    ensures Outcome(b.View(), ending) == DefaultWelcomeSpec(old(b.View()), lang)
  {
    b.ResetForm();
    b.ChangeFormStep(3);
    var reply := Tr(lang, "reply");
    if reply.Err? {
      return Threw;
    }
    ending := b.ShowSuccess(lang, Str(reply.value), Some(Loader(false)), true);
    if ending == Returned {
      b.SetFormVisible(true);
    }
  }

  method DefaultTry(b: Browser, lang: Lang, outcome: SendOutcome) returns (ending: Ending)
    modifies b, b.steps
    ensures Outcome(b.View(), ending) == DefaultTrySpec(old(b.View()), lang, outcome)
  {
    match outcome
    case Rejected =>
      ending := Threw;
    case Resolved(status, _) =>
      if status == 200 {
        ending := DefaultWelcome(b, lang);
      } else {
        ending := ShowFormWithError(b, lang);
      }
  }

  method DefaultCatch(b: Browser, lang: Lang, tried: Ending) returns (ending: Ending)
    modifies b
    ensures Outcome(b.View(), ending) == DefaultCatchSpec(Outcome(old(b.View()), tried), lang)
  {
    ending := tried;
    if tried == Threw {
      ending := ShowFormWithError(b, lang);
      if ending == Returned {
        b.HideLoading(Loader(false));
      }
    }
  }

  /** `showDefaultBlock()`. */
  method ShowDefaultBlock(b: Browser, lang: Lang, outcome: SendOutcome) returns (ending: Ending)
    modifies b, b.steps
    ensures Outcome(b.View(), ending) == DefaultSpec(old(b.View()), lang, outcome)
  {
    ending := DefaultTry(b, lang, outcome);
    ending := DefaultCatch(b, lang, ending);
  }

  /** From the domain check's success to the request leaving and step 2. */
  method Dispatch(b: Browser, s: Session, phoneNumber: string) returns (crm: CrmParams)
    modifies b, b.steps
    ensures b.View() == DispatchedSpec(old(b.View()), s, phoneNumber)
    ensures crm == CrmOf(b.View().inputs, phoneNumber, s)
  {
    b.SetFormVisible(false);
    b.ShowLoading();
    crm := CrmParams(b.name, phoneNumber, b.email, s.productName, s.productId);
    var data := GenerateData(crm, s, b.cookies);
    b.Send(data);
    b.ChangeFormStep(2);
  }

  method RejectEmail(b: Browser, lang: Lang) returns (ending: Ending)
    modifies b
    ensures Outcome(b.View(), ending) == EmailRejectedSpec(old(b.View()), lang)
  {
    var message := Tr(lang, "emailNotExists");
    if message.Err? {
      return Threw;
    }
    ending := b.ShowError(lang, Str(message.value), None, false);
  }

  method Proceed(b: Browser, s: Session, lang: Lang, phoneNumber: string, reply: HttpReply) returns (ending: Ending)
    modifies b, b.steps
    ensures Outcome(b.View(), ending) == ProceedSpec(old(b.View()), s, lang, phoneNumber, reply)
  {
    ghost var v := b.View();
    b.name := Trim(b.name);
    ghost var trimmed := v.(inputs := v.inputs.(name := Trim(v.inputs.name)));
    assert b.View() == trimmed;
    var loadingMessage := Tr(lang, "loadingMessage");
    if loadingMessage.Err? {
      return Threw;
    }
    var crm := Dispatch(b, s, phoneNumber);
    var outcome := Settle(reply);
    ProceedBranches(v, s, lang, phoneNumber, reply);
    if Truthy(s.leelooHash) {
      ending := ShowLeelooBlock(b, s, lang, crm, outcome);
    } else {
      ending := ShowDefaultBlock(b, lang, outcome);
    }
  }

  lemma ProceedBranches(v: PageView, s: Session, lang: Lang, phoneNumber: string, reply: HttpReply)
    requires Tr(lang, "loadingMessage").Ok?
    ensures var sent := DispatchedSpec(v.(inputs := v.inputs.(name := Trim(v.inputs.name))), s, phoneNumber);
            var crm := CrmOf(sent.inputs, phoneNumber, s);
            ProceedSpec(v, s, lang, phoneNumber, reply) ==
              if Truthy(s.leelooHash) then LeelooSpec(sent, s, lang, crm, Settle(reply))
              else DefaultSpec(sent, lang, Settle(reply))
  {
  }

  /**
   * `onSuccess(event)`, given what the domain check, the phone widget's
   * `getNumber()` and the send request came back with.
   */
  method OnSuccess(b: Browser, s: Session, lang: Lang, domain: DomainReply, phoneNumber: string, reply: HttpReply)
    returns (ending: Ending)
    modifies b, b.steps
    ensures Outcome(b.View(), ending) == SubmitSpec(old(b.View()), s, lang, domain, phoneNumber, reply)
  {
    b.DisableSubmit();
    if NeedsCheckEmailDomain && !EmailDomainOk(domain) {
      ending := RejectEmail(b, lang);
    } else {
      ending := Proceed(b, s, lang, phoneNumber, reply);
    }
  }
}
