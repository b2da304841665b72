# Lead form pipeline — Dafny model

This project models the client side of a course landing page's lead form.

- On page load the script fixes the interface locale, reads the visitor's IP trace and country, and writes the tracked UTM and ad marks from the URL into cookies. Those cookies have a one-hour lifetime, or 30 days for affiliate traffic.
- The form gets validation rules per field, and its phone input accepts only digits and white space.
- On a valid submit the handler does the following, in order:
  - it disables the button, checks the email domain and trims the name;
  - it hides the form and shows a loading indicator;
  - it builds the 30-field lead payload (`generateData`) and posts it (`submit`/`send`);
  - it moves the step list to step 2;
  - it ends in one of two ways. With a Leeloo hash on the page, the lead fields are copied into URL parameters and the embedded CRM widget is shown (`showLeelooBlock`). Otherwise an inline success alert is shown (`showDefaultBlock`).

The three script files are modelled module by module:

| module | file | what it holds |
|---|---|---|
| `Wrappers` | — | `Option` / `Result` |
| `JsText` | — | the JavaScript semantics the scripts rely on: truthiness, `String(v)`, `trim`, `split`/`join` on one character, `indexOf`/`includes`, `replace` with a string pattern, `FormData.get` |
| `Locale` | `form.js`, `service.js` | `defaultLang`, `itiLocale`, the locale fallback, `getValidationLocale`, `getFormMessageLocale`, `translate` |
| `Validation` | `service.js` | `getValidationFields` and the name pattern of `getNameRegex` |
| `Attribution` | `service.js` | `getUrlParameter`, `saveParamsToCookies`, the field mapping of `setParamsForLeeloo` |
| `Enrichment` | `service.js` | `getIpInfo`, `geoIpLookup`, the country choice of `getItiConfig`, `checkEmailDomain` |
| `Submission` | `submit.js` | `generateData`, `readCookie`, axios's settling of `send` |
| `Page` | `service.js` | `class Browser` and the helpers that update it in place |
| `Form` | `form.js` | the phone filter, the deep link, and the `onSuccess` handler |

`class Browser` holds the mutable page state:

- the URL query and the cookie store;
- the submit button, the form's visibility, the loading indicator and the modal;
- the alert on screen;
- the inputs;
- the widget;
- the requests sent;
- the `active` flags of the step list, kept as an `array<bool>`.

Each handler step is a method on a `Browser`. Its `ensures` ties the new `View()` to a pure specification function of the old one (`LeelooSpec`, `DefaultSpec`, `SubmitSpec`, …). The guarantees are proved as lemmas about those functions.

`translate` throws when the locale or the key is missing. Every alert calls it, so every handler step returns an `Ending`, which is `Returned` or `Threw`. The `try`/`catch`/`finally` blocks of the two endings are followed exactly. A `catch` takes a throw from the awaited request as well as one from `translate`.

The request is posted with axios's default settings, so any status outside 2xx rejects the promise instead of resolving it. `Submission.Settle` models this. As a result, the `else` branches for a status other than 200 are reached only by the other 2xx statuses.

The code differs from the written design in three places. The model follows the code:

- `getValidationFields` appends the `required` rule after the other rules. It does not put it first.
- The phone filter removes `+`, along with every other character that is not a digit or white space.
- The handler moves to step 2 right after starting the send, without awaiting it. Neither ending moves the step back, so after a reply other than 200, or a rejected send, step 2 stays active instead of the step shown before the submit. `Form.SubmitFailure` states this.

## Model

| member | source | states |
|---|---|---|
| JsText.ToString | src/v1/src/assets/js/submit.js:11-48 | `String(v)` keeps a string and never gives "" for a truthy value |
| JsText.Trim | src/v1/src/assets/js/form.js:169 | the result is no longer than the input and neither starts nor ends with white space |
| JsText.TrimOfPadded | src/v1/src/assets/js/form.js:169 | trimming removes exactly the white space around the text and nothing inside it |
| JsText.TrimIdempotent | src/v1/src/assets/js/form.js:169 | trimming a trimmed name changes nothing |
| JsText.Split | src/v1/src/assets/js/submit.js:68 | a split is never empty and no piece contains the separator |
| JsText.JoinSplit | src/v1/src/assets/js/submit.js:68 | joining the pieces of a split gives back the string |
| JsText.SplitJoin | src/v1/src/assets/js/submit.js:74 | splitting a join of separator-free pieces gives back the pieces |
| JsText.IndexOfFrom | src/v1/src/assets/js/form.js:239 | a found index is the first occurrence at or after the start; None means there is no occurrence |
| JsText.ReplaceFirstAbsent | src/v1/src/assets/js/form.js:240-243 | `replace` without an occurrence leaves the string unchanged |
| JsText.ReplaceFirstAt | src/v1/src/assets/js/form.js:240-243 | `replace` swaps only the first occurrence and keeps the text on both sides |
| JsText.FormDataGetNone | src/v1/src/assets/js/service.js:378-381 | `formData.get` is null exactly when no entry has the name |
| JsText.FormDataGetConcat | src/v1/src/assets/js/submit.js:8-48 | entries appended later never shadow earlier entries with the same name |
| JsText.FormDataGetAt | src/v1/src/assets/js/service.js:378-381 | the first entry with a name decides what `get` returns |
| Locale.DefaultLang | src/v1/src/assets/js/form.js:14-21 | a supported locale maps to itself; any other locale code maps to "uk" (locale codes are taken not to be names inherited by every JavaScript object) |
| Locale.ItiLocale | src/v1/src/assets/js/form.js:23-30 | "en" maps to "ph", the other supported locales map to themselves, any other locale code maps to "ua" (locale codes are taken not to be names inherited by every JavaScript object) |
| Locale.ItiFollowsLang | src/v1/src/assets/js/form.js:14-30 | the phone country equals the interface language, except that en gives ph and uk gives ua |
| Locale.ResolveLocale | src/v1/src/assets/js/form.js:52-56 | the locale is always truthy afterwards; a falsy locale becomes "uk" and a set one is kept even when unsupported |
| Locale.GetValidationLocale | src/v1/src/assets/js/service.js:144-157 | fails with the locale's error exactly when some entry lacks the locale; otherwise every entry, in order, cut down to that locale |
| Locale.GetFormMessageLocale | src/v1/src/assets/js/service.js:282-292 | fails exactly when some entry lacks the locale; otherwise one message per entry, in order |
| Locale.FindMessage | src/v1/src/assets/js/service.js:301-303 | None exactly when no message has the key; otherwise the text of a message with that key |
| Locale.FindMessageInTable | src/v1/src/assets/js/service.js:301-303 | `find` gives the first message with the key, as a lookup in the first-wins table |
| Locale.Translate | src/v1/src/assets/js/service.js:300-310 | throws for a missing locale or an unknown key; a result is never empty and is the entry's text in that locale |
| Locale.TranslateFound | src/v1/src/assets/js/service.js:300-310 | when every entry has the locale, a key always translates to the text of its first entry |
| Validation.ParseFieldKind | src/v1/src/assets/js/service.js:166-238 | only the six field names of the rules object are known |
| Validation.GetValidationFields | src/v1/src/assets/js/service.js:164-241 | an unknown field throws; otherwise the template's rules other than `required`, followed by the template's first rule exactly when the input is required |
| Validation.WithoutRequired | src/v1/src/assets/js/service.js:239 | the filter never lengthens the list and leaves no `required` rule |
| Validation.WithoutRequiredMembers | src/v1/src/assets/js/service.js:239 | the filter keeps exactly the rules other than `required` |
| Validation.WithoutRequiredAppend | src/v1/src/assets/js/service.js:239 | the filter distributes over concatenation, so it keeps the declared order |
| Validation.WithoutRequiredKeeps | src/v1/src/assets/js/service.js:239 | rules with no `required` rule pass the filter unchanged |
| Validation.RequiredHeadDropped | src/v1/src/assets/js/service.js:238-240 | a leading `required` rule is dropped and the rest is kept |
| Validation.RulesByKind | src/v1/src/assets/js/service.js:169-240 | the exact rule list each field kind ends up with, for required and optional inputs; a required text input gets its minimum-length rule a second time, because the text template has no `required` rule |
| Validation.RequiredRuleLast | src/v1/src/assets/js/service.js:238-240 | for every kind except text, a required input gets its `required` rule exactly once and last; an optional one never gets it |
| Validation.PolishNameExamples | src/v1/src/assets/js/service.js:320-321 | the Polish pattern accepts a hyphenated Polish name and rejects one with digits |
| Attribution.GetUrlParameter | src/v1/src/assets/js/service.js:89-98 | undefined exactly for an absent name, `true` exactly for the text "undefined", otherwise the text; truthy exactly for a non-empty value |
| Attribution.CookieGet | src/v1/src/assets/js/service.js:437-443 | undefined exactly for an absent cookie, otherwise its value |
| Attribution.RewriteMarksEffect | src/v1/src/assets/js/service.js:434-446 | after the pass, a listed mark with a truthy URL value holds that value with the tier, a listed mark without one is removed, and an unlisted cookie is untouched |
| Attribution.SaveParamsToCookiesEffect | src/v1/src/assets/js/service.js:417-447 | no truthy mark leaves the store untouched; otherwise every mark is rewritten from the URL with the chosen tier, and no other cookie changes |
| Attribution.TierExamples | src/v1/src/assets/js/service.js:419-432 | admitad and salesdoubler sources get 30 days; other sources, and the word admitad in another mark, get one hour |
| Attribution.LeelooTargetsDistinct | src/v1/src/assets/js/service.js:357-372 | the mapping has 14 fields and no two of them write the same URL parameter |
| Attribution.LeelooTargetValue | src/v1/src/assets/js/service.js:377-381 | a field is skipped exactly when its value is "undefined" or "null"; a missing field is written as "null"; otherwise the value |
| Attribution.LeelooQueryEffect | src/v1/src/assets/js/service.js:374-383 | each mapped parameter gets its field's value, or keeps its old value when the field is skipped; other parameters are unchanged |
| Enrichment.GetIpInfo | src/v1/src/assets/js/service.js:25-42 | a failed request gives the empty object |
| Enrichment.TraceEntryOfPair | src/v1/src/assets/js/service.js:35-36 | a line `k=v` or `k=v=rest` stores `v` under `k` |
| Enrichment.TraceEntryNoValue | src/v1/src/assets/js/service.js:35-36 | a line without `=` stores undefined under the whole line |
| Enrichment.ParseTraceKeys | src/v1/src/assets/js/service.js:31-37 | a key is present exactly when some line carries it |
| Enrichment.ParseTraceLastWins | src/v1/src/assets/js/service.js:34-37 | the value under a key comes from the last line carrying that key |
| Enrichment.LowerAscii | src/v1/src/assets/js/service.js:50 | same length and no upper-case letter left; each upper-case letter becomes its lower-case letter and every other character is kept |
| Enrichment.LowerAsciiKeeps | src/v1/src/assets/js/service.js:50 | a code with no upper-case letter comes back unchanged |
| Enrichment.LowerAsciiIdempotent | src/v1/src/assets/js/service.js:50 | lower-casing a lower-cased code changes nothing |
| Enrichment.GeoIpLookup | src/v1/src/assets/js/service.js:48-61 | a non-empty `loc` string is used lower-cased; without a truthy `loc`, a string code from the second lookup is used lower-cased, an empty one gives the default, and a failure or a non-string code gives the default; never empty with a non-empty default |
| Enrichment.InitialCountry | src/v1/src/assets/js/service.js:73-82 | a truthy preset country is used as it is; the result is never empty |
| Enrichment.EmailDomainOk | src/v1/src/assets/js/service.js:641-655 | true exactly for the reply status "ok"; any other status, or a failure, is false |
| Submission.ClientIdOfSegments | src/v1/src/assets/js/submit.js:73-75 | for a `GA1.2.<id>.<time>` value the client id is `<id>.<time>` |
| Submission.ClientIdOfShortValue | src/v1/src/assets/js/submit.js:74-75 | a value without dots yields "undefined.undefined" |
| JsText.SplitCount | src/v1/src/assets/js/submit.js:68 | a split has one more piece than the string has separators |
| Submission.CookieEntriesShape | src/v1/src/assets/js/submit.js:68-71 | one entry per `;` plus one, and no entry starts or ends with white space |
| Submission.FirstCookieFrom | src/v1/src/assets/js/submit.js:70-77 | the first entry from the start index that begins with `name=`; None exactly when there is none |
| Submission.ReadCookieValue | src/v1/src/assets/js/submit.js:66-79 | `readCookie` gives null or a string, never undefined |
| Submission.ReadCookieAbsent | src/v1/src/assets/js/submit.js:70-78 | null exactly when no entry starts with `name=` |
| Submission.ReadCookieFirstMatch | src/v1/src/assets/js/submit.js:70-76 | otherwise the first matching entry decides, through the client id of its value |
| Submission.ReadCookie | src/v1/src/assets/js/submit.js:66-79 | the loop returns exactly the value `ReadCookieValue` specifies |
| Submission.GaPrefixOnly | src/v1/src/assets/js/submit.js:67-72 | the match is on the whole `name=` prefix: `_ga_XYZ=` is not the `_ga` cookie |
| Submission.LeadIp | src/v1/src/assets/js/submit.js:35 | a string `ip` is used as it is; a missing or falsy one gives "" |
| Submission.SectionsDistinct | src/v1/src/assets/js/submit.js:10-48 | no section of the payload repeats a name |
| Submission.PayloadKeysDistinct | src/v1/src/assets/js/submit.js:10-48 | `generateData` appends 30 names, each exactly once |
| Submission.PayloadKeysOf | src/v1/src/assets/js/submit.js:4-51 | the payload's names are those 30 names, in append order |
| Submission.PayloadLookup | src/v1/src/assets/js/submit.js:4-51 | looking up a name in the payload equals looking it up in the section that holds it |
| Submission.PayloadUrlFields | src/v1/src/assets/js/submit.js:5-6 | `SiteURL` and `leadActionSource` are both origin plus path, without the query |
| Submission.PayloadInputFields | src/v1/src/assets/js/submit.js:17-19 | name, phone and email are the values the handler passed |
| Submission.PayloadCourseField | src/v1/src/assets/js/submit.js:25-31 | `Course` repeats the product id |
| Submission.PayloadLeadFields | src/v1/src/assets/js/submit.js:34-37 | the lead format defaults to "marathon", the IP to "", and `google_id` is what `readCookie("_ga")` gave |
| Submission.PayloadMarkAt | src/v1/src/assets/js/submit.js:41-48 | each UTM field comes from the cookie of the same name |
| Submission.PayloadMarks | src/v1/src/assets/js/submit.js:41-48 | every tracked mark comes from its own cookie; a missing cookie is sent as "undefined" |
| Submission.GenerateData | src/v1/src/assets/js/submit.js:4-51 | the built FormData is the specified payload for the page's `_ga` cookie |
| Submission.AppendPayload | src/v1/src/assets/js/submit.js:8-50 | the five append sections give the specified payload |
| Submission.AppendAjax | src/v1/src/assets/js/submit.js:10-15 | a fresh FormData holding the Ajax fields and the locale |
| Submission.AppendInputs | src/v1/src/assets/js/submit.js:16-19 | the existing entries followed by the input fields |
| Submission.AppendSiteData | src/v1/src/assets/js/submit.js:23-31 | the existing entries followed by the site fields |
| Submission.AppendLeadInfo | src/v1/src/assets/js/submit.js:32-39 | the existing entries followed by the lead fields |
| Submission.AppendUtms | src/v1/src/assets/js/submit.js:40-48 | the existing entries followed by the UTM fields |
| Submission.Settle | src/v1/src/assets/js/submit.js:58-59 | `axios.post` resolves exactly for a 2xx reply, with that status and id; anything else rejects |
| Page.TrIsTranslate | src/v1/src/assets/js/service.js:300-310 | every `translate` the page makes is the dictionary lookup of `translate` |
| Page.Activate | src/v1/src/assets/js/service.js:663-666 | the step list keeps its length |
| Page.ActivateExactlyOne | src/v1/src/assets/js/service.js:663-666 | after `changeFormStep(n)` exactly step n is active when n names a step, and none is otherwise |
| Page.HideLoadingSpec | src/v1/src/assets/js/service.js:465-470 | loading is gone; the modal closes only for a closing loader; nothing else changes |
| Page.DismissSpec | src/v1/src/assets/js/service.js:518-524 | loading is gone when a loader is given; the modal closes when asked or when the loader closes it; nothing else changes |
| Page.NoticeSpec | src/v1/src/assets/js/service.js:512-621 | returns exactly when the title translates and the text is truthy or its fallback translates; then the alert is up and the button enabled; when it throws, the button and the alert are as before; loading and the modal are dealt with first either way |
| Page.Browser.constructor | src/v1/src/assets/js/form.js:93-102 | the page starts in the given state |
| Page.Browser.SetUrlParameter | src/v1/src/assets/js/service.js:105-109 | the parameter is set and nothing else changes |
| Page.Browser.SetParamsForLeeloo | src/v1/src/assets/js/service.js:356-384 | the loop leaves the query specified by the field mapping; nothing else changes |
| Page.Browser.SaveParamsToCookies | src/v1/src/assets/js/service.js:417-447 | the loop leaves the cookie store specified by the mark rewrite; nothing else changes |
| Page.Browser.DisableSubmit | src/v1/src/assets/js/service.js:490-494 | the button is disabled and nothing else changes |
| Page.Browser.EnableSubmit | src/v1/src/assets/js/service.js:499-503 | the button is enabled and nothing else changes |
| Page.Browser.SetFormVisible | src/v1/src/assets/js/form.js:178 | only the form's visibility changes |
| Page.Browser.ResetForm | src/v1/src/assets/js/form.js:263 | the inputs are emptied and nothing else changes |
| Page.Browser.ShowLoading | src/v1/src/assets/js/service.js:460-463 | the loading indicator is on and nothing else changes |
| Page.Browser.CloseModal | src/v1/src/assets/js/service.js:477-480 | the modal is closed and nothing else changes |
| Page.Browser.HideLoading | src/v1/src/assets/js/service.js:465-470 | the controls become `HideLoadingSpec` of the old controls |
| Page.Browser.ChangeFormStep | src/v1/src/assets/js/service.js:663-666 | the in-place toggling loop leaves exactly the flags of `Activate` |
| Page.Browser.InitializeLeeloo | src/v1/src/assets/js/service.js:391-410 | the widget is shown and the hash is appended to `LEELOO_LEADGENTOOLS` |
| Page.Browser.Send | src/v1/src/assets/js/submit.js:58-59 | the payload is appended to the requests sent |
| Page.Browser.Dismiss | src/v1/src/assets/js/service.js:518-524 | the controls become `DismissSpec` of the old controls |
| Page.Browser.Fire | src/v1/src/assets/js/service.js:551-553 | the button is enabled and the alert is up |
| Page.Browser.Notify | src/v1/src/assets/js/service.js:512-621 | the controls and the ending are those of `NoticeSpec` |
| Page.Browser.ShowError | src/v1/src/assets/js/service.js:512-554 | the controls and the ending are those of `NoticeSpec` for an error alert |
| Page.Browser.ShowSuccess | src/v1/src/assets/js/service.js:566-621 | the controls and the ending are those of `NoticeSpec` for a success alert |
| Form.SanitizePhone | src/v1/src/assets/js/form.js:139-142 | the filtered value is no longer than the input and holds only digits and white space |
| Form.SanitizeAppend | src/v1/src/assets/js/form.js:141 | the filter works character by character, so it distributes over concatenation |
| Form.SanitizeKeeps | src/v1/src/assets/js/form.js:141 | a value of digits and white space is left as it is |
| Form.SanitizeDrops | src/v1/src/assets/js/form.js:141 | a value with no digit and no white space is emptied |
| Form.SanitizeIdempotent | src/v1/src/assets/js/form.js:141 | filtering twice is filtering once |
| Form.SanitizeCounts | src/v1/src/assets/js/form.js:141 | every digit and white-space character is kept as often as it occurs; every other character is gone |
| Form.PunctuationRemoved | src/v1/src/assets/js/form.js:141 | a `+`, parenthesis or dash typed anywhere is removed, and the rest is filtered as before |
| Form.OnPhoneInput | src/v1/src/assets/js/form.js:139-142 | the phone input holds its filtered value and nothing else changes |
| Form.Substitute | src/v1/src/assets/js/form.js:239-256 | without the placeholder the link is unchanged; with it the length changes by the replacement minus the placeholder |
| Form.SubstituteFirst | src/v1/src/assets/js/form.js:239-256 | only the first placeholder is replaced and the text around it is kept |
| Form.DeepLinkWithoutPlaceholders | src/v1/src/assets/js/form.js:231-258 | a link without placeholders comes out unchanged |
| Form.BuildDeepLink | src/v1/src/assets/js/form.js:232-256 | the reassignments give the name, phone and email substituted in that order |
| Form.ErrorShownSpec | src/v1/src/assets/js/form.js:267-268 | the form is shown and only the controls change |
| Form.ErrorShownEffect | src/v1/src/assets/js/form.js:267-268 | loading and the modal are untouched; returns exactly when both error messages translate, and then the button is enabled and the error alert is up; when it throws, the button and the alert are as before |
| Form.GateBlocksSubmission | src/v1/src/assets/js/form.js:158-166 | a failed domain check sends nothing and changes no step, query, cookie, input, widget, form or loading state; with the messages present the error alert re-enables the button; without "emailNotExists" it throws with the button still disabled |
| Form.MissingLoadingMessage | src/v1/src/assets/js/form.js:169-177 | without a loading message the handler throws after trimming: nothing is sent and the button stays disabled |
| Form.SubmitBranches | src/v1/src/assets/js/form.js:203-209 | past the domain check, the handler is the Leeloo ending for a truthy hash and the default ending otherwise, applied to the state after the send |
| Form.SubmitSendsTrimmedName | src/v1/src/assets/js/form.js:169-193 | past the domain check exactly one request leaves; it carries the trimmed name, the widget's number and the input's email |
| Form.SubmitOn200 | src/v1/src/assets/js/form.js:219-264 | a 200 reply: step 3, inputs reset, loading gone; the Leeloo ending shows the widget with `name2` set to the trimmed name, the form hidden and the button disabled; the default ending shows the success alert, closes the modal and brings back the form and the button |
| Form.SubmitFailure | src/v1/src/assets/js/form.js:203-311 | any other reply: step 2 stays active, the trimmed name stays, the widget is untouched, the form is shown, the button is enabled and the error alert is up; loading stays on screen exactly in the default ending with a 2xx status other than 200 |
| Form.LeelooKeepsOutbox | src/v1/src/assets/js/form.js:212-277 | the Leeloo ending sends nothing more and leaves the cookies alone |
| Form.DefaultKeepsOutbox | src/v1/src/assets/js/form.js:280-312 | the default ending sends nothing more and leaves the cookies alone |
| Form.WelcomeQueryEffect | src/v1/src/assets/js/form.js:220-258 | `name2` and `template_version` are always set; `elza_id` only with an Elza token and `lms_deeplink` only with a deep link; every other parameter is left alone |
| Form.LeelooAlwaysHidesLoading | src/v1/src/assets/js/form.js:274-276 | whatever the outcome, the Leeloo ending hides the loading indicator and leaves the modal as it was |
| Form.LeelooWelcomeOn200 | src/v1/src/assets/js/form.js:219-264 | a 200 reply: the URL carries the mapped payload fields and the welcome parameters, the widget is shown, the form is hidden and reset, step 3 is active, loading is hidden, and the button and the alert are untouched |
| Form.LeelooErrorOtherwise | src/v1/src/assets/js/form.js:265-276 | any other outcome: the mapped fields stay in the URL, the form is shown, loading is hidden and nothing else changes; returns exactly when both error messages translate, and then the alert is up and the button enabled |
| Form.DefaultSuccessOn200 | src/v1/src/assets/js/form.js:284-294 | a 200 reply: inputs reset, step 3, success alert with the "reply" text, loading and the modal closed, the form shown and the button enabled; query, widget, requests and cookies unchanged |
| Form.DefaultErrorKeepsLoading | src/v1/src/assets/js/form.js:301-304 | a resolved status other than 200: nothing hides the loading indicator or closes the modal; the form is shown and the error alert is up when the messages translate |
| Form.DefaultRejectedHidesLoading | src/v1/src/assets/js/form.js:306-311 | a rejected send: the error alert, then loading hidden; if the alert throws, loading stays |
| Form.ShowFormWithError | src/v1/src/assets/js/form.js:267-268 | the page and the ending are those of `ErrorShownSpec` |
| Form.SetWelcomeParameters | src/v1/src/assets/js/form.js:220-259 | the query becomes `WelcomeQuery` of the old query and name; nothing else changes |
| Form.ShowWelcome | src/v1/src/assets/js/form.js:220-264 | the page becomes `WelcomeSpec` of the old page |
| Form.CopyPayloadToUrl | src/v1/src/assets/js/form.js:213-214 | the query holds the mapped fields of the payload built from the page's cookies |
| Form.LeelooTry | src/v1/src/assets/js/form.js:216-269 | the page and the ending are those of the `try` block's specification |
| Form.LeelooCatch | src/v1/src/assets/js/form.js:270-273 | a throw is turned into the form-with-error state |
| Form.ShowLeelooBlock | src/v1/src/assets/js/form.js:212-277 | the page and the ending are those of `LeelooSpec` |
| Form.DefaultWelcome | src/v1/src/assets/js/form.js:285-294 | the page and the ending are those of `DefaultWelcomeSpec` |
| Form.DefaultTry | src/v1/src/assets/js/form.js:281-305 | the page and the ending are those of the `try` block's specification |
| Form.DefaultCatch | src/v1/src/assets/js/form.js:306-311 | a throw is turned into the error alert followed by loading hidden |
| Form.ShowDefaultBlock | src/v1/src/assets/js/form.js:280-312 | the page and the ending are those of `DefaultSpec` |
| Form.Dispatch | src/v1/src/assets/js/form.js:172-203 | the form is hidden, loading is shown, one payload is sent and step 2 is active |
| Form.RejectEmail | src/v1/src/assets/js/form.js:165 | the page and the ending are those of the email-rejected specification |
| Form.Proceed | src/v1/src/assets/js/form.js:168-209 | the page and the ending are those of `ProceedSpec` |
| Form.ProceedBranches | src/v1/src/assets/js/form.js:205-209 | once the loading message translates, the handler is one of the two endings applied to the dispatched state |
| Form.OnSuccess | src/v1/src/assets/js/form.js:154-313 | the page and the ending are those of `SubmitSpec` |

## Left out

- Network requests are not made. The Cloudflare trace, the geo lookup, the email-domain check and the lead post become abstract inputs (`Option<string>`, `GeoReply`, `DomainReply`, `HttpReply`). So does the number `iti.getNumber()` formats.
- `intelza_id` is taken as an abstract part of the reply. The model does not decide which field of the axios response it would be read from.
- The await between sending and settling is not modelled. Nothing the user does to the page during that time is modelled either.
- The regular expressions of `getNameRegex` are reduced to a character-set predicate with a leading arbitrary character. The `i`/`g`/`m` flags and the stateful `lastIndex` of a global regex are not modelled. The email pattern of `getEmailRegex` and `isNumeric` are not modelled.
- `setFormValidation`, `validationOptions` and the JustValidate and intl-tel-input wiring are third-party library calls, so they are not modelled.
- `uid` uses `Math.random`, and the `dataLayer` push only feeds analytics. Neither is modelled.
- The model assumes the page has a `.btn` element. `showSuccess` reads its computed colour at service.js:589, after loading and the modal are dealt with and before the button is re-enabled. Without one it throws, and the default 200 branch falls into its `catch`.
- Strings are sequences of Unicode scalar values, while JavaScript strings are UTF-16 code units. Lengths and indices differ for characters outside the Basic Multilingual Plane, which affects the length in `Form.Substitute` and the indices of `JsText.IndexOfFrom`. Lone surrogates have no model.
- The model assumes `dataLayer` is defined. On a page without Google Tag Manager, `dataLayer.push` at form.js:196 throws after the request has left and before step 2. The button would stay disabled and the form hidden.
- SweetAlert options are not modelled: icon, timers, colour, button link. The alert is its kind, title and text.
- The Loading markup and its message are not modelled. The indicator is a boolean.
- Page.Browser.InitializeLeeloo: does not model the markup or the script injection; shows the widget and extends `LEELOO_LEADGENTOOLS`.
- Page.Browser.ResetForm: `reset` restores the inputs' default values; the model takes those defaults to be empty.
- Page.Browser.ChangeFormStep: the step list is a fixed array of flags; the jQuery selectors are not modelled.
- Page.Browser.SetUrlParameter: the `history.pushState` entry is not modelled; only the query's new value is.
- Percent-encoding and decoding of URL parameters are not modelled. Neither are `$` patterns in `replace` replacements. The query is the decoded name/value map.
- `document.cookie` (read by `readCookie`) and the js-cookie store are separate inputs; the model does not tie them together.
- Cookie paths, domains and the wall-clock meaning of expiry are not modelled. Only the expiry tier is kept.
- JavaScript objects are modelled as maps. Locale codes, dictionary keys and trace keys are taken not to be names every object inherits from `Object.prototype` (`constructor`, `toString`, `__proto__`, …). For such a name the object tables of form.js:14-30 give a function instead of the fallback, and `dict[locale]` at service.js:147-149 and 284 is truthy. In the trace parse at service.js:36, `obj["__proto__"] = v` stores nothing.
- The locale dictionaries are JSON files that are not part of this model. They are inputs (`seq<LocaleEntry>`).
- `console` logging, modal.js, the PHP page and the build tooling (gulp, tailwind) are not modelled.
- Enrichment.LowerAscii: `toLowerCase` is modelled on ASCII letters only, which is all that country codes use.
