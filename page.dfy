/**
 * The page state the lead pipeline reads and changes, and the service.js
 * helpers that change it: the URL query (setUrlParameter,
 * setParamsForLeeloo), the cookie store (saveParamsToCookies), the submit
 * button, the form's visibility, the loading indicator, the modal, the
 * list of form steps (changeFormStep), the alert notice (showError,
 * showSuccess), the form inputs, the CRM widget and the requests sent.
 */
module Page {
  import opened Wrappers
  import opened JsText
  import opened Locale
  import opened Attribution

  /** Which alert is on screen. */
  datatype NoticeKind = ErrorKind | SuccessKind

  datatype Notice = NoNotice | Shown(kind: NoticeKind, title: string, text: string)

  /** A `Loading` object; its message only decorates the markup. */
  datatype Loader = Loader(closeModal: bool)

  /**
   * What `translate` works from under the active locale: the message table,
   * or None when some dictionary entry lacks the locale.
   */
  datatype Lang = Lang(locale: string, table: Option<map<string, string>>)

  /** `translate(key)`, with Err for an exception. */
  function Tr(lang: Lang, key: string): Result<string, ConfigError> {
    match lang.table
    case None => Err(MissingLocale(lang.locale))
    case Some(t) => if key in t && t[key] != "" then Ok(t[key]) else Err(MissingMessage(key))
  }

  /** The `Lang` of a dictionary file and a locale. */
  function LangFor(entries: seq<LocaleEntry>, locale: string): Lang {
    match GetFormMessageLocale(entries, locale)
    case Err(_) => Lang(locale, None)
    case Ok(messages) => Lang(locale, Some(MessageTable(messages)))
  }

  /** Every `translate` the page makes is the dictionary lookup of service.js. */
  lemma TrIsTranslate(entries: seq<LocaleEntry>, locale: string, key: string)
    ensures Tr(LangFor(entries, locale), key) == Translate(entries, key, locale)
  {
    var messages := GetFormMessageLocale(entries, locale);
    if messages.Ok? {
      FindMessageInTable(messages.value, key);
    }
  }

  /** The controls the alerts and the loading indicator act on. */
  datatype Controls = Controls(
    submitDisabled: bool,
    formVisible: bool,
    loading: bool,
    modalOpen: bool,
    notice: Notice)

  /** The values of the form's name, phone and email inputs. */
  datatype Inputs = Inputs(name: string, phone: string, email: string)

  /** The embedded CRM widget: whether it is displayed, and `window.LEELOO_LEADGENTOOLS`. */
  datatype Widget = Widget(shown: bool, leadgenTools: seq<JsValue>)

  /** Everything observable about the page, as a value. */
  datatype PageView = PageView(
    query: map<string, string>,
    cookies: CookieJar,
    controls: Controls,
    steps: seq<bool>,
    inputs: Inputs,
    widget: Widget,
    outbox: seq<FormData>)

  /** Whether a call completed or threw. */
  datatype Ending = Returned | Threw

  datatype Outcome = Outcome(view: PageView, ending: Ending)

  /** What an alert helper leaves the controls in, and whether it threw. */
  datatype Alerted = Alerted(controls: Controls, ending: Ending)

  /** The step flags after `changeFormStep(form, n)`: all active ones toggled off, then step n toggled. */
  function Activate(count: nat, n: int): (r: seq<bool>)
    ensures |r| == count
  {
    seq(count, i => i == n - 1)
  }

  function ActiveCount(steps: seq<bool>): nat
    decreases |steps|
  {
    if steps == [] then 0 else ActiveCount(steps[..|steps| - 1]) + if steps[|steps| - 1] then 1 else 0
  }

  /**
   * After `changeFormStep(form, n)` exactly one step is active when n names
   * one of the steps, and none is otherwise; what was active before plays no
   * part, n itself included.
   */
  lemma {:induction false} ActivateExactlyOne(count: nat, n: int)
    ensures ActiveCount(Activate(count, n)) == if 1 <= n <= count then 1 else 0
    ensures 1 <= n <= count ==> Activate(count, n)[n - 1]
    decreases count
  {
    if count > 0 {
      ActivateExactlyOne(count - 1, n);
      assert Activate(count, n)[..count - 1] == Activate(count - 1, n);
    }
  }

  /** `Loading.hide()`. */
  function HideLoadingSpec(c: Controls, l: Loader): (r: Controls)
    ensures !r.loading
    ensures r.modalOpen == (c.modalOpen && !l.closeModal)
    ensures r.(loading := c.loading, modalOpen := c.modalOpen) == c
  {
    c.(loading := false, modalOpen := if l.closeModal then false else c.modalOpen)
  }

  /** The first half of `showError` / `showSuccess`: hide the given loader, then close the modal when asked. */
  function DismissSpec(c: Controls, loader: Option<Loader>, closeModal: bool): (r: Controls)
    ensures r.loading == (c.loading && loader.None?)
    ensures r.modalOpen == (c.modalOpen && !closeModal && (loader.None? || !loader.value.closeModal))
    ensures r.(loading := c.loading, modalOpen := c.modalOpen) == c
  {
    var hidden := if loader.Some? then HideLoadingSpec(c, loader.value) else c;
    if closeModal then hidden.(modalOpen := false) else hidden
  }

  function TitleKey(kind: NoticeKind): string {
    match kind
    case ErrorKind => "error"
    case SuccessKind => "thanks"
  }

  function FallbackKey(kind: NoticeKind): string {
    match kind
    case ErrorKind => "tryAgain"
    case SuccessKind => "reply"
  }

  /**
   * `showError` / `showSuccess`: hide the given loader, close the modal when
   * asked, translate the title and (for a falsy message) the fallback text,
   * re-enable the submit button and fire the alert. A failed translation
   * throws after the loader and modal have been dealt with, leaving the
   * button and the previous alert as they were. The form's visibility is
   * never touched.
   */
  function NoticeSpec(c: Controls, lang: Lang, kind: NoticeKind, message: JsValue, loader: Option<Loader>, closeModal: bool): (r: Alerted)
    ensures r.ending == Returned <==> Tr(lang, TitleKey(kind)).Ok? && (Truthy(message) || Tr(lang, FallbackKey(kind)).Ok?)
    ensures r.ending == Returned ==>
              && !r.controls.submitDisabled
              && r.controls.notice == Shown(kind, Tr(lang, TitleKey(kind)).value,
                                            if Truthy(message) then ToString(message) else Tr(lang, FallbackKey(kind)).value)
              && r.controls.notice.title != "" && r.controls.notice.text != ""
    ensures r.ending == Threw ==> r.controls.submitDisabled == c.submitDisabled && r.controls.notice == c.notice
    ensures r.controls.loading == (c.loading && loader.None?)
    ensures r.controls.modalOpen == (c.modalOpen && !closeModal && (loader.None? || !loader.value.closeModal))
    ensures r.controls.formVisible == c.formVisible
  {
    var closed := DismissSpec(c, loader, closeModal);
    match Tr(lang, TitleKey(kind))
    case Err(_) => Alerted(closed, Threw)
    case Ok(title) =>
      if Truthy(message) then Alerted(closed.(submitDisabled := false, notice := Shown(kind, title, ToString(message))), Returned)
      else
        match Tr(lang, FallbackKey(kind))
        case Err(_) => Alerted(closed, Threw)
        case Ok(text) => Alerted(closed.(submitDisabled := false, notice := Shown(kind, title, text)), Returned)
  }

  /** The browser page: every field is state the pipeline's helpers update in place. */
  class Browser {
    var query: map<string, string>
    var cookies: CookieJar
    var submitDisabled: bool
    var formVisible: bool
    var loading: bool
    var modalOpen: bool
    var notice: Notice
    var name: string
    var phone: string
    var email: string
    var leelooShown: bool
    var leadgenTools: seq<JsValue>
    var outbox: seq<FormData>
    /** The `active` flags of the form's step list, in document order. */
    const steps: array<bool>

    function ControlState(): Controls
      reads this
    {
      Controls(submitDisabled, formVisible, loading, modalOpen, notice)
    }

    function View(): PageView
      reads this, steps
    {
      PageView(query, cookies, ControlState(), steps[..], Inputs(name, phone, email),
               Widget(leelooShown, leadgenTools), outbox)
    }

    constructor (initial: PageView)
      ensures View() == initial
      ensures fresh(steps)
    {
      query := initial.query;
      cookies := initial.cookies;
      submitDisabled := initial.controls.submitDisabled;
      formVisible := initial.controls.formVisible;
      loading := initial.controls.loading;
      modalOpen := initial.controls.modalOpen;
      notice := initial.controls.notice;
      name := initial.inputs.name;
      phone := initial.inputs.phone;
      email := initial.inputs.email;
      leelooShown := initial.widget.shown;
      leadgenTools := initial.widget.leadgenTools;
      outbox := initial.outbox;
      steps := new bool[|initial.steps|](i requires 0 <= i < |initial.steps| => initial.steps[i]);
    }

    /** `setUrlParameter(key, value)`: the parameter is set, replacing any value it had. */
    method SetUrlParameter(key: string, value: string)
      modifies this
      ensures View() == old(View()).(query := old(query)[key := value])
    {
      query := query[key := value];
    }

    /** `setParamsForLeeloo(formData)`: the loop over the 14 mapped fields. */
    method SetParamsForLeeloo(fd: FormData)
      modifies this
      ensures View() == old(View()).(query := LeelooQuery(old(query), fd, LeelooFields))
    {
      var i := 0;
      while i < |LeelooFields|
        invariant 0 <= i <= |LeelooFields|
        invariant View() == old(View()).(query := LeelooQuery(old(query), fd, LeelooFields[..i]))
      {
        var field := LeelooFields[i];
        assert LeelooFields[..i + 1][..i] == LeelooFields[..i];
        var value := FormDataGet(fd, field.0);
        if value != Some("undefined") && value != Some("null") {
          SetUrlParameter(field.1, if value.Some? then value.value else "null");
        }
        i := i + 1;
      }
      assert LeelooFields[..i] == LeelooFields;
    }

    /** `saveParamsToCookies(marks)`: the `setCookiesFromParams` pass runs only when some mark is set. */
    method SaveParamsToCookies(marks: seq<string>)
      modifies this
      ensures View() == old(View()).(cookies := SavedCookies(old(cookies), old(query), marks))
    {
      if AnyMarkSet(query, marks) {
        var tier := TierFor(query, marks);
        var i := 0;
        while i < |marks|
          invariant 0 <= i <= |marks|
          invariant View() == old(View()).(cookies := RewriteMarks(old(cookies), query, marks[..i], tier))
        {
          assert marks[..i + 1][..i] == marks[..i];
          cookies := cookies - {marks[i]};
          var value := GetUrlParameter(query, marks[i]);
          if Truthy(value) {
            cookies := cookies[marks[i] := Cookie(ToString(value), tier)];
          }
          i := i + 1;
        }
        assert marks[..i] == marks;
      }
    }

    /** `addDisabledAttributeToSubmitBtn()`. */
    method DisableSubmit()
      modifies this
      ensures View() == old(View()).(controls := old(ControlState()).(submitDisabled := true))
    {
      submitDisabled := true;
    }

    /** `removeDisabledAttributeFromSubmitBtn()`. */
    method EnableSubmit()
      modifies this
      ensures View() == old(View()).(controls := old(ControlState()).(submitDisabled := false))
    {
      submitDisabled := false;
    }

    /** `$(form).css("display", ...)`. */
    method SetFormVisible(visible: bool)
      modifies this
      ensures View() == old(View()).(controls := old(ControlState()).(formVisible := visible))
    {
      formVisible := visible;
    }

    /** `$(form).trigger("reset")`: the inputs go back to their (empty) defaults. */
    method ResetForm()
      modifies this
      ensures View() == old(View()).(inputs := Inputs("", "", ""))
    {
      name, phone, email := "", "", "";
    }

    /** `Loading.show()`. */
    method ShowLoading()
      modifies this
      ensures View() == old(View()).(controls := old(ControlState()).(loading := true))
    {
      loading := true;
    }

    /** `closeModalForm()`. */
    method CloseModal()
      modifies this
      ensures View() == old(View()).(controls := old(ControlState()).(modalOpen := false))
    {
      modalOpen := false;
    }

    /** `Loading.hide()`. */
    method HideLoading(l: Loader)
      modifies this
      ensures View() == old(View()).(controls := HideLoadingSpec(old(ControlState()), l))
    {
      loading := false;
      if l.closeModal {
        CloseModal();
      }
    }

    /** `changeFormStep(form, n)`: toggle every active step, then toggle the n-th. */
    method ChangeFormStep(n: int)
      modifies steps
      ensures View() == old(View()).(steps := Activate(steps.Length, n))
    {
      var i := 0;
      while i < steps.Length
        invariant 0 <= i <= steps.Length
        invariant forall j :: 0 <= j < i ==> !steps[j]
        invariant forall j :: i <= j < steps.Length ==> steps[j] == old(steps[j])
      {
        if steps[i] {
          steps[i] := !steps[i];
        }
        i := i + 1;
      }
      if 1 <= n <= steps.Length {
        steps[n - 1] := !steps[n - 1];
      }
      assert steps[..] == Activate(steps.Length, n);
    }

    /** `initializeLeeloo(form, hash)`: the widget is shown and the hash joins `LEELOO_LEADGENTOOLS`. */
    method InitializeLeeloo(hash: JsValue)
      modifies this
      ensures View() == old(View()).(widget := Widget(true, old(leadgenTools) + [hash]))
    {
      leadgenTools := leadgenTools + [hash];
      leelooShown := true;
    }

    /** `axios.post(ajaxurl, data)`: the request leaves with the payload. */
    method Send(payload: FormData)
      modifies this
      ensures View() == old(View()).(outbox := old(outbox) + [payload])
    {
      outbox := outbox + [payload];
    }

    method Dismiss(loader: Option<Loader>, closeModal: bool)
      modifies this
      ensures View() == old(View()).(controls := DismissSpec(old(ControlState()), loader, closeModal))
    {
      if loader.Some? {
        HideLoading(loader.value);
      }
      if closeModal {
        CloseModal();
      }
    }

    /** `removeDisabledAttributeFromSubmitBtn(); Swal.fire(options)`. */
    method Fire(kind: NoticeKind, title: string, text: string)
      modifies this
      ensures View() == old(View()).(controls := old(ControlState()).(submitDisabled := false, notice := Shown(kind, title, text)))
    {
      EnableSubmit();
      notice := Shown(kind, title, text);
    }

    /** The alert shared by `showError` and `showSuccess`. */
    method Notify(lang: Lang, kind: NoticeKind, message: JsValue, loader: Option<Loader>, closeModal: bool)
      returns (ending: Ending)
      modifies this
      ensures var r := NoticeSpec(old(ControlState()), lang, kind, message, loader, closeModal);
              View() == old(View()).(controls := r.controls) && ending == r.ending
    {
      Dismiss(loader, closeModal);
      var title := Tr(lang, TitleKey(kind));
      if title.Err? {
        return Threw;
      }
      var text: string;
      if Truthy(message) {
        text := ToString(message);
      } else {
        var fallback := Tr(lang, FallbackKey(kind));
        if fallback.Err? {
          return Threw;
        }
        text := fallback.value;
      }
      Fire(kind, title.value, text);
      ending := Returned;
    }

    /** `showError(message, autoClose, loading, closeModal)`. */
    method ShowError(lang: Lang, message: JsValue, loader: Option<Loader>, closeModal: bool) returns (ending: Ending)
      modifies this
      ensures var r := NoticeSpec(old(ControlState()), lang, ErrorKind, message, loader, closeModal);
              View() == old(View()).(controls := r.controls) && ending == r.ending
    {
      ending := Notify(lang, ErrorKind, message, loader, closeModal);
    }

    /** `showSuccess(message, autoClose, loading, closeModal)`. */
    method ShowSuccess(lang: Lang, message: JsValue, loader: Option<Loader>, closeModal: bool) returns (ending: Ending)
      modifies this
      ensures var r := NoticeSpec(old(ControlState()), lang, SuccessKind, message, loader, closeModal);
              View() == old(View()).(controls := r.controls) && ending == r.ending
    {
      ending := Notify(lang, SuccessKind, message, loader, closeModal);
    }
  }
}
