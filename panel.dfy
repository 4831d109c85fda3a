/**
 * The script the background injects into a page (extension/inject_panel.js): it owns a
 * single overlay panel, renders a status into it, and applies the classification
 * service's answer unless the panel has been dismissed in the meantime.
 *
 * The panel lives in the DOM. Here the DOM's relevant part is one optional `Container`
 * (the element with id `misinfo-guard-panel-container`): the template it was built
 * from, whether its `.mg-panel` carries `mg-show`, and what its seven named elements
 * display. Pure functions give the state after each operation; the `PanelPage` class
 * performs the operations step by step and is proved to reach those states.
 */
module InjectPanel {
  import opened Wrappers
  import opened TextUtil
  import opened Api

  const LoadingStatus: string := "checking"
  const LoadingReason: string := "Analyzing selected text..."
  const NoResultsMessage: string := "Received no results or unclear data from server."
  const PanelLoadErrorTitle: string := "Panel Load Error"

  /** The seven elements `updatePanelContent` looks up by id. */
  datatype Part = HeaderIcon | TitleImage | StatusIcon | StatusText | ReasonText | SelectedHeadline | PredictionDetail

  const AllParts: set<Part> :=
    {HeaderIcon, TitleImage, StatusIcon, StatusText, ReasonText, SelectedHeadline, PredictionDetail}

  /** What the loaded `result_panel.html` provides: `.mg-panel`, `#mg-close-btn` and which of the seven parts. */
  datatype Template = Template(hasPanel: bool, hasCloseButton: bool, parts: set<Part>)

  /** What `#mg-prediction-detail` shows. */
  datatype Detail =
    | TemplateDetail
    | Calculating
    | Unavailable
    | Shares(misleading: real, verified: real)

  /**
   * What the panel displays. `None` images are the template's own; `statusIcon` is the
   * `src` assigned, `None` when the icon mapping has no entry (`undefined`).
   */
  datatype PanelView = PanelView(
    headerIcon: Option<Url>,
    titleImage: Option<Url>,
    headline: string,
    statusIcon: Option<Url>,
    statusText: string,
    statusClass: string,
    reason: string,
    detail: Detail)

  const TemplateView: PanelView := PanelView(None, None, "", None, "", "", "", TemplateDetail)

  /** The panel container: its template, whether `.mg-panel` has `mg-show`, what it displays. */
  datatype Container = Container(template: Template, shown: bool, content: PanelView)

  /** One call of `updatePanelContent(headline, icons, mgIcon, mgTitleImg, status, reason, probabilities)`. */
  datatype Update = Update(
    headline: string,
    icons: Icons,
    mgIcon: Option<Url>,
    mgTitleImg: Option<Url>,
    status: string,
    reason: string,
    probabilities: Option<Scores>)

  // ---------------------------------------------------------------------------
  // Pure rendering rules
  // ---------------------------------------------------------------------------

  /**
   * `safeStatus`: a missing or empty status becomes `error`, any other is lowercased.
   * The result is never empty and always lowercase.
   */
  function SafeStatus(status: string): (s: string)
    ensures s != [] && Lower(s) == s
    ensures status == [] ==> s == "error"
    ensures status != [] ==> s == Lower(status)
  {
    LowerIsLower(status);
    if status != [] then Lower(status) else "error"
  }

  /** The status is read without regard to case. */
  lemma SafeStatusIgnoresCase(status: string)
    ensures SafeStatus(Upper(status)) == SafeStatus(status)
  {
    LowerOfUpper(status);
  }

  /** `icons[key]` when it is a non-empty URL. */
  function IconEntry(icons: Icons, key: string): Option<Url> {
    if key in icons && icons[key] != [] then Some(icons[key]) else None
  }

  /**
   * `icons[safeStatus] || icons.error`: the source is always a non-empty URL of the table,
   * the status's own icon when it has one, and it is missing only when neither the status
   * nor `error` has an icon.
   */
  function StatusIconSrc(icons: Icons, status: string): (r: Option<Url>)
    ensures r.Some? ==> r.value != [] && ((status in icons && icons[status] == r.value) ||
                                          ("error" in icons && icons["error"] == r.value))
    ensures status in icons && icons[status] != [] ==> r == Some(icons[status])
    ensures r.None? <==> (status !in icons || icons[status] == []) && ("error" !in icons || icons["error"] == [])
  {
    if IconEntry(icons, status).Some? then IconEntry(icons, status) else IconEntry(icons, "error")
  }

  /** `probabilities.x || 0`. */
  function Score(x: Option<real>): real {
    x.GetOr(0.0)
  }

  /**
   * The probability split: each score over their sum, the sum replaced by 1 when it is 0.
   * The shares sum to 1 whenever the scores do not cancel out, are both 0 when both
   * scores are 0, and lie in [0, 1] for non-negative scores.
   */
  function Split(m: real, v: real): (r: (real, real))
    ensures m + v != 0.0 ==> r.0 + r.1 == 1.0 && r.0 * (m + v) == m && r.1 * (m + v) == v
    ensures m + v == 0.0 ==> r == (m, v)
    ensures m == 0.0 && v == 0.0 ==> r == (0.0, 0.0)
    ensures 0.0 <= m && 0.0 <= v ==> 0.0 <= r.0 <= 1.0 && 0.0 <= r.1 <= 1.0
  {
    if m + v == 0.0 then
      (m / 1.0, v / 1.0)
    else
      var total := m + v;
      ShareOf(m, total);
      ShareOf(v, total);
      SharesSumToOne(m, v);
      SharesBounded(m, v);
      (m / total, v / total)
  }

  lemma ShareOf(x: real, total: real)
    requires total != 0.0
    ensures (x / total) * total == x
  {
  }

  lemma SharesSumToOne(m: real, v: real)
    requires m + v != 0.0
    ensures m / (m + v) + v / (m + v) == 1.0
  {
    var t := m + v;
    assert m / t + v / t == (m + v) / t;
  }

  lemma SharesBounded(m: real, v: real)
    requires m + v != 0.0
    ensures 0.0 <= m && 0.0 <= v ==> 0.0 <= m / (m + v) <= 1.0 && 0.0 <= v / (m + v) <= 1.0
  {
    if 0.0 <= m && 0.0 <= v {
      ShareBounds(m, m + v);
      ShareBounds(v, m + v);
    }
  }

  lemma ShareBounds(x: real, total: real)
    requires 0.0 <= x <= total && total > 0.0
    ensures 0.0 <= x / total <= 1.0
  {
    var q := x / total;
    assert q * total == x;
    if q > 1.0 {
      assert false;
    }
    if q < 0.0 {
      assert false;
    }
  }

  /** A misleading score of 0.3 against a verified score of 0.7 shows as 30% / 70%. */
  lemma SplitExample()
    ensures Split(0.3, 0.7) == (0.3, 0.7)
    ensures Split(0.0, 0.0) == (0.0, 0.0)
  {
  }

  /**
   * `#mg-prediction-detail`: the split is shown exactly when the status is not `checking`
   * and the result carries a `probabilities` object without an `error` field; otherwise
   * a placeholder, "Calculating" exactly for `checking`.
   */
  function DetailFor(status: string, probabilities: Option<Scores>): (d: Detail)
    ensures d.Shares? <==> status != LoadingStatus && probabilities.Some? && !probabilities.value.hasError
    ensures d == Calculating <==> status == LoadingStatus
    ensures d.Shares? ==>
              (d.misleading, d.verified) == Split(Score(probabilities.value.misleading), Score(probabilities.value.verified))
  {
    if status != LoadingStatus && probabilities.Some? && !probabilities.value.hasError then
      var s := Split(Score(probabilities.value.misleading), Score(probabilities.value.verified));
      Shares(s.0, s.1)
    else if status == LoadingStatus then Calculating
    else Unavailable
  }

  /** An image argument that JavaScript treats as truthy: passed, and not the empty string. */
  predicate Given(url: Option<Url>) {
    url.Some? && url.value != []
  }

  /**
   * The content after a successful `updatePanelContent`: an image changes only when a
   * non-empty URL is passed (a missing or empty one leaves the current image), the status
   * is shown normalised and uppercased.
   */
  function Render(c: PanelView, u: Update): (r: PanelView)
    ensures !Given(u.mgIcon) ==> r.headerIcon == c.headerIcon
    ensures !Given(u.mgTitleImg) ==> r.titleImage == c.titleImage
    ensures Given(u.mgIcon) ==> r.headerIcon == u.mgIcon
    ensures Given(u.mgTitleImg) ==> r.titleImage == u.mgTitleImg
    ensures r.headline == u.headline && r.reason == u.reason
    ensures r.statusText == Upper(SafeStatus(u.status))
    ensures r.statusIcon == StatusIconSrc(u.icons, SafeStatus(u.status))
    ensures r.detail == DetailFor(SafeStatus(u.status), u.probabilities)
  {
    var s := SafeStatus(u.status);
    PanelView(
      if Given(u.mgIcon) then u.mgIcon else c.headerIcon,
      if Given(u.mgTitleImg) then u.mgTitleImg else c.titleImage,
      u.headline,
      StatusIconSrc(u.icons, s),
      Upper(s),
      "mg-status-text mg-status-" + s,
      u.reason,
      DetailFor(s, u.probabilities))
  }

  // ---------------------------------------------------------------------------
  // The panel state machine
  // ---------------------------------------------------------------------------

  /** Some panel is on screen: the container holds a `.mg-panel.mg-show`. */
  predicate ShownPanel(c: Option<Container>) {
    c.Some? && c.value.template.hasPanel && c.value.shown
  }

  /**
   * `closePanel`: nothing without a container; otherwise `mg-show` is removed at once, or
   * the container removed outright when it has no `.mg-panel`.
   */
  function AfterClose(c: Option<Container>): (r: Option<Container>)
    ensures !ShownPanel(r)
    ensures r.Some? <==> c.Some? && c.value.template.hasPanel
    ensures r.Some? ==> r.value == c.value.(shown := false)
  {
    match c
    case None => None
    case Some(k) => if k.template.hasPanel then Some(k.(shown := false)) else None
  }

  /**
   * `updatePanelContent`: nothing without a container; a template that lacks one of the
   * seven parts is closed instead of rendered; otherwise only the content changes.
   */
  function AfterUpdate(c: Option<Container>, u: Update): (r: Option<Container>)
    ensures c.None? ==> r.None?
    ensures c.Some? && c.value.template.parts != AllParts ==> r == AfterClose(c)
    ensures c.Some? && c.value.template.parts == AllParts ==>
              r == Some(c.value.(content := Render(c.value.content, u)))
    ensures ShownPanel(r) ==> ShownPanel(c)
  {
    match c
    case None => None
    case Some(k) =>
      if k.template.parts != AllParts then AfterClose(c)
      else Some(k.(content := Render(k.content, u)))
  }

  /** How loading `result_panel.html` ended. */
  datatype TemplateLoad = Loaded(template: Template) | LoadFailed(message: string)

  /** The loading state: `updatePanelContent(..., 'checking', 'Analyzing selected text...', null)`. */
  function LoadingUpdate(headline: string, icons: Icons, mgIcon: Url, mgTitleImg: Url): Update {
    Update(headline, icons, Some(mgIcon), Some(mgTitleImg), LoadingStatus, LoadingReason, None)
  }

  /**
   * `createOrUpdatePanel`: the old container is removed whatever happens, so the result
   * does not depend on the previous state at all. A failed template load leaves no panel.
   * A loaded one is rendered in the loading state and, when it has a `.mg-panel`,
   * shown on the next animation frame. A panel whose template lacks one of the parts is
   * closed by the loading update and comes out shown only because the animation frame
   * follows; the source removes it again 350 ms later, which the model does not time.
   */
  function AfterCreate(headline: string, icons: Icons, mgIcon: Url, mgTitleImg: Url, load: TemplateLoad): (r: Option<Container>)
    ensures load.LoadFailed? ==> r.None?
    ensures load.Loaded? && load.template.hasPanel ==> ShownPanel(r)
    ensures load.Loaded? && !load.template.hasPanel ==> !ShownPanel(r)
    ensures load.Loaded? && !load.template.hasPanel && load.template.parts != AllParts ==> r.None?
    ensures r.Some? ==> r.value.template == load.template
    ensures load.Loaded? && load.template.parts == AllParts ==>
              r.Some? && r.value.content.headline == headline && r.value.content.statusText == "CHECKING" &&
              r.value.content.reason == LoadingReason && r.value.content.detail == Calculating
    ensures load.Loaded? && load.template.parts == AllParts ==>
              r.Some? && r.value.content.headerIcon == (if mgIcon != [] then Some(mgIcon) else TemplateView.headerIcon) &&
              r.value.content.titleImage == (if mgTitleImg != [] then Some(mgTitleImg) else TemplateView.titleImage)
  {
    match load
    case LoadFailed(_) => None
    case Loaded(t) =>
      var c := AfterUpdate(Some(Container(t, false, TemplateView)), LoadingUpdate(headline, icons, mgIcon, mgTitleImg));
      assert Upper(Lower(LoadingStatus)) == "CHECKING";
      if t.hasPanel then Some(c.value.(shown := true)) else c
  }

  const LoadFailurePrefix: string := "Could not load UI: "

  /** The request a failed template load sends the background script: a notification carrying the cause. */
  function LoadFailureNotice(message: string): (m: Message)
    ensures m.WellTagged() && m.Type() == FallbackType
    ensures m.title == PanelLoadErrorTitle && EndsWith(m.message, message)
  {
    var text := LoadFailurePrefix + message;
    assert text[|text| - |message|..] == message;
    FallbackNotification(PanelLoadErrorTitle, text)
  }

  /** The body of a non-2xx answer: JSON (with or without a `detail`) or plain text. */
  datatype ErrorBody = JsonBody(detail: Option<string>, serialized: string) | TextBody(text: string)

  /**
   * How the single-item request ended: the fetch itself rejected, a non-2xx answer, a
   * 2xx answer whose body is not JSON, or a parsed body with its `results` field.
   */
  datatype PanelFetch =
    | NetworkError(message: string)
    | HttpError(status: nat, body: ErrorBody)
    | BadJson(message: string)
    | Delivered(results: Option<seq<ApiResult>>)

  /** `errorJson.detail || JSON.stringify(errorJson)`, or the text body, or the fallback text. */
  function ErrorDetail(body: ErrorBody): string {
    match body
    case JsonBody(detail, serialized) => if detail.Some? && detail.value != [] then detail.value else serialized
    case TextBody(text) => if text != [] then text else "Unknown server error."
  }

  /** The message of the error thrown for a non-2xx answer. */
  function HttpErrorMessage(status: nat, body: ErrorBody): (m: string)
    ensures StartsWith(m, "API Error " + NatToString(status) + ": ")
    ensures EndsWith(m, ErrorDetail(body))
  {
    var m := "API Error " + NatToString(status) + ": " + ErrorDetail(body);
    assert m[..|"API Error " + NatToString(status) + ": "|] == "API Error " + NatToString(status) + ": ";
    assert m[|m| - |ErrorDetail(body)|..] == ErrorDetail(body);
    m
  }

  function ErrorUpdate(headline: string, icons: Icons, message: string): Update {
    Update(headline, icons, None, None, "error", message, None)
  }

  /**
   * The `updatePanelContent` call a settled request leads to: the first result when
   * there are any, an `error` status with the thrown message otherwise. Images are
   * never passed, so result updates keep those set at load.
   */
  function ResponseUpdate(headline: string, icons: Icons, f: PanelFetch): (u: Update)
    ensures u.mgIcon.None? && u.mgTitleImg.None? && u.headline == headline && u.icons == icons
    ensures f.Delivered? && f.results.Some? && f.results.value != [] ==>
              u.status == f.results.value[0].status && u.reason == f.results.value[0].reason &&
              u.probabilities == f.results.value[0].probabilities
    ensures f.Delivered? && (f.results.None? || f.results.value == []) ==> u == ErrorUpdate(headline, icons, NoResultsMessage)
    ensures f.HttpError? ==> u == ErrorUpdate(headline, icons, HttpErrorMessage(f.status, f.body))
    ensures f.NetworkError? || f.BadJson? ==> u == ErrorUpdate(headline, icons, f.message)
  {
    match f
    case NetworkError(message) => ErrorUpdate(headline, icons, message)
    case HttpError(status, body) => ErrorUpdate(headline, icons, HttpErrorMessage(status, body))
    case BadJson(message) => ErrorUpdate(headline, icons, message)
    case Delivered(results) =>
      if results.Some? && |results.value| > 0 then
        var r := results.value[0];
        Update(headline, icons, None, None, r.status, r.reason, r.probabilities)
      else ErrorUpdate(headline, icons, NoResultsMessage)
  }

  /**
   * `fetchHeadlineResult` once its request has settled. A response (any status) is
   * dropped unless some panel is shown; a rejected fetch goes straight to the error
   * update, with no guard. Either way, a panel that is not shown never becomes shown
   * and no panel is created.
   */
  function AfterResponse(c: Option<Container>, headline: string, icons: Icons, f: PanelFetch): (r: Option<Container>)
    ensures !ShownPanel(c) && !f.NetworkError? ==> r == c
    ensures ShownPanel(c) || f.NetworkError? ==> r == AfterUpdate(c, ResponseUpdate(headline, icons, f))
    ensures ShownPanel(c) ==> (ShownPanel(r) <==> c.value.template.parts == AllParts)
    ensures !ShownPanel(c) ==> !ShownPanel(r)
    ensures c.None? ==> r.None?
  {
    if f.NetworkError? then AfterUpdate(c, ResponseUpdate(headline, icons, f))
    else if !ShownPanel(c) then c
    else AfterUpdate(c, ResponseUpdate(headline, icons, f))
  }

  /**
   * A shown, complete panel displays the first result's status (normalised) and reason,
   * keeps the images it was loaded with, and shows the split only when the result
   * carries probabilities.
   */
  lemma FirstResultDisplayed(c: Option<Container>, headline: string, icons: Icons, results: seq<ApiResult>)
    requires ShownPanel(c) && c.value.template.parts == AllParts && results != []
    ensures var r := AfterResponse(c, headline, icons, Delivered(Some(results)));
            ShownPanel(r) &&
            r.value.content.headline == headline &&
            r.value.content.statusText == Upper(SafeStatus(results[0].status)) &&
            r.value.content.reason == results[0].reason &&
            r.value.content.headerIcon == c.value.content.headerIcon &&
            r.value.content.titleImage == c.value.content.titleImage &&
            (r.value.content.detail.Shares? <==> results[0].probabilities.Some? && !results[0].probabilities.value.hasError &&
                                                  SafeStatus(results[0].status) != LoadingStatus)
  {
  }

  /** An answer without results puts a shown, complete panel in the `ERROR` state with the fixed message. */
  lemma NoResultsDisplaysError(c: Option<Container>, headline: string, icons: Icons, results: Option<seq<ApiResult>>)
    requires ShownPanel(c) && c.value.template.parts == AllParts
    requires results.None? || results.value == []
    ensures var r := AfterResponse(c, headline, icons, Delivered(results));
            ShownPanel(r) && r.value.content.statusText == "ERROR" &&
            r.value.content.reason == NoResultsMessage && r.value.content.detail == Unavailable
  {
    assert Upper("error") == "ERROR";
  }

  /**
   * Race discard: a panel dismissed before its answer arrives stays dismissed, and for
   * any answer that is a response it is left exactly as the dismissal left it.
   */
  lemma DismissedPanelIgnoresAnswer(headline: string, icons: Icons, mgIcon: Url, mgTitleImg: Url,
                                    load: TemplateLoad, f: PanelFetch)
    ensures var closed := AfterClose(AfterCreate(headline, icons, mgIcon, mgTitleImg, load));
            !ShownPanel(AfterResponse(closed, headline, icons, f)) &&
            (!f.NetworkError? ==> AfterResponse(closed, headline, icons, f) == closed)
  {
  }

  /**
   * Re-entry: a new request rebuilds the panel from nothing, whatever state the old one
   * was in, and shows it in the loading state for the new text.
   */
  lemma NewRequestRestartsPanel(headline: string, icons: Icons, mgIcon: Url, mgTitleImg: Url, t: Template)
    requires t.hasPanel && t.parts == AllParts
    ensures var r := AfterCreate(headline, icons, mgIcon, mgTitleImg, Loaded(t));
            ShownPanel(r) && r.value.content.headline == headline && r.value.content.detail == Calculating
  {
  }

  /**
   * The guard checks "some panel is shown", not "the panel that asked": an answer to an
   * earlier request that arrives after a newer request has replaced the panel is
   * rendered into the new panel, headline included.
   */
  lemma StaleAnswerReachesReplacementPanel(headlineA: string, headlineB: string, icons: Icons,
                                           mgIcon: Url, mgTitleImg: Url, t: Template, answerA: ApiResult)
    requires t.hasPanel && t.parts == AllParts
    ensures var panelB := AfterCreate(headlineB, icons, mgIcon, mgTitleImg, Loaded(t));
            var r := AfterResponse(panelB, headlineA, icons, Delivered(Some([answerA])));
            ShownPanel(r) && r.value.content.headline == headlineA && r.value.content.reason == answerA.reason
  {
  }

  // ---------------------------------------------------------------------------
  // Messages from the background script
  // ---------------------------------------------------------------------------

  /** The `sendResponse` payload. */
  datatype Ack = Ack(success: bool)

  /** What `messageHandler` answers: whether it keeps the channel open, and its acknowledgement. */
  datatype Reply = Reply(keepOpen: bool, ack: Option<Ack>)

  /** `messageHandler`'s answer: only a `SHOW_MISINFO_PANEL` message is acknowledged and handled. */
  function HandlerReply(msg: Message): (r: Reply)
    requires msg.WellTagged()
    ensures r.keepOpen <==> msg.Type() == ShowPanelType
    ensures r.ack.Some? <==> msg.Type() == ShowPanelType
    ensures r.ack.Some? ==> r.ack.value.success
  {
    if msg.ShowPanel? then Reply(true, Some(Ack(true))) else Reply(false, None)
  }

  /**
   * The DOM of the page as the injected script sees it: at most one panel container, and
   * the messages the script has sent to the background script.
   */
  class PanelPage {
    var container: Option<Container>
    var outbox: seq<Message>

    constructor ()
      ensures container == None && outbox == []
    {
      container := None;
      outbox := [];
    }

    /** `closePanel`. */
    method ClosePanel()
      modifies this
      ensures container == AfterClose(old(container)) && outbox == old(outbox)
    {
      if container.Some? {
        var k := container.value;
        if k.template.hasPanel {
          container := Some(k.(shown := false));
        } else {
          container := None;
        }
      }
    }

    /** `updatePanelContent`, element by element. */
    method UpdatePanelContent(u: Update)
      modifies this
      ensures container == AfterUpdate(old(container), u) && outbox == old(outbox)
    {
      if container.None? {
        return;
      }
      var k := container.value;
      if k.template.parts != AllParts {
        ClosePanel();
        return;
      }
      var status := SafeStatus(u.status);
      var view := k.content;
      if u.mgIcon.Some? && u.mgIcon.value != [] {
        view := view.(headerIcon := u.mgIcon);
      }
      if u.mgTitleImg.Some? && u.mgTitleImg.value != [] {
        view := view.(titleImage := u.mgTitleImg);
      }
      view := view.(headline := u.headline);
      view := view.(statusIcon := StatusIconSrc(u.icons, status));
      view := view.(statusText := Upper(status), statusClass := "mg-status-text mg-status-" + status);
      view := view.(reason := u.reason);
      var detail := PredictionDetail(status, u.probabilities);
      view := view.(detail := detail);
      container := Some(k.(content := view));
    }

    /** The `#mg-prediction-detail` part of `updatePanelContent`. */
    method PredictionDetail(status: string, probabilities: Option<Scores>) returns (d: Detail)
      ensures d == DetailFor(status, probabilities)
    {
      if status != LoadingStatus && probabilities.Some? && !probabilities.value.hasError {
        var m := Score(probabilities.value.misleading);
        var v := Score(probabilities.value.verified);
        var total := m + v;
        if total == 0.0 {
          total := 1.0;
        }
        d := Shares(m / total, v / total);
      } else if status == LoadingStatus {
        d := Calculating;
      } else {
        d := Unavailable;
      }
    }

    /**
     * `createOrUpdatePanel` with the outcome of loading the template. Returns whether the
     * classification request was issued (only after a successful load); a failed load
     * sends one fallback notification request to the background script.
     */
    method CreateOrUpdatePanel(headline: string, icons: Icons, mgIcon: Url, mgTitleImg: Url, load: TemplateLoad)
      returns (requested: bool)
      modifies this
      ensures container == AfterCreate(headline, icons, mgIcon, mgTitleImg, load)
      ensures requested <==> load.Loaded?
      ensures outbox == old(outbox) +
                (if load.LoadFailed? then [LoadFailureNotice(load.message)] else [])
    {
      container := None;
      match load {
        case LoadFailed(message) =>
          outbox := outbox + [FallbackNotification(PanelLoadErrorTitle, LoadFailurePrefix + message)];
          requested := false;
        case Loaded(t) =>
          container := Some(Container(t, false, TemplateView));
          UpdatePanelContent(LoadingUpdate(headline, icons, mgIcon, mgTitleImg));
          if t.hasPanel {
            container := Some(container.value.(shown := true));
          }
          requested := true;
      }
    }

    /** `fetchHeadlineResult` once its request has settled with `f`. */
    method FetchHeadlineResult(headline: string, icons: Icons, f: PanelFetch)
      modifies this
      ensures container == AfterResponse(old(container), headline, icons, f) && outbox == old(outbox)
    {
      if f.NetworkError? {
        UpdatePanelContent(ErrorUpdate(headline, icons, f.message));
        return;
      }
      var shown := container.Some? && container.value.template.hasPanel && container.value.shown;
      if !shown {
        return;
      }
      match f {
        case HttpError(status, body) =>
          UpdatePanelContent(ErrorUpdate(headline, icons, HttpErrorMessage(status, body)));
        case BadJson(message) =>
          UpdatePanelContent(ErrorUpdate(headline, icons, message));
        case Delivered(results) =>
          if results.Some? && |results.value| > 0 {
            var result := results.value[0];
            UpdatePanelContent(Update(headline, icons, None, None, result.status, result.reason, result.probabilities));
          } else {
            UpdatePanelContent(ErrorUpdate(headline, icons, NoResultsMessage));
          }
      }
    }

    /** The close button's click listener (attached only when the template has the button). */
    method CloseButtonClicked()
      modifies this
      ensures container == (if old(container).Some? && old(container).value.template.hasCloseButton
                            then AfterClose(old(container)) else old(container))
      ensures outbox == old(outbox)
    {
      if container.Some? && container.value.template.hasCloseButton {
        ClosePanel();
      }
    }

    /**
     * `messageHandler` together with the panel creation it schedules: a
     * `SHOW_MISINFO_PANEL` message rebuilds the panel and is acknowledged; any other
     * message changes nothing.
     */
    method MessageHandler(msg: Message, load: TemplateLoad) returns (reply: Reply, requested: bool)
      requires msg.WellTagged()
      modifies this
      ensures reply == HandlerReply(msg)
      ensures requested <==> msg.ShowPanel? && load.Loaded?
      ensures msg.ShowPanel? ==>
                outbox == old(outbox) + (if load.LoadFailed? then [LoadFailureNotice(load.message)] else [])
      ensures msg.ShowPanel? ==> container == AfterCreate(msg.headline, msg.icons, msg.mgIcon, msg.mgTitleImg, load)
      ensures !msg.ShowPanel? ==> container == old(container) && outbox == old(outbox)
    {
      if msg.ShowPanel? {
        requested := CreateOrUpdatePanel(msg.headline, msg.icons, msg.mgIcon, msg.mgTitleImg, load);
        reply := Reply(true, Some(Ack(true)));
      } else {
        requested := false;
        reply := Reply(false, None);
      }
    }
  }
}
