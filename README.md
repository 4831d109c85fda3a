# MisInfo Guard — a verified model

MisInfo Guard is a browser extension backed by a small classification service.

- **Content script.** On each page it is written to scan candidate headline elements (see "## Left out" on the observer set-up that precedes the scan). It sends their texts in one batch to the service and puts a status icon next to each element the answer covers.
- **Context-menu check.** The user selects text and picks "Check headline with MisInfo Guard". The background script injects a stylesheet and a panel script into the tab and sends the panel the selected text. The panel asks the service about that one text and shows the verdict.
- **Service.** It answers each headline. A headline whose normalised hash is in a collection of known misinformation is `misleading`. Otherwise a classifier chooses between `caution` and `verified`.

This project models those four parts in Dafny and proves the rules they follow:

| file | module | models |
|---|---|---|
| `api.dfy` | `Api` | result entries and runtime messages |
| `content.dfy` | `Content` | `extension/content.js`: the scanner (a class over the `processedElements` set), the batch-response rule and the icon annotator (a class over the icon of each element) |
| `panel.dfy` | `InjectPanel` | `extension/inject_panel.js`: the single-panel state machine as functions, and a `PanelPage` class whose methods are proved to reach those states |
| `background.dfy` | `Background` | `extension/background.js`: the click handler's ordered browser calls and its notifications, with a `Coordinator` class that logs the calls |
| `server.dfy` | `Server` | `server/main.py`: normalisation, the verdict rule and the `check_headlines` loop |
| `integration.dfy` | `Integration` | properties that cross the parts |
| `text.dfy`, `wrappers.dfy`, `seqs.dfy` | `TextUtil`, `Wrappers`, `Seqs` | trim, case mapping, decimal rendering, `Option`, sequence lemmas |

The DOM, the network and the browser APIs are inputs.

- **Elements.** An element is an identity plus what the scripts read from it: visibility, text content, whether an excluded ancestor matches, and a nested tweet-text element.
- **Request outcomes.** Each outcome (not ok, thrown, or a parsed body) is a datatype value.
- **Background calls.** Whether each injection and the message delivery succeed is an input.
- **Service oracles.** SHA-256, the collection lookup and the classifier are arbitrary functions and an arbitrary set.

Where the design and the code disagree, the model follows the code:

- Texts of 25 characters or fewer are kept. The filter's first branch is empty and has no "too short" reason.
- An answer whose `results` is empty or missing, with no `error`, adds no icons.
- The panel's stale-answer guard asks whether *some* panel is shown, not whether the panel that asked is shown. `StaleAnswerReachesReplacementPanel` shows the consequence.
- A rejected fetch skips the guard and goes straight to the error update.
- The service never returns `probabilities`.

## Model

| member | source | states |
|---|---|---|
| `Content.ProfileOf` | extension/content.js:15-36 | The profile the substring tests pick. A host on x.com or twitter.com (or a subdomain) is always the microblog. A host on facebook.com is Facebook or the microblog. A host on instagram.com always gets a site profile. |
| `Content.SiteProfile` | extension/content.js:15-36 | Microblog exactly for x.com and twitter.com and their subdomains. Whenever it picks a site profile, the substring tests pick some site profile too (not always the same one: `x.com.facebook.com` is Facebook here and the microblog there). |
| `Content.UnrelatedHostTakenForMicroblog` | extension/content.js:15 | The substring test picks the microblog profile for "www.netflix.com". The domain rule picks the generic profile. |
| `Content.ElementsToCheck` | extension/content.js:15-36 | The selected elements are exactly the page's elements the profile's selector matches, in document order. Facebook and Instagram select nothing. |
| `Content.Resolve` | extension/content.js:42-61 | The text is trimmed. A tweet article with a tweet-text child gives that child's id and text. Any other element gives its own id and text. |
| `TextUtil.Utf16Length` | extension/content.js:70 | JavaScript's `length`: between one and two UTF-16 units per character, one each for Basic Multilingual Plane text, two each for text above U+FFFF. |
| `Content.FilterReason` | extension/content.js:64-76 | An element is kept iff its text is under 1000 UTF-16 units and it has no excluded ancestor. Too long iff 1000 units or more. Texts of 25 units or fewer are kept. |
| `Content.EmojiTextTooLong` | extension/content.js:70-72 | 600 emoji are fewer than 1000 characters but are skipped as too long. |
| `Content.EmittedSound` | extension/content.js:39-92 | A pass emits only elements of the pass, in their order. Each is visible, passes the filter and was not processed before. No identity is emitted twice. |
| `Content.EmittedComplete` | extension/content.js:41-84 | The first occurrence of an unprocessed element is emitted iff it is visible and passes the filter. |
| `Content.EmittedIdsProcessed` | extension/content.js:79-90 | Every identity a pass emits is one of the pass's elements and was unprocessed before. |
| `Content.ScannedBatchDistinct` | extension/content.js:80-94 | Outside the microblog profile, the batch a pass sends never names an element twice. |
| `Content.RescanEmitsNothing` | extension/content.js:39-92 | A pass over elements that are all processed emits nothing. |
| `Content.Scanner.constructor` | extension/content.js:4-36 | The processed set starts empty, and the profile is the one the substring tests pick from the host name. |
| `Content.Scanner.Corrected` | extension/content.js:15-36 | The same start, with the profile chosen by the site's own domain. |
| `Content.Scanner.Visit` | extension/content.js:41-91 | One step: the element joins the processed set. It is a candidate iff it was unprocessed and qualifies. |
| `Content.Scanner.FindHeadlinesOnPage` | extension/content.js:9-96 | The processed set grows by exactly the selected elements. The result is the candidates of the emitted elements. Each identity is emitted at most once over the scanner's lifetime, and every emitted identity is processed. |
| `Content.Glyph` | extension/content.js:158-184 | misleading→❌, caution→⚠️, verified→✅, error→❓, each iff its status. ❔ iff any other status. |
| `Content.Tooltip` | extension/content.js:160-180 | It starts with "Misinfo Detector Error: " iff the status is `error`, and it ends with the reason. |
| `Content.AddIcon` | extension/content.js:152-156 | An element that has an icon keeps it. Otherwise it gets the icon of this call. No other icon changes. |
| `Content.ApplyAll` | extension/content.js:152-205 | After a sequence of calls, exactly the annotated elements have icons in addition to the earlier ones. Earlier icons are unchanged. |
| `Content.FirstAnnotationWins` | extension/content.js:154-156 | A new element has an icon iff some call names it, and that icon comes from the first such call. |
| `Content.AnnotatedElementsUnchanged` | extension/content.js:154-156 | Calls that name only elements with icons change nothing. |
| `Content.ReapplyIsNoOp` | extension/content.js:154-156 | Applying a batch's calls twice equals applying them once. |
| `Content.ErrorsFor` | extension/content.js:121 | The calls name exactly the batch's elements, one per candidate in order, and every call carries status `error` and the given reason. |
| `Content.BatchAnnotations` | extension/content.js:100-149 | Every call names an element of the batch. An empty batch gives no calls. A body with empty or missing `results` and no truthy `error` gives no calls. |
| `Content.FailedBatchMarksAll` | extension/content.js:118-148 | After a non-ok answer, a thrown error, or an `error` body, every candidate has an icon. Each new icon is the `error` icon, and no other element gets one. |
| `Content.MatchedByText` | extension/content.js:128-138 | With non-empty `results`, a candidate without an icon gets one iff some result's headline equals its text. The icon is that of the first such result, whatever the positions. No element outside the batch gains an icon, and existing icons stay as they were. |
| `Content.Annotator.AddResultIcon` | extension/content.js:152-194 | The icon state becomes `AddIcon` of the old state. |
| `Content.Annotator.MarkAllError` | extension/content.js:121 | The loop ends in the state of applying one `error` call per candidate. |
| `Content.Annotator.ApplyResult` | extension/content.js:132-137 | The loop ends in the state of annotating every candidate whose text equals the result's headline. |
| `Content.Annotator.ApplyResults` | extension/content.js:130-138 | The loop over the results, in response order, ends in the state of applying every result's matches in turn. |
| `Content.Annotator.CheckHeadlinesWithAPI` | extension/content.js:100-149 | The icon state becomes the old state with the batch's calls applied. |
| `InjectPanel.HandlerReply` | extension/inject_panel.js:6-23 | The channel is kept open iff the type is `SHOW_MISINFO_PANEL`, acknowledged iff so, and the acknowledgement is success. |
| `InjectPanel.PanelPage.MessageHandler` | extension/inject_panel.js:6-23 | A panel request rebuilds the panel. The request is issued iff the message asks for a panel and the template loads. A failed load sends exactly the fallback notice. Any other message changes nothing. The reply is `HandlerReply`. |
| `InjectPanel.AfterCreate` | extension/inject_panel.js:33-71 | The result does not depend on the old panel. A failed load leaves no panel. A loaded template with `.mg-panel` is shown. A complete template shows the loading state and the headline. Each image is the URL passed, or the template's own image when that URL is empty. |
| `InjectPanel.PanelPage.CreateOrUpdatePanel` | extension/inject_panel.js:33-71 | The panel becomes `AfterCreate`. The request is issued iff the template loaded. A failed load sends exactly one fallback message. |
| `InjectPanel.LoadFailureNotice` | extension/inject_panel.js:60-70 | The message is a well-tagged `FALLBACK_NOTIFICATION` titled "Panel Load Error", and its text ends with the cause. |
| `InjectPanel.NewRequestRestartsPanel` | extension/inject_panel.js:35-58 | A new request shows a fresh panel in the loading state for the new headline. |
| `InjectPanel.AfterUpdate` | extension/inject_panel.js:74-92 | No container means no change. A missing part closes the panel instead. Otherwise only the content changes. An update never shows a hidden panel. |
| `InjectPanel.SafeStatus` | extension/inject_panel.js:94 | The result is never empty and always lowercase. An empty status becomes `error`. Any other status is lowercased. |
| `InjectPanel.SafeStatusIgnoresCase` | extension/inject_panel.js:94 | An uppercased status normalises like the original. |
| `InjectPanel.StatusIconSrc` | extension/inject_panel.js:110 | The image source is always a non-empty URL of the icon table, held either by the status or by `error`. The status's own icon wins when it has one. There is no image only when neither the status nor `error` has an icon. |
| `InjectPanel.Render` | extension/inject_panel.js:96-145 | An image changes only when a non-empty URL is passed, since the code tests the URL's truthiness. The headline and reason are shown. The status text is the normalised status uppercased. The icon and detail follow the normalised status. |
| `InjectPanel.DetailFor` | extension/inject_panel.js:119-145 | The split is shown iff the status is not `checking` and the probabilities object has no error. "Calculating" iff the status is `checking`. The shares are `Split` of the scores, with missing scores counted as 0. |
| `InjectPanel.Split` | extension/inject_panel.js:121-128 | For a non-zero sum, the shares sum to 1 and each share times the sum is its score. A zero sum returns the scores unchanged, so (0, 0) gives both shares 0. Non-negative scores give shares in [0, 1]. |
| `InjectPanel.SplitExample` | extension/inject_panel.js:121-128 | 0.3 against 0.7 gives 0.3 / 0.7, and 0 against 0 gives 0 / 0. |
| `InjectPanel.PanelPage.UpdatePanelContent` | extension/inject_panel.js:74-146 | The panel becomes `AfterUpdate`, and no message is sent. |
| `InjectPanel.PanelPage.PredictionDetail` | extension/inject_panel.js:119-145 | The detail computed step by step, with the zero total replaced by 1, equals `DetailFor`. |
| `InjectPanel.AfterClose` | extension/inject_panel.js:149-166 | Afterwards no panel is shown. A container survives iff it has `.mg-panel`, and only `mg-show` is removed. |
| `InjectPanel.PanelPage.ClosePanel` | extension/inject_panel.js:149-166 | The panel becomes `AfterClose`, and no message is sent. |
| `InjectPanel.PanelPage.CloseButtonClicked` | extension/inject_panel.js:50-51 | The panel closes only when its template has the close button. |
| `InjectPanel.HttpErrorMessage` | extension/inject_panel.js:186-196 | The message starts with "API Error <status>: " and ends with the body's detail. |
| `InjectPanel.ResponseUpdate` | extension/inject_panel.js:186-215 | Images are never passed. The first result's status, reason and probabilities are used when there are results. Otherwise the fixed no-results error. A non-ok answer gives its "API Error" message. A rejected fetch or an unparsable body gives an `error` update with the thrown message. |
| `InjectPanel.AfterResponse` | extension/inject_panel.js:169-216 | If no panel is shown, a response leaves the page unchanged. A shown panel, or any panel after a rejected fetch, receives the answer's update. A shown panel stays shown iff its template has every part. A panel that is not shown never becomes shown, and no panel is created. |
| `InjectPanel.PanelPage.FetchHeadlineResult` | extension/inject_panel.js:169-216 | The panel becomes `AfterResponse`, and no message is sent. |
| `InjectPanel.FirstResultDisplayed` | extension/inject_panel.js:202-206 | A shown, complete panel displays the first result's normalised status and its reason. It keeps its images and shows the split iff the result carries usable probabilities. |
| `InjectPanel.NoResultsDisplaysError` | extension/inject_panel.js:207-214 | No results: the panel shows `ERROR` with the fixed message and no scores. |
| `InjectPanel.DismissedPanelIgnoresAnswer` | extension/inject_panel.js:178-184 | A panel closed before its answer stays closed. Any answer that is a response leaves it as the close left it. |
| `InjectPanel.StaleAnswerReachesReplacementPanel` | extension/inject_panel.js:178-184 | An answer to an earlier request is rendered into the panel of a newer request, headline included. |
| `Background.StatusIcons` | extension/background.js:7-12 | Icons for exactly the four statuses. |
| `Background.BasicNotification` | extension/background.js:80-91 | The title is "MisInfo Guard: " followed by the given title. The message is passed unchanged. |
| `Background.ClickGate` | extension/background.js:36-48 | Nothing happens iff the item is another one, the selection is empty or missing, or the tab has no truthy id. Otherwise the first call injects the stylesheet. |
| `Background.ClickOrder` | extension/background.js:46-64 | The message is sent iff both injections succeed. The calls are stylesheet, script, then the message with the trimmed selection, all to the same tab. |
| `Background.InjectAndSendOrder` | extension/background.js:46-64 | Past the gate, the first call injects the stylesheet. The message is sent iff both injections succeed, as the third call, after the stylesheet and the script. |
| `Background.ClickNotices` | extension/background.js:65-75 | Any failure raises exactly one notification and success raises none. Either injection failing gives "Injection Error". A failed send gives "Communication Error". |
| `Background.InjectAndSendNotices` | extension/background.js:65-75 | Past the gate, exactly one notification iff some call fails. It is "Injection Error" for an injection and "Communication Error" for the send. |
| `Background.BlankSelectionSendsEmptyHeadline` | extension/background.js:37-38 | A whitespace-only selection passes the gate and is sent as an empty headline. |
| `Background.FallbackReply` | extension/background.js:94-100 | A message is handled iff its type is `FALLBACK_NOTIFICATION`. |
| `Background.Coordinator.ShowBasicNotification` | extension/background.js:80-91 | Exactly one notification is appended, built by `BasicNotification`. |
| `Background.Coordinator.OnClicked` | extension/background.js:36-77 | The click's calls, made step by step, are exactly `ClickActions` appended to the log. |
| `Background.Coordinator.InjectAndSendSteps` | extension/background.js:46-75 | The awaited calls, made one by one with their catch branches, append exactly `InjectAndSend` to the log. |
| `Background.Coordinator.OnRuntimeMessage` | extension/background.js:94-100 | A fallback request appends its notification and returns true. Any other message appends nothing and returns false. |
| `Server.Normalize` | server/main.py:39-41 | The hashed text is trimmed, lowercase and no longer than the input. |
| `Server.NormalizeIdempotent` | server/main.py:40 | Normalising twice is the same as normalising once. |
| `Server.SameHashIgnoringCaseAndPadding` | server/main.py:39-41 | Headlines that differ only in case and surrounding whitespace normalise alike, so they hash alike under any hash function. |
| `Server.Verdict` | server/main.py:51-71 | Each entry echoes its headline and carries no probabilities. |
| `Server.VerdictRule` | server/main.py:51-71 | misleading iff a hash match. caution iff no match and prediction 1. verified iff no match and any other prediction. Never `error`. Each status has its fixed reason. |
| `Server.MatchOverridesClassifier` | server/main.py:48-56 | With a hash match the verdict is `misleading` whatever the classifier predicts. |
| `Server.EquivalentHeadlinesMatchAlike` | server/main.py:48-51 | Headlines with the same normalised text are both `misleading` or neither. |
| `Server.ClassifierSeesRawHeadline` | server/main.py:59 | The classifier gets the raw headline. Two spellings that normalise alike can get `caution` and `verified`. |
| `Server.ResultsShape` | server/main.py:46-72 | Exactly one entry per headline, in request order, each that headline's verdict and echoing it. An empty request gives an empty list. |
| `Server.ResultsSnoc` | server/main.py:47-71 | One more headline appends exactly its verdict. |
| `Server.JudgeHeadline` | server/main.py:48-71 | The loop body's entry equals `Verdict`. |
| `Server.CheckHeadlines` | server/main.py:45-72 | The loop returns `Results`, one verdict per headline in order. |
| `Integration.FirstResultOfResults` | server/main.py:46-72 | The first entry for a text in the service's answer is that text's verdict iff the text was asked about. |
| `Integration.ServiceAnswerAnnotatesEveryCandidate` | extension/content.js:128-138 | For the service's answer to a batch, every candidate without an icon gets the icon of its own verdict: ❌, ⚠️ or ✅, never the error icon. |
| `Integration.PanelAcceptsBackgroundRequest` | extension/background.js:58-64 | The background script's request is well-tagged, and the panel acknowledges it with success. |
| `Integration.StatusIconsCoverVerdicts` | extension/inject_panel.js:110 | Every status the service returns has its own icon in the background's table, so the panel never falls back to the error icon for a verdict. |
| `Integration.PanelLoadFailureReachesUser` | extension/inject_panel.js:64-68 | The panel's load-failure request is handled by the background script, which titles it "MisInfo Guard: Panel Load Error". |

## Left out

- Network transport and I/O. The `fetch` calls, the template load and the browser calls become outcome parameters: `BatchResponse`, `PanelFetch`, `TemplateLoad` and `StepOutcomes`.
- Timing and interleaving. The model does not capture:
  - the 1.5 s initial scan delay, the 50 ms and 150 ms message delays, and `requestAnimationFrame`;
  - the transition end and the 350 ms removal timer (a closed panel stays in the model as a container with `mg-show` removed);
  - a template load that overlaps another request.

  The model applies each operation as one step in program order. In particular it assumes the animation frame that shows a new panel runs before the answer arrives.
- `MutationObserver`. The observer at extension/content.js:211 refers to `processMutations`, which the file never defines. Evaluating that name throws, and the throw comes before the initial scan is scheduled (extension/content.js:220), so as written a page may never be scanned at all. The model takes the scan as scheduled and models rescans only as further `FindHeadlinesOnPage` calls.
- Re-injection of the panel script. extension/inject_panel.js:3 declares `const PANEL_ID` at top level, so a second injection into the same page may fail with a redeclaration error, which the background script reports as an injection error. The model takes the injection outcome as the input `scriptOk` and does not derive it.
- Context-menu registration (extension/background.js:16-33) and all console logging.
- Presentation: `toFixed(1)` percent rounding, the HTML of the detail block, inline styles, colours, alt texts, the title image's `display`, and where the icon span is inserted.
- The content script's endpoint. Its request goes to its own `API_URL` (extension/content.js:3), not the one the background script passes the panel. The batch request is abstract, so the endpoint is not modelled.
- The service's framework and storage: FastAPI, CORS, request validation, the Mongo client, `read_root`, and the training, evaluation and database scripts. SHA-256, `find_one` and `model.predict` are oracles.
- `TextUtil.Trim`: JavaScript's `trim` and Python's `strip` remove every Unicode whitespace character, but the model removes ASCII whitespace only (space, tab, newline, vertical tab, form feed, carriage return).
- `Server.Normalize`: Python's `lower` and JavaScript's `toLowerCase`/`toUpperCase` map all Unicode letters. The model maps ASCII letters only, so its case-insensitivity lemmas cover ASCII case.
- `InjectPanel.Split`: the scores are exact reals, not IEEE doubles. Rounding, NaN and non-numeric scores are not modelled, and nor is a `probabilities` value that is not an object.
- `InjectPanel.ResponseUpdate`: a result without a `status` field would pick up the default parameter `'checking'` in `updatePanelContent`, and one without a `reason` field the default `'Analyzing selected text...'` (extension/inject_panel.js:73). The model's results always carry a status and a reason string. An empty status becomes `error`.
- `InjectPanel.HttpErrorMessage`: the plain-text fallback reads the body after a failed JSON parse. Under the Fetch standard a body can be read only once, so a browser may throw there instead. The model takes the text as given.
- `Content.AddIcon`: the source looks for an existing icon among the element's descendants, so an icon inside a nested candidate also blocks its ancestor. The model keys icons by element only.
- The thrown-error paths of the panel load other than a failed template fetch. An exception thrown inside the setup callback also reaches the fallback notification, but it is not modelled.

## Findings

| source | as written | input that shows it | evidently intended | confidence | as-written member | corrected member |
|---|---|---|---|---|---|---|
| extension/content.js:15 | The microblog profile is chosen by a substring test: the host name includes `x.com` or `twitter.com`. The Facebook and Instagram tests are substring tests as well. | `www.netflix.com` contains `x.com`, so the page is scanned for tweet articles only and none of its headings is ever checked. | A site's profile applies to that domain and its subdomains. | not executed; follows from the text of the test | `Content.ProfileOf` with `Content.UnrelatedHostTakenForMicroblog` | `Content.SiteProfile` (used by `Content.Scanner.Corrected`) |

The same substring test is repeated at extension/content.js:46 to decide whether to look for a tweet-text child. The model decides this by the scanner's profile, so both decisions agree.
