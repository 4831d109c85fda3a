/**
 * The background script (extension/background.js): on a click of the "Check headline"
 * context-menu item it injects the panel's stylesheet, then the panel script, then
 * sends the panel its request; each failure raises one notification. It also shows the
 * notifications the injected script asks for.
 *
 * Browser calls are recorded as `Action`s in the order they are made; whether each
 * injection and the message delivery succeed is an input.
 */
module Background {
  import opened Wrappers
  import opened TextUtil
  import opened Api
  import opened Seqs

  const MenuItemId: string := "check-misinfo-guard"
  const ApiUrl: Url := "https://misinformation-detector-ai.vercel.app/check-headlines"
  const CssFile: string := "result_panel.css"
  const ScriptFile: string := "inject_panel.js"
  const NotificationPrefix: string := "MisInfo Guard: "
  const InjectionErrorTitle: string := "Injection Error"
  const InjectionErrorMessage: string := "Could not load the panel on this page. Try refreshing the page."
  const CommunicationErrorTitle: string := "Communication Error"
  const CommunicationErrorMessage: string := "Could not send data to the page panel. Please refresh and try again."

  /** `browser.runtime.getURL(path)` for an extension whose resources live under `base`. */
  function ResourceUrl(base: string, path: string): Url {
    base + path
  }

  /** `STATUS_ICONS`: an icon for each of the four statuses. */
  function StatusIcons(base: string): (icons: Icons)
    ensures icons.Keys == {"verified", "misleading", "caution", "error"}
  {
    map["verified" := ResourceUrl(base, "icons/check.png"),
        "misleading" := ResourceUrl(base, "icons/cross.png"),
        "caution" := ResourceUrl(base, "icons/warning.png"),
        "error" := ResourceUrl(base, "icons/info.png")]
  }

  /** The context-menu click: which item, and the selected text (`None` when absent). */
  datatype ClickInfo = ClickInfo(menuItemId: string, selectionText: Option<string>)

  /** The tab the click happened in, with its id when it has one. */
  datatype Tab = Tab(id: Option<int>)

  /** A `basic` system notification. */
  datatype Notification = Notification(iconUrl: Url, title: string, message: string)

  /** A browser call the background script makes. */
  datatype Action =
    | InsertCss(tabId: int, file: string)
    | ExecuteScript(tabId: int, file: string)
    | SendMessage(tabId: int, msg: Message)
    | Notify(notification: Notification)

  /** Whether `insertCSS`, `executeScript` and `sendMessage` succeed. */
  datatype StepOutcomes = StepOutcomes(cssOk: bool, scriptOk: bool, sendOk: bool)

  /** `showBasicNotification(title, message)`: every title carries the extension's prefix. */
  function BasicNotification(base: string, title: string, message: string): (n: Notification)
    ensures StartsWith(n.title, NotificationPrefix)
    ensures n.title[|NotificationPrefix|..] == title && n.message == message
  {
    var t := NotificationPrefix + title;
    assert t[..|NotificationPrefix|] == NotificationPrefix;
    Notification(ResourceUrl(base, "icons/shield-48.png"), t, message)
  }

  /** The click concerns this extension's menu item and carries a truthy selection. */
  predicate Triggered(info: ClickInfo) {
    info.menuItemId == MenuItemId && info.selectionText.Some? && info.selectionText.value != []
  }

  /** `tab.id` when the tab and a truthy id exist (an id of 0 is falsy). */
  function TabIdOf(tab: Option<Tab>): Option<int> {
    if tab.Some? && tab.value.id.Some? && tab.value.id.value != 0 then tab.value.id else None
  }

  /** The `SHOW_MISINFO_PANEL` message for a selection. */
  function ShowMessage(base: string, selectedText: string): Message {
    ShowPanel(selectedText, ApiUrl, StatusIcons(base),
              ResourceUrl(base, "icons/shield-48.png"), ResourceUrl(base, "icons/shield-48-title.png"))
  }

  /** The notifications among some actions, in order. */
  function Notices(actions: seq<Action>): seq<Notification> {
    if actions == [] then []
    else (if actions[0].Notify? then [actions[0].notification] else []) + Notices(actions[1..])
  }

  /** Some action sends a message. */
  predicate Sends(actions: seq<Action>) {
    exists i :: 0 <= i < |actions| && actions[i].SendMessage?
  }

  /**
   * The calls made once the gate has passed, into tab `id` with the trimmed selection
   * `sel`: the stylesheet, then the script, then the message, stopping at the first
   * failed injection with a notification; a failed send adds a notification too.
   */
  function InjectAndSend(base: string, id: int, sel: string, o: StepOutcomes): seq<Action> {
    var injectionError := Notify(BasicNotification(base, InjectionErrorTitle, InjectionErrorMessage));
    if !o.cssOk then [InsertCss(id, CssFile)] + [injectionError]
    else if !o.scriptOk then [InsertCss(id, CssFile)] + [ExecuteScript(id, ScriptFile)] + [injectionError]
    else
      [InsertCss(id, CssFile)] + [ExecuteScript(id, ScriptFile)] + [SendMessage(id, ShowMessage(base, sel))] +
      if o.sendOk then [] else [Notify(BasicNotification(base, CommunicationErrorTitle, CommunicationErrorMessage))]
  }

  /** The browser calls one click leads to (see `ClickGate`, `ClickOrder` and `ClickNotices`). */
  function ClickActions(base: string, info: ClickInfo, tab: Option<Tab>, o: StepOutcomes): seq<Action> {
    if !Triggered(info) || TabIdOf(tab).None? then []
    else InjectAndSend(base, TabIdOf(tab).value, Trim(info.selectionText.value), o)
  }

  /**
   * Nothing happens for another menu item, an empty or missing selection, or a tab
   * without a (truthy) id; otherwise the stylesheet is injected first, into that tab.
   */
  lemma ClickGate(base: string, info: ClickInfo, tab: Option<Tab>, o: StepOutcomes)
    ensures var r := ClickActions(base, info, tab, o);
            && (r == [] <==> !Triggered(info) || TabIdOf(tab).None?)
            && (r != [] ==> r[0] == InsertCss(TabIdOf(tab).value, CssFile))
  {
    if Triggered(info) && TabIdOf(tab).Some? {
      InjectAndSendOrder(base, TabIdOf(tab).value, Trim(info.selectionText.value), o);
    }
  }

  /**
   * The message is sent exactly when both injections succeed, after them, to the same
   * tab, and carries the trimmed selection.
   */
  lemma ClickOrder(base: string, info: ClickInfo, tab: Option<Tab>, o: StepOutcomes)
    ensures var r := ClickActions(base, info, tab, o);
            && (Sends(r) <==> r != [] && o.cssOk && o.scriptOk)
            && (Sends(r) ==>
                  |r| >= 3 &&
                  r[..3] == [InsertCss(TabIdOf(tab).value, CssFile), ExecuteScript(TabIdOf(tab).value, ScriptFile),
                             SendMessage(TabIdOf(tab).value, ShowMessage(base, Trim(info.selectionText.value)))])
  {
    if Triggered(info) && TabIdOf(tab).Some? {
      InjectAndSendOrder(base, TabIdOf(tab).value, Trim(info.selectionText.value), o);
    }
  }

  lemma InjectAndSendOrder(base: string, id: int, sel: string, o: StepOutcomes)
    ensures var r := InjectAndSend(base, id, sel, o);
            && |r| >= 2 && r[0] == InsertCss(id, CssFile)
            && (Sends(r) <==> o.cssOk && o.scriptOk)
            && (Sends(r) ==> |r| >= 3 && r[..3] == [InsertCss(id, CssFile), ExecuteScript(id, ScriptFile),
                                                     SendMessage(id, ShowMessage(base, sel))])
  {
    var r := InjectAndSend(base, id, sel, o);
    var css := InsertCss(id, CssFile);
    var script := ExecuteScript(id, ScriptFile);
    var injectionError := Notify(BasicNotification(base, InjectionErrorTitle, InjectionErrorMessage));
    if !o.cssOk {
      assert r == [css, injectionError];
    } else if !o.scriptOk {
      assert r == [css, script, injectionError];
    } else {
      var send := SendMessage(id, ShowMessage(base, sel));
      var tail := if o.sendOk then [] else [Notify(BasicNotification(base, CommunicationErrorTitle, CommunicationErrorMessage))];
      assert r == [css, script, send] + tail;
      assert r[2] == send;
    }
  }

  /**
   * A click that acts raises exactly one notification when any of the three calls
   * fails and none otherwise: an injection error for either injection, a communication
   * error for the message.
   */
  lemma ClickNotices(base: string, info: ClickInfo, tab: Option<Tab>, o: StepOutcomes)
    ensures var r := ClickActions(base, info, tab, o);
            && |Notices(r)| == (if r != [] && !(o.cssOk && o.scriptOk && o.sendOk) then 1 else 0)
            && (Notices(r) != [] ==>
                  Notices(r)[0] == BasicNotification(base,
                                     if o.cssOk && o.scriptOk then CommunicationErrorTitle else InjectionErrorTitle,
                                     if o.cssOk && o.scriptOk then CommunicationErrorMessage else InjectionErrorMessage))
  {
    if Triggered(info) && TabIdOf(tab).Some? {
      InjectAndSendOrder(base, TabIdOf(tab).value, Trim(info.selectionText.value), o);
      InjectAndSendNotices(base, TabIdOf(tab).value, Trim(info.selectionText.value), o);
    }
  }

  lemma InjectAndSendNotices(base: string, id: int, sel: string, o: StepOutcomes)
    ensures var r := InjectAndSend(base, id, sel, o);
            && |Notices(r)| == (if o.cssOk && o.scriptOk && o.sendOk then 0 else 1)
            && (Notices(r) != [] ==>
                  Notices(r)[0] == BasicNotification(base,
                                     if o.cssOk && o.scriptOk then CommunicationErrorTitle else InjectionErrorTitle,
                                     if o.cssOk && o.scriptOk then CommunicationErrorMessage else InjectionErrorMessage))
  {
    var css := InsertCss(id, CssFile);
    var script := ExecuteScript(id, ScriptFile);
    var injectionError := Notify(BasicNotification(base, InjectionErrorTitle, InjectionErrorMessage));
    NoticesOne(css);
    NoticesOne(script);
    NoticesOne(injectionError);
    if !o.cssOk {
      NoticesAppend([css], [injectionError]);
    } else if !o.scriptOk {
      NoticesAppend([css], [script]);
      NoticesAppend([css] + [script], [injectionError]);
    } else {
      var send := SendMessage(id, ShowMessage(base, sel));
      var communicationError := Notify(BasicNotification(base, CommunicationErrorTitle, CommunicationErrorMessage));
      var tail := if o.sendOk then [] else [communicationError];
      NoticesOne(send);
      NoticesOne(communicationError);
      assert Notices([]) == [];
      NoticesAppend([css], [script]);
      NoticesAppend([css] + [script], [send]);
      NoticesAppend([css] + [script] + [send], tail);
    }
  }

  lemma {:induction false} NoticesAppend(a: seq<Action>, b: seq<Action>)
    ensures Notices(a + b) == Notices(a) + Notices(b)
  {
    if a == [] {
      assert a + b == b;
    } else {
      assert (a + b)[1..] == a[1..] + b;
      NoticesAppend(a[1..], b);
    }
  }

  lemma NoticesOne(a: Action)
    ensures Notices([a]) == if a.Notify? then [a.notification] else []
  {
    assert [a][1..] == [];
  }

  /**
   * A selection of whitespace only is truthy, so it passes the gate and, once trimmed,
   * is sent as an empty headline.
   */
  lemma BlankSelectionSendsEmptyHeadline(base: string, id: int, o: StepOutcomes)
    requires id != 0 && o.cssOk && o.scriptOk
    ensures var r := ClickActions(base, ClickInfo(MenuItemId, Some("  ")), Some(Tab(Some(id))), o);
            Sends(r) && r[2] == SendMessage(id, ShowMessage(base, ""))
  {
    var info := ClickInfo(MenuItemId, Some("  "));
    BlankTrimsToEmpty();
    assert ClickActions(base, info, Some(Tab(Some(id))), o) == InjectAndSend(base, id, "", o);
    InjectAndSendOrder(base, id, "", o);
  }

  lemma BlankTrimsToEmpty()
    ensures Trim("  ") == ""
  {
    AllSpaceTrimStart("  ");
  }

  /** The background listener's answer to a runtime message: it handles only fallback notifications. */
  function FallbackReply(msg: Message): (handled: bool)
    requires msg.WellTagged()
    ensures handled <==> msg.Type() == FallbackType
  {
    msg.FallbackNotification?
  }

  /** The background script's effects: the browser calls it has made, in order. */
  class Coordinator {
    const base: string
    var actions: seq<Action>

    constructor (base: string)
      ensures this.base == base && actions == []
    {
      this.base := base;
      actions := [];
    }

    /** `showBasicNotification`. */
    method ShowBasicNotification(title: string, message: string)
      modifies this
      ensures actions == old(actions) + [Notify(BasicNotification(base, title, message))]
    {
      actions := actions + [Notify(Notification(ResourceUrl(base, "icons/shield-48.png"), NotificationPrefix + title, message))];
    }

    /** The `contextMenus.onClicked` listener, with the outcome of each awaited call. */
    method OnClicked(info: ClickInfo, tab: Option<Tab>, o: StepOutcomes)
      modifies this
      ensures actions == old(actions) + ClickActions(base, info, tab, o)
    {
      if !(info.menuItemId == MenuItemId && info.selectionText.Some? && info.selectionText.value != []) {
        return;
      }
      var selectedText := Trim(info.selectionText.value);
      if tab.None? || tab.value.id.None? || tab.value.id.value == 0 {
        return;
      }
      InjectAndSendSteps(tab.value.id.value, selectedText, o);
    }

    /** The awaited calls of the click listener, in order, each failure caught by a notification. */
    method InjectAndSendSteps(id: int, selectedText: string, o: StepOutcomes)
      modifies this
      ensures actions == old(actions) + InjectAndSend(base, id, selectedText, o)
    {
      ghost var start := actions;
      var css := InsertCss(id, CssFile);
      actions := actions + [css];
      if !o.cssOk {
        ShowBasicNotification(InjectionErrorTitle, InjectionErrorMessage);
        AppendAssoc(start, [css], [Notify(BasicNotification(base, InjectionErrorTitle, InjectionErrorMessage))]);
        return;
      }
      var script := ExecuteScript(id, ScriptFile);
      actions := actions + [script];
      AppendAssoc(start, [css], [script]);
      if !o.scriptOk {
        ShowBasicNotification(InjectionErrorTitle, InjectionErrorMessage);
        AppendAssoc(start, [css] + [script], [Notify(BasicNotification(base, InjectionErrorTitle, InjectionErrorMessage))]);
        return;
      }
      var send := SendMessage(id, ShowMessage(base, selectedText));
      actions := actions + [send];
      AppendAssoc(start, [css] + [script], [send]);
      if !o.sendOk {
        ShowBasicNotification(CommunicationErrorTitle, CommunicationErrorMessage);
        AppendAssoc(start, [css] + [script] + [send],
                    [Notify(BasicNotification(base, CommunicationErrorTitle, CommunicationErrorMessage))]);
      } else {
        assert [css] + [script] + [send] + [] == [css] + [script] + [send];
      }
    }

    /** The `runtime.onMessage` listener: a fallback request becomes a notification. */
    method OnRuntimeMessage(msg: Message) returns (handled: bool)
      requires msg.WellTagged()
      modifies this
      ensures handled == FallbackReply(msg)
      ensures actions == old(actions) + if handled then [Notify(BasicNotification(base, msg.title, msg.message))] else []
    {
      if msg.FallbackNotification? {
        ShowBasicNotification(msg.title, msg.message);
        return true;
      }
      return false;
    }
  }
}
