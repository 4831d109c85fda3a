/**
 * How the parts fit together: the service's answer as the content script annotates it,
 * the background script's request as the injected panel receives it, and the panel's
 * fallback request as the background script shows it.
 */
module Integration {
  import opened Wrappers
  import opened TextUtil
  import opened Api
  import opened Content
  import opened InjectPanel
  import opened Background
  import opened Server

  /** The `headlines` the content script sends for a batch: the candidates' texts, in order. */
  function Headlines(batch: seq<Candidate>): (hs: seq<string>)
    ensures |hs| == |batch|
    ensures forall i :: 0 <= i < |batch| ==> hs[i] == batch[i].text
  {
    seq(|batch|, i requires 0 <= i < |batch| => batch[i].text)
  }

  /** The first entry of the service's answer for a text is that text's verdict, when it was asked about. */
  lemma {:induction false} FirstResultOfResults(o: Oracles, hs: seq<string>, t: string)
    ensures FirstResult(Results(o, hs), t) == if t in hs then Some(Verdict(o, t)) else None
  {
    if hs != [] {
      var init := hs[..|hs| - 1];
      var last := hs[|hs| - 1];
      assert hs == init + [last];
      assert t in hs <==> t in init || t == last;
      ResultsSnoc(o, init, last);
      FirstResultAppend(Results(o, init), [Verdict(o, last)], t);
      FirstResultOfResults(o, init, t);
      assert [Verdict(o, last)][1..] == [];
    }
  }

  /**
   * The service answers every headline of a batch, so every candidate that had no icon
   * gets one, carrying its own verdict; none gets the error icon.
   */
  lemma ServiceAnswerAnnotatesEveryCandidate(o: Oracles, icons: map<Id, Icon>, batch: seq<Candidate>, k: nat)
    requires DistinctAnchors(batch) && k < |batch| && batch[k].anchor !in icons
    ensures var after := ApplyAll(icons, BatchAnnotations(batch, Body(Payload(Some(Results(o, Headlines(batch))), None))));
            var v := Verdict(o, batch[k].text);
            && batch[k].anchor in after
            && after[batch[k].anchor] == IconOf(Annotation(batch[k].anchor, v.status, v.reason))
            && after[batch[k].anchor].glyph in {CrossMark, WarningSign, CheckMark}
  {
    var hs := Headlines(batch);
    assert hs[k] == batch[k].text;
    MatchedByText(icons, batch, Results(o, hs), None, k);
    FirstResultOfResults(o, hs, batch[k].text);
    VerdictRule(o, batch[k].text);
  }

  /**
   * The request the background script sends is one the panel handles: it keeps the
   * channel open and acknowledges with success.
   */
  lemma PanelAcceptsBackgroundRequest(base: string, selection: string)
    ensures ShowMessage(base, selection).WellTagged()
    ensures HandlerReply(ShowMessage(base, selection)) == Reply(true, Some(Ack(true)))
  {
  }

  /**
   * The icon table the background script sends has its own non-empty icon for every
   * status the service returns (`VerdictRule` lists them), so the panel never falls back
   * to the error icon for a verdict.
   */
  lemma StatusIconsCoverVerdicts(base: string, status: string)
    requires status == MisleadingStatus || status == CautionStatus || status == VerifiedStatus
    ensures StatusIconSrc(StatusIcons(base), SafeStatus(status)) == Some(StatusIcons(base)[status])
  {
    LowercaseUnchanged(status);
    assert |StatusIcons(base)[status]| > 0;
  }

  lemma LowercaseUnchanged(s: string)
    requires IsLower(s)
    ensures Lower(s) == s
  {
  }

  /**
   * A panel that cannot load its template asks the background script for a notification,
   * which the background script shows under the extension's prefix.
   */
  lemma PanelLoadFailureReachesUser(base: string, message: string)
    ensures FallbackReply(LoadFailureNotice(message))
    ensures var m := LoadFailureNotice(message);
            BasicNotification(base, m.title, m.message).title == NotificationPrefix + PanelLoadErrorTitle
  {
  }
}
