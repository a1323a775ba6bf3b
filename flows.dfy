/**
 * Properties that span two parts of the extension: the popup and the page
 * customizer agree on what a saved entry means, and the background passes the
 * full-page script's reply back unchanged.
 */
module Flows {
  import opened Wrappers
  import opened Text
  import opened Browser
  import Customize
  import Popup
  import FullPage
  import Background

  /**
   * An entry saved from the popup is applied by the page exactly when its
   * checkbox was ticked, and then hides the selectors, classes and ids as the
   * popup parsed them, followed by the form's CSS.
   */
  lemma SavedRulesApplyIffChecked(form: Popup.RuleForm, escape: string -> string)
    ensures Customize.Applies(Some(Popup.SavedRules(form))) <==> form.enabled
    ensures Customize.StyleText(Popup.SavedRules(form), escape) ==
              Customize.HideRule(Popup.ParseList(form.hideSelectors)) +
              Customize.HideRule(Customize.Escaped(Popup.ParseList(form.hideClasses), ".", escape)) +
              Customize.HideRule(Customize.Escaped(Popup.ParseList(form.hideIds), "#", escape)) +
              form.css
  {
    Customize.BuildersIgnorePaddingAndBlanks(Popup.ParseList(form.hideSelectors), escape);
    Customize.BuildersIgnorePaddingAndBlanks(Popup.ParseList(form.hideClasses), escape);
    Customize.BuildersIgnorePaddingAndBlanks(Popup.ParseList(form.hideIds), escape);
  }

  /**
   * The two readers of `enabled` differ on a stored value that is truthy but
   * not `true`: the popup shows the entry as enabled, the page does not apply
   * it. Entries the popup itself writes never hold such a value.
   */
  lemma TruthyFlagShownButNotApplied(rules: StoredRules, form: Popup.RuleForm)
    requires rules.enabled == OtherTruthy
    ensures Popup.LoadedForm(rules).enabled && !Customize.Applies(Some(rules))
    ensures Popup.SavedRules(form).enabled != OtherTruthy
  {
  }

  /** For an injectable active tab, the requester gets the full-page script's reply for the capture's outcome. */
  lemma FullPageReplyReachesRequester(activeTab: Option<Tab>, outcome: FullPage.CaptureOutcome)
    requires HasTruthyId(activeTab) && Background.Injectable(activeTab.value.url)
    ensures var d := Background.HandleCaptureFullPage(activeTab, Background.Replied(Some(FullPage.FullPageReply(outcome))));
            && d.sent == Some(TabMessage(activeTab.value.id.value, Request(FULLPAGE_START, None)))
            && d.reply.success == outcome.Composited?
            && (outcome.Aborted? ==> d.reply.error == Some(outcome.error))
  {
  }

  /**
   * For an injectable active tab whose page delivers every strip with a data
   * URL, the requester of `capture-fullpage` gets a success carrying the
   * composited image and the canvas size.
   */
  lemma EveryStripDeliveredGivesSuccess(activeTab: Option<Tab>, metrics: FullPage.PageMetrics, innerWidth: nat, innerHeight: nat,
                                        reportedDpr: Option<FullPage.Ratio>, settle: (real, real) -> (real, real),
                                        replies: nat -> FullPage.CaptureReply, png: string)
    requires HasTruthyId(activeTab) && Background.Injectable(activeTab.value.url) && innerHeight > 0
    requires forall i: nat :: i < FullPage.StepCount(FullPage.TotalPageHeight(metrics), innerHeight) ==>
               replies(i).Delivered? && DataUrlOf(replies(i).response).Some?
    ensures var outcome := FullPage.ExpectedOutcome(metrics, innerWidth, innerHeight, reportedDpr, settle, replies, png);
            var d := Background.HandleCaptureFullPage(activeTab, Background.Replied(Some(FullPage.FullPageReply(outcome))));
            && d.reply.success && d.reply.dataUrl == Some(png)
            && d.reply.width == Some(FullPage.CanvasWidth(innerWidth, FullPage.EffectiveDpr(reportedDpr)))
            && d.reply.height == Some(FullPage.CanvasHeight(FullPage.TotalPageHeight(metrics), FullPage.EffectiveDpr(reportedDpr)))
  {
    FullPage.CaptureSucceedsIffEveryStripArrives(metrics, innerWidth, innerHeight, reportedDpr, settle, replies, png);
  }
}
