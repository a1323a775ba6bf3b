/**
 * The background service worker's message routing: a visible-tab screenshot
 * for `capture-screenshot`, and for `capture-fullpage` a guarded hand-off to
 * the page's full-page capture script whose reply is passed back.
 *
 * What the browser answers (the visible-tab capture, the active-tab query,
 * the page's reply) is given as input.
 */
module Background {
  import opened Wrappers
  import opened Browser

  /** What `captureVisibleTab` reports: `chrome.runtime.lastError` set, or the data URL it passed (possibly absent or empty). */
  datatype HostCapture = CaptureError(message: Option<string>) | CaptureData(dataUrl: Option<string>)

  /** A string value that is present and not empty, i.e. truthy. */
  predicate Truthy(s: Option<string>) {
    s.Some? && s.value != ""
  }

  /** `a || b` on an optional string. */
  function OrDefault(s: Option<string>, default: string): (r: string)
    ensures Truthy(s) ==> r == s.value
    ensures !Truthy(s) ==> r == default
  {
    if Truthy(s) then s.value else default
  }

  const VISIBLE_CAPTURE_FAILED := "Visible tab capture failed: "
  const NO_SCREENSHOT_DATA := "No screenshot data received from browser"

  /**
   * `captureVisible`: the data URL when the browser gives a non-empty one
   * without error; otherwise the error names what went wrong, the host's own
   * message when it has one.
   */
  function CaptureVisible(capture: HostCapture): (r: Result<string>)
    ensures r.Ok? <==> capture.CaptureData? && Truthy(capture.dataUrl)
    ensures r.Ok? ==> r.value == capture.dataUrl.value && r.value != ""
    ensures capture.CaptureError? ==> r.Err? && VISIBLE_CAPTURE_FAILED <= r.error
    ensures capture.CaptureError? && Truthy(capture.message) ==>
              r.error == VISIBLE_CAPTURE_FAILED + capture.message.value
    ensures capture.CaptureData? && !Truthy(capture.dataUrl) ==> r == Err(NO_SCREENSHOT_DATA)
  {
    match capture
    case CaptureError(message) => Err(VISIBLE_CAPTURE_FAILED + OrDefault(message, "Screenshot capture failed"))
    case CaptureData(dataUrl) => if Truthy(dataUrl) then Ok(dataUrl.value) else Err(NO_SCREENSHOT_DATA)
  }

  /** The window to capture: the sender tab's when it has one, otherwise the active tab's. */
  function ScreenshotWindow(senderTab: Option<Tab>, activeTab: Option<Tab>): (windowId: Option<int>)
    ensures senderTab.Some? && senderTab.value.windowId.Some? ==> windowId == senderTab.value.windowId
    ensures !(senderTab.Some? && senderTab.value.windowId.Some?) ==>
              windowId == (if activeTab.Some? then activeTab.value.windowId else None)
  {
    if senderTab.Some? && senderTab.value.windowId.Some? then senderTab.value.windowId
    else if activeTab.Some? then activeTab.value.windowId
    else None
  }

  /**
   * The reply to `capture-screenshot`; `captureTab(w)` is what capturing
   * window `w` reports. It succeeds exactly when a window is found and its
   * capture gives data, and then carries that data.
   */
  function ScreenshotReply(senderTab: Option<Tab>, activeTab: Option<Tab>, captureTab: int -> HostCapture): (resp: Response)
    ensures resp.Status?
    ensures ScreenshotWindow(senderTab, activeTab).None? ==> resp == Failure("No active tab")
    ensures resp.success <==>
              ScreenshotWindow(senderTab, activeTab).Some? &&
              CaptureVisible(captureTab(ScreenshotWindow(senderTab, activeTab).value)).Ok?
    ensures resp.success ==>
              resp.dataUrl == Some(CaptureVisible(captureTab(ScreenshotWindow(senderTab, activeTab).value)).value)
    ensures !resp.success ==> resp.dataUrl.None? && resp.error.Some? && resp.error.value != ""
  {
    var windowId := ScreenshotWindow(senderTab, activeTab);
    if windowId.None? then Failure("No active tab")
    else
      match CaptureVisible(captureTab(windowId.value))
      case Ok(dataUrl) => Status(true, Some(dataUrl), None, None, None)
      case Err(message) => Failure(message)
  }

  /** The page can take a content-script message: a non-empty URL outside `chrome://` and `chrome-extension://`. */
  predicate Injectable(url: Option<string>)
    ensures Injectable(url) ==> url.Some? && |url.value| > 0
    ensures url.Some? && |url.value| >= 9 && url.value[..9] == "chrome://" ==> !Injectable(url)
    ensures url.Some? && |url.value| >= 19 && url.value[..19] == "chrome-extension://" ==> !Injectable(url)
  {
    Truthy(url) && !("chrome://" <= url.value) && !("chrome-extension://" <= url.value)
  }

  /** How the page answered FULLPAGE_START: a messaging error, or a reply (absent when the page sent none). */
  datatype PageReply = MessagingError(message: Option<string>) | Replied(resp: Option<Response>)

  /** The outcome of `capture-fullpage`: the message sent to the page, if any, and the reply to the requester. */
  datatype FullPageDispatch = FullPageDispatch(sent: Option<ChromeCall>, reply: Response)

  const COMMUNICATION_FAILED := "Failed to communicate with page: "
  const TRY_REFRESHING := ". Try refreshing the page."

  /**
   * The `capture-fullpage` handler: FULLPAGE_START goes to the active tab
   * exactly when it has a truthy id and an injectable URL; the page's reply is
   * then passed back unchanged, and otherwise the reply names the failed guard.
   */
  function HandleCaptureFullPage(activeTab: Option<Tab>, pageReply: PageReply): (d: FullPageDispatch)
    ensures d.sent.Some? <==> HasTruthyId(activeTab) && Injectable(activeTab.value.url)
    ensures d.sent.Some? ==> d.sent.value == TabMessage(activeTab.value.id.value, Request(FULLPAGE_START, None))
    ensures !HasTruthyId(activeTab) ==> d.reply == Failure("No active tab found")
    ensures HasTruthyId(activeTab) && !Injectable(activeTab.value.url) ==>
              d.reply == Failure("Cannot capture Chrome system pages")
    ensures d.sent.Some? && pageReply.Replied? && pageReply.resp.Some? ==> d.reply == pageReply.resp.value
    ensures d.sent.Some? && pageReply == Replied(None) ==> d.reply == Failure("No response from content script")
    ensures d.sent.Some? && pageReply.MessagingError? ==>
              && d.reply.Status? && !d.reply.success && d.reply.error.Some?
              && COMMUNICATION_FAILED <= d.reply.error.value
              && d.reply.error.value == COMMUNICATION_FAILED + OrDefault(pageReply.message, "Unknown communication error") + TRY_REFRESHING
  {
    if !HasTruthyId(activeTab) then FullPageDispatch(None, Failure("No active tab found"))
    else if !Injectable(activeTab.value.url) then FullPageDispatch(None, Failure("Cannot capture Chrome system pages"))
    else
      var sent := Some(TabMessage(activeTab.value.id.value, Request(FULLPAGE_START, None)));
      match pageReply
      case MessagingError(message) =>
        FullPageDispatch(sent, Failure(COMMUNICATION_FAILED + OrDefault(message, "Unknown communication error") + TRY_REFRESHING))
      case Replied(resp) =>
        if resp.None? then FullPageDispatch(sent, Failure("No response from content script"))
        else FullPageDispatch(sent, resp.value)
  }

  /** A system page is never sent FULLPAGE_START, whatever its id and whatever the page would answer. */
  lemma SystemPagesAreNeverMessaged(activeTab: Option<Tab>, pageReply: PageReply, rest: string)
    requires activeTab.Some? && activeTab.value.url.Some?
    requires activeTab.value.url.value == "chrome://" + rest || activeTab.value.url.value == "chrome-extension://" + rest
    ensures HandleCaptureFullPage(activeTab, pageReply).sent.None?
  {
    var url := activeTab.value.url.value;
    if url == "chrome://" + rest {
      assert url[..|"chrome://"|] == "chrome://";
    } else {
      assert url[..|"chrome-extension://"|] == "chrome-extension://";
    }
  }

  /** What the listener does with one message. */
  datatype Routed = Routed(keepOpen: bool, reply: Option<Response>, sent: Option<ChromeCall>)

  /**
   * The `onMessage` listener: the two capture actions are answered (and keep
   * the channel open); a missing request or any other action is ignored.
   */
  function OnMessage(request: Option<Request>, senderTab: Option<Tab>, activeTab: Option<Tab>,
                     captureTab: int -> HostCapture, pageReply: PageReply): (routed: Routed)
    ensures routed.keepOpen <==>
              request.Some? && (request.value.action == CAPTURE_SCREENSHOT || request.value.action == CAPTURE_FULLPAGE)
    ensures routed.keepOpen <==> routed.reply.Some?
    ensures routed.sent.Some? ==> request.Some? && request.value.action == CAPTURE_FULLPAGE
    ensures request.Some? && request.value.action == CAPTURE_SCREENSHOT ==>
              routed.reply == Some(ScreenshotReply(senderTab, activeTab, captureTab))
    ensures request.Some? && request.value.action == CAPTURE_FULLPAGE ==>
              routed.reply == Some(HandleCaptureFullPage(activeTab, pageReply).reply) &&
              routed.sent == HandleCaptureFullPage(activeTab, pageReply).sent
  {
    if request.None? then Routed(false, None, None)
    else if request.value.action == CAPTURE_SCREENSHOT then
      Routed(true, Some(ScreenshotReply(senderTab, activeTab, captureTab)), None)
    else if request.value.action == CAPTURE_FULLPAGE then
      var d := HandleCaptureFullPage(activeTab, pageReply);
      Routed(true, Some(d.reply), d.sent)
    else Routed(false, None, None)
  }
}
