/**
 * The full-page screenshot content script: it scrolls the page one viewport
 * at a time, asks the background worker for a capture of each viewport,
 * restores the scroll position and draws the strips into one canvas.
 *
 * The browser is an oracle: `Window.settle` says where `scrollTo` leaves the
 * page once the fixed wait is over, and `replies(i)` is what the runtime
 * delivers for the i-th capture request. Drawing is recorded as the
 * rectangles passed to `drawImage`.
 */
module FullPage {
  import opened Wrappers
  import opened Browser

  /** The five height metrics of `document.body` and `document.documentElement`. */
  datatype PageMetrics = PageMetrics(
    bodyScrollHeight: nat,
    bodyOffsetHeight: nat,
    htmlClientHeight: nat,
    htmlScrollHeight: nat,
    htmlOffsetHeight: nat)

  function Max(a: nat, b: nat): nat {
    if a < b then b else a
  }

  /** `getTotalPageHeight`: the largest of the five metrics. */
  function TotalPageHeight(m: PageMetrics): (h: nat)
    ensures h >= m.bodyScrollHeight && h >= m.bodyOffsetHeight && h >= m.htmlClientHeight
    ensures h >= m.htmlScrollHeight && h >= m.htmlOffsetHeight
    ensures h == m.bodyScrollHeight || h == m.bodyOffsetHeight || h == m.htmlClientHeight ||
            h == m.htmlScrollHeight || h == m.htmlOffsetHeight
  {
    Max(Max(Max(Max(m.bodyScrollHeight, m.bodyOffsetHeight), m.htmlClientHeight), m.htmlScrollHeight),
        m.htmlOffsetHeight)
  }

  /** A device pixel ratio as the browser reports it. */
  type Ratio = r: real | r >= 0.0

  /** `window.devicePixelRatio || 1` */
  function EffectiveDpr(reported: Option<Ratio>): (dpr: real)
    ensures dpr > 0.0
    ensures reported.Some? && reported.value > 0.0 ==> dpr == reported.value
    ensures reported.None? || reported.value == 0.0 ==> dpr == 1.0
  {
    if reported.Some? && reported.value != 0.0 then reported.value else 1.0
  }

  /** `Math.ceil(totalHeight / viewportHeight)`: the fewest viewports that cover the page. */
  function StepCount(totalHeight: nat, viewportHeight: nat): (steps: nat)
    requires viewportHeight > 0
    ensures totalHeight <= steps * viewportHeight
    ensures steps == 0 || (steps - 1) * viewportHeight < totalHeight
    ensures steps == 0 <==> totalHeight == 0
  {
    var q := (totalHeight + viewportHeight - 1) / viewportHeight;
    var r := (totalHeight + viewportHeight - 1) % viewportHeight;
    assert totalHeight + viewportHeight - 1 == q * viewportHeight + r;
    assert (q - 1) * viewportHeight == q * viewportHeight - viewportHeight;
    q
  }

  /** The scroll target of step `i`: `i * viewportHeight`. */
  function Target(i: nat, viewportHeight: nat): (y: real)
    ensures 0.0 <= y
  {
    (i * viewportHeight) as real
  }

  /** What the content script does to the page and the runtime, in order. */
  datatype WindowEvent = ScrolledTo(x: real, y: real) | CaptureRequested

  /** The events of the first `k` steps of the capture loop: scroll to the target, then request a capture. */
  function StepEvents(viewportHeight: nat, k: nat): (log: seq<WindowEvent>)
    ensures |log| == 2 * k
  {
    if k == 0 then []
    else StepEvents(viewportHeight, k - 1) + [ScrolledTo(0.0, Target(k - 1, viewportHeight)), CaptureRequested]
  }

  /** Step `i` scrolls to `(0, i * viewportHeight)` and then sends exactly one capture request. */
  lemma {:induction false} StepEventsAt(viewportHeight: nat, k: nat, i: nat)
    requires i < k
    ensures StepEvents(viewportHeight, k)[2 * i] == ScrolledTo(0.0, Target(i, viewportHeight))
    ensures StepEvents(viewportHeight, k)[2 * i + 1] == CaptureRequested
  {
    if i < k - 1 {
      StepEventsAt(viewportHeight, k - 1, i);
    }
  }

  /** The scroll targets start at 0 and strictly increase from step to step. */
  lemma ScrollTargetsIncrease(viewportHeight: nat, k: nat, i: nat, j: nat)
    requires viewportHeight > 0 && i < j < k
    ensures StepEvents(viewportHeight, k)[0] == ScrolledTo(0.0, 0.0)
    ensures StepEvents(viewportHeight, k)[2 * i].ScrolledTo? && StepEvents(viewportHeight, k)[2 * j].ScrolledTo?
    ensures StepEvents(viewportHeight, k)[2 * i].y < StepEvents(viewportHeight, k)[2 * j].y
  {
    StepEventsAt(viewportHeight, k, 0);
    StepEventsAt(viewportHeight, k, i);
    StepEventsAt(viewportHeight, k, j);
    assert i * viewportHeight < j * viewportHeight;
  }

  /** The number of capture requests in a log. */
  function CaptureCount(log: seq<WindowEvent>): nat {
    if log == [] then 0
    else CaptureCount(log[..|log| - 1]) + (if log[|log| - 1] == CaptureRequested then 1 else 0)
  }

  /** `k` steps send exactly `k` capture requests; in particular a page of height 0 sends none. */
  lemma {:induction false} CaptureCountOfSteps(viewportHeight: nat, k: nat)
    ensures CaptureCount(StepEvents(viewportHeight, k)) == k
  {
    if k > 0 {
      var prev := StepEvents(viewportHeight, k - 1);
      var log := StepEvents(viewportHeight, k);
      CaptureCountOfSteps(viewportHeight, k - 1);
      assert log[..|log| - 1] == prev + [ScrolledTo(0.0, Target(k - 1, viewportHeight))];
      assert (prev + [ScrolledTo(0.0, Target(k - 1, viewportHeight))])[..|prev|] == prev;
    }
  }

  /** What `sendMessageAsync` yields: the reply, or a rejection carrying `lastError.message`. */
  datatype CaptureReply = Delivered(response: Response) | ChannelError(message: string)

  /** One entry of `images`: the reply's `dataUrl` and the `scrollY` read after scrolling. */
  datatype ImageEntry = ImageEntry(dataUrl: Option<string>, y: real)

  /** The first step whose capture request is rejected, among the first `n`. */
  function FirstFailure(replies: nat -> CaptureReply, n: nat): (k: Option<nat>)
    ensures k.Some? ==> k.value < n && replies(k.value).ChannelError?
    ensures k.Some? ==> forall i: nat :: i < k.value ==> replies(i).Delivered?
    ensures k.None? ==> forall i: nat :: i < n ==> replies(i).Delivered?
  {
    if n == 0 then None
    else
      match FirstFailure(replies, n - 1)
      case Some(k) => Some(k)
      case None => if replies(n - 1).ChannelError? then Some(n - 1) else None
  }

  /** The entry recorded at step `i`: tagged with where the page settled, not with the target. */
  function ImageAt(settle: (real, real) -> (real, real), replies: nat -> CaptureReply, viewportHeight: nat, i: nat): (entry: ImageEntry)
    ensures entry.dataUrl.Some? ==> replies(i).Delivered?
    ensures replies(i).Delivered? ==> entry.dataUrl == DataUrlOf(replies(i).response)
  {
    var dataUrl := if replies(i).Delivered? then DataUrlOf(replies(i).response) else None;
    ImageEntry(dataUrl, settle(0.0, Target(i, viewportHeight)).1)
  }

  /** The entries of the first `k` steps, one per step, in step order. */
  function Images(settle: (real, real) -> (real, real), replies: nat -> CaptureReply, viewportHeight: nat, k: nat): (images: seq<ImageEntry>)
    ensures |images| == k
    ensures forall i :: 0 <= i < k ==> images[i] == ImageAt(settle, replies, viewportHeight, i)
  {
    seq(k, i requires 0 <= i => ImageAt(settle, replies, viewportHeight, i))
  }

  /** Recording one more step appends its entry. */
  lemma ImagesExtend(settle: (real, real) -> (real, real), replies: nat -> CaptureReply, viewportHeight: nat, i: nat)
    ensures Images(settle, replies, viewportHeight, i + 1) ==
            Images(settle, replies, viewportHeight, i) + [ImageAt(settle, replies, viewportHeight, i)]
  {
    var longer := Images(settle, replies, viewportHeight, i + 1);
    var shorter := Images(settle, replies, viewportHeight, i);
    assert longer[i] == ImageAt(settle, replies, viewportHeight, i);
    assert forall k :: 0 <= k < i ==> longer[k] == shorter[k];
  }

  /** The window the content script runs in. */
  class Window {
    var scrollX: real
    var scrollY: real
    var events: seq<WindowEvent>
    const innerWidth: nat
    const innerHeight: nat
    const devicePixelRatio: Option<Ratio>
    const metrics: PageMetrics
    /** where `scrollTo(x, y)` leaves the page once the wait after it is over */
    const settle: (real, real) -> (real, real)

    constructor (x: real, y: real, width: nat, height: nat, dpr: Option<Ratio>, m: PageMetrics,
                 landing: (real, real) -> (real, real))
      ensures scrollX == x && scrollY == y && events == []
      ensures innerWidth == width && innerHeight == height && devicePixelRatio == dpr
      ensures metrics == m && settle == landing
    {
      scrollX, scrollY, events := x, y, [];
      innerWidth, innerHeight, devicePixelRatio := width, height, dpr;
      metrics, settle := m, landing;
    }

    /** `window.scrollTo(x, y)` followed by the fixed wait */
    method ScrollTo(x: real, y: real)
      modifies this
      ensures events == old(events) + [ScrolledTo(x, y)]
      ensures (scrollX, scrollY) == settle(x, y)
    {
      events := events + [ScrolledTo(x, y)];
      scrollX, scrollY := settle(x, y).0, settle(x, y).1;
    }

    /** `sendMessageAsync({ action: 'capture-screenshot' })`; the reply comes from the oracle */
    method RequestCapture()
      modifies this
      ensures events == old(events) + [CaptureRequested]
      ensures scrollX == old(scrollX) && scrollY == old(scrollY)
    {
      events := events + [CaptureRequested];
    }
  }

  /**
   * The first loop of `captureFullPage`: for each of `steps` steps scroll to
   * the target, read `scrollY`, request a capture and record one entry. A
   * rejected request aborts the loop at once, leaving the page where it is.
   */
  method CollectImages(w: Window, replies: nat -> CaptureReply, steps: nat)
    returns (images: seq<ImageEntry>, failed: Option<nat>)
    modifies w
    ensures failed == FirstFailure(replies, steps)
    ensures var done := if failed.Some? then failed.value + 1 else steps;
            && w.events == old(w.events) + StepEvents(w.innerHeight, done)
            && (done == 0 ==> w.scrollX == old(w.scrollX) && w.scrollY == old(w.scrollY))
            && (done > 0 ==> (w.scrollX, w.scrollY) == w.settle(0.0, Target(done - 1, w.innerHeight)))
    ensures failed.None? ==> images == Images(w.settle, replies, w.innerHeight, steps)
  {
    images, failed := [], None;
    var i := 0;
    while i < steps
      invariant 0 <= i <= steps
      invariant FirstFailure(replies, i) == None
      invariant images == Images(w.settle, replies, w.innerHeight, i)
      invariant w.events == old(w.events) + StepEvents(w.innerHeight, i)
      invariant i == 0 ==> w.scrollX == old(w.scrollX) && w.scrollY == old(w.scrollY)
      invariant i > 0 ==> (w.scrollX, w.scrollY) == w.settle(0.0, Target(i - 1, w.innerHeight))
    {
      ghost var before := w.events;
      var entry := TakeStep(w, replies, i);
      StepEventsExtend(old(w.events), before, w.events, w.innerHeight, i);
      if entry.None? {
        FirstFailureIsFirstRejection(replies, steps, i);
        failed := Some(i);
        return;
      }
      assert FirstFailure(replies, i + 1) == None;
      ImagesExtend(w.settle, replies, w.innerHeight, i);
      images := images + [entry.value];
      i := i + 1;
    }
  }

  /** A step's two events extend the log of the steps before it. */
  lemma StepEventsExtend(start: seq<WindowEvent>, before: seq<WindowEvent>, after: seq<WindowEvent>, viewportHeight: nat, i: nat)
    requires before == start + StepEvents(viewportHeight, i)
    requires after == before + [ScrolledTo(0.0, Target(i, viewportHeight)), CaptureRequested]
    ensures after == start + StepEvents(viewportHeight, i + 1)
  {
  }

  /**
   * One pass of the capture loop: scroll to the step's target, read `scrollY`
   * once the page has settled, and request a capture. A rejected request
   * yields no entry.
   */
  method TakeStep(w: Window, replies: nat -> CaptureReply, i: nat) returns (entry: Option<ImageEntry>)
    modifies w
    ensures w.events == old(w.events) + [ScrolledTo(0.0, Target(i, w.innerHeight)), CaptureRequested]
    ensures (w.scrollX, w.scrollY) == w.settle(0.0, Target(i, w.innerHeight))
    ensures entry.None? <==> replies(i).ChannelError?
    ensures entry.Some? ==> entry.value == ImageAt(w.settle, replies, w.innerHeight, i)
  {
    var targetY := Target(i, w.innerHeight);
    w.ScrollTo(0.0, targetY);
    var actualY := w.scrollY;
    w.RequestCapture();
    var reply := replies(i);
    if reply.ChannelError? {
      return None;
    }
    entry := Some(ImageEntry(DataUrlOf(reply.response), actualY));
  }

  /** The source and destination rectangle of one `drawImage` call (x offsets are 0). */
  datatype DrawCall = DrawCall(sourceWidth: int, drawHeight: int, destY: int)

  /** `Math.floor(viewportWidth * dpr)` */
  function CanvasWidth(viewportWidth: nat, dpr: real): (w: int)
    ensures dpr >= 0.0 ==> 0 <= w
  {
    (viewportWidth as real * dpr).Floor
  }

  /** `Math.floor(totalHeight * dpr)` */
  function CanvasHeight(totalHeight: nat, dpr: real): (h: int)
    ensures dpr >= 0.0 ==> 0 <= h
  {
    (totalHeight as real * dpr).Floor
  }

  /** `Math.min(viewportHeight, totalHeight - y)` */
  function VisibleHeight(viewportHeight: nat, totalHeight: nat, y: real): (v: real)
    ensures v <= viewportHeight as real && v <= totalHeight as real - y
    ensures v == viewportHeight as real || v == totalHeight as real - y
  {
    if viewportHeight as real <= totalHeight as real - y then viewportHeight as real else totalHeight as real - y
  }

  /** Scaling by a non-negative ratio keeps the order, and so does flooring. */
  lemma ScaleMonotone(a: real, b: real, dpr: real)
    ensures a <= b && dpr >= 0.0 ==> a * dpr <= b * dpr && (a * dpr).Floor <= (b * dpr).Floor
  {
    if a <= b && dpr >= 0.0 {
      assert b * dpr - a * dpr == (b - a) * dpr;
    }
  }

  /** The strip drawn for an entry taken at scroll offset `y`. */
  function Strip(viewportWidth: nat, viewportHeight: nat, totalHeight: nat, dpr: real, y: real): (d: DrawCall)
    ensures d.sourceWidth == CanvasWidth(viewportWidth, dpr)
  {
    DrawCall(CanvasWidth(viewportWidth, dpr),
             (VisibleHeight(viewportHeight, totalHeight, y) * dpr).Floor,
             (y * dpr).Floor)
  }

  /** No strip is taller than one scaled viewport. */
  lemma StripAtMostOneViewport(viewportWidth: nat, viewportHeight: nat, totalHeight: nat, dpr: real, y: real)
    requires dpr >= 0.0
    ensures Strip(viewportWidth, viewportHeight, totalHeight, dpr, y).drawHeight <= (viewportHeight as real * dpr).Floor
  {
    ScaleMonotone(VisibleHeight(viewportHeight, totalHeight, y), viewportHeight as real, dpr);
  }

  /** A strip taken inside the page lies inside the canvas: it starts at or below the top and ends at or above the bottom. */
  lemma StripInsideCanvas(viewportWidth: nat, viewportHeight: nat, totalHeight: nat, dpr: real, y: real)
    requires dpr > 0.0 && 0.0 <= y <= totalHeight as real
    ensures var s := Strip(viewportWidth, viewportHeight, totalHeight, dpr, y);
            && s.sourceWidth == CanvasWidth(viewportWidth, dpr)
            && 0 <= s.destY && 0 <= s.drawHeight
            && s.destY + s.drawHeight <= CanvasHeight(totalHeight, dpr)
  {
    var v := VisibleHeight(viewportHeight, totalHeight, y);
    var top, height := y * dpr, v * dpr;
    assert 0.0 <= v <= totalHeight as real - y;
    assert 0.0 <= top && 0.0 <= height by {
      assert 0.0 <= y * dpr;
      assert 0.0 <= v * dpr;
    }
    assert top + height <= totalHeight as real * dpr by {
      assert v * dpr <= (totalHeight as real - y) * dpr;
    }
    assert top.Floor as real + height.Floor as real <= top + height;
  }

  /** The draw calls of the second loop, one per entry, in entry order. */
  function Draws(images: seq<ImageEntry>, viewportWidth: nat, viewportHeight: nat, totalHeight: nat, dpr: real): (draws: seq<DrawCall>)
    ensures |draws| == |images|
    ensures forall i :: 0 <= i < |images| ==>
              draws[i] == Strip(viewportWidth, viewportHeight, totalHeight, dpr, images[i].y)
  {
    seq(|images|, i requires 0 <= i < |images| => Strip(viewportWidth, viewportHeight, totalHeight, dpr, images[i].y))
  }

  /** The canvas `captureFullPage` creates and draws into. */
  class Canvas {
    var width: int
    var height: int
    var draws: seq<DrawCall>

    constructor (w: int, h: int)
      ensures width == w && height == h && draws == []
    {
      width, height, draws := w, h, [];
    }

    /** `ctx.drawImage(img, 0, 0, sw, dh, 0, dy, sw, dh)` */
    method DrawImage(d: DrawCall)
      modifies this
      ensures draws == old(draws) + [d]
      ensures width == old(width) && height == old(height)
    {
      draws := draws + [d];
    }
  }

  /**
   * The first entry, among the first `n`, without a data URL: `loadImage`
   * rejects on it, since its `src` becomes the string "undefined".
   */
  function FirstMissing(images: seq<ImageEntry>, n: nat): (k: Option<nat>)
    requires n <= |images|
    ensures k.Some? ==> k.value < n && images[k.value].dataUrl.None?
    ensures k.Some? ==> forall i :: 0 <= i < k.value ==> images[i].dataUrl.Some?
    ensures k.None? ==> forall i :: 0 <= i < n ==> images[i].dataUrl.Some?
  {
    if n == 0 then None
    else
      match FirstMissing(images, n - 1)
      case Some(k) => Some(k)
      case None => if images[n - 1].dataUrl.None? then Some(n - 1) else None
  }

  /** An entry without a data URL, with every earlier one holding one, is the first missing entry. */
  lemma FirstMissingIsFirstGap(images: seq<ImageEntry>, n: nat, k: nat)
    requires k < n <= |images| && images[k].dataUrl.None?
    requires FirstMissing(images, k) == None
    ensures FirstMissing(images, n) == Some(k)
  {
  }

  /** Drawing one more entry appends its strip. */
  lemma DrawsExtend(images: seq<ImageEntry>, i: nat, viewportWidth: nat, viewportHeight: nat, totalHeight: nat, dpr: real)
    requires i < |images|
    ensures Draws(images[..i + 1], viewportWidth, viewportHeight, totalHeight, dpr) ==
            Draws(images[..i], viewportWidth, viewportHeight, totalHeight, dpr) +
            [Strip(viewportWidth, viewportHeight, totalHeight, dpr, images[i].y)]
  {
    var longer := Draws(images[..i + 1], viewportWidth, viewportHeight, totalHeight, dpr);
    var shorter := Draws(images[..i], viewportWidth, viewportHeight, totalHeight, dpr);
    assert forall k :: 0 <= k < i ==> longer[k] == shorter[k];
  }

  /**
   * The second half of `captureFullPage`: size the canvas, then load and draw
   * every entry as one strip, in order. The first entry without a data URL
   * fails to load, which stops the loop before that entry is drawn.
   */
  method Composite(images: seq<ImageEntry>, viewportWidth: nat, viewportHeight: nat, totalHeight: nat, dpr: real)
    returns (canvas: Canvas, missing: Option<nat>)
    ensures fresh(canvas)
    ensures missing == FirstMissing(images, |images|)
    ensures canvas.width == CanvasWidth(viewportWidth, dpr)
    ensures canvas.height == CanvasHeight(totalHeight, dpr)
    ensures var drawn := if missing.Some? then missing.value else |images|;
            canvas.draws == Draws(images[..drawn], viewportWidth, viewportHeight, totalHeight, dpr)
  {
    canvas := new Canvas(CanvasWidth(viewportWidth, dpr), CanvasHeight(totalHeight, dpr));
    missing := None;
    var i := 0;
    while i < |images|
      invariant 0 <= i <= |images|
      invariant FirstMissing(images, i) == None
      invariant canvas.width == CanvasWidth(viewportWidth, dpr)
      invariant canvas.height == CanvasHeight(totalHeight, dpr)
      invariant canvas.draws == Draws(images[..i], viewportWidth, viewportHeight, totalHeight, dpr)
    {
      if images[i].dataUrl.None? {
        FirstMissingIsFirstGap(images, |images|, i);
        missing := Some(i);
        return;
      }
      DrawEntry(canvas, images, i, viewportWidth, viewportHeight, totalHeight, dpr);
      i := i + 1;
    }
  }

  /** One pass of the drawing loop: the strip of entry `i`, clipped to the page and scaled, drawn at its offset. */
  method DrawEntry(canvas: Canvas, images: seq<ImageEntry>, i: nat, viewportWidth: nat, viewportHeight: nat, totalHeight: nat, dpr: real)
    requires i < |images|
    requires canvas.draws == Draws(images[..i], viewportWidth, viewportHeight, totalHeight, dpr)
    modifies canvas
    ensures canvas.draws == Draws(images[..i + 1], viewportWidth, viewportHeight, totalHeight, dpr)
    ensures canvas.width == old(canvas.width) && canvas.height == old(canvas.height)
  {
    var y := images[i].y;
    var visibleHeight := VisibleHeight(viewportHeight, totalHeight, y);
    var sourceWidth := (viewportWidth as real * dpr).Floor;
    var drawHeight := (visibleHeight * dpr).Floor;
    var destY := (y * dpr).Floor;
    var strip := DrawCall(sourceWidth, drawHeight, destY);
    assert strip == Strip(viewportWidth, viewportHeight, totalHeight, dpr, images[i].y);
    DrawsExtend(images, i, viewportWidth, viewportHeight, totalHeight, dpr);
    canvas.DrawImage(strip);
  }

  /** What `captureFullPage` resolves to, or the message it rejects with. */
  datatype CaptureOutcome =
    | Composited(dataUrl: string, width: int, height: int, images: seq<ImageEntry>, draws: seq<DrawCall>)
    | Aborted(error: string)

  /** `String(err?.message)` for the error event of an image that fails to load. */
  const MISSING_STRIP_ERROR := "undefined"

  /**
   * What `captureFullPage` ends with, from the page and the browser's
   * answers: a rejected capture request aborts with its message; otherwise
   * an entry without a data URL aborts with "undefined"; otherwise the
   * canvas is composited from every step's entry. `png` is what
   * `canvas.toDataURL('image/png')` gives.
   */
  function ExpectedOutcome(metrics: PageMetrics, innerWidth: nat, innerHeight: nat, reportedDpr: Option<Ratio>,
                           settle: (real, real) -> (real, real), replies: nat -> CaptureReply, png: string): CaptureOutcome
    requires innerHeight > 0
  {
    var total := TotalPageHeight(metrics);
    var steps := StepCount(total, innerHeight);
    match FirstFailure(replies, steps)
    case Some(k) => Aborted(replies(k).message)
    case None =>
      var images := Images(settle, replies, innerHeight, steps);
      if FirstMissing(images, steps).Some? then
        Aborted(MISSING_STRIP_ERROR)
      else
        var dpr := EffectiveDpr(reportedDpr);
        Composited(png, CanvasWidth(innerWidth, dpr), CanvasHeight(total, dpr), images, Draws(images, innerWidth, innerHeight, total, dpr))
  }

  /**
   * The window log of `captureFullPage`: the steps taken, up to and
   * including a rejected one; when none is rejected, every step followed by
   * the scroll back to where the page was.
   */
  function ExpectedEvents(metrics: PageMetrics, innerHeight: nat, replies: nat -> CaptureReply, x: real, y: real): seq<WindowEvent>
    requires innerHeight > 0
  {
    var steps := StepCount(TotalPageHeight(metrics), innerHeight);
    match FirstFailure(replies, steps)
    case Some(k) => StepEvents(innerHeight, k + 1)
    case None => StepEvents(innerHeight, steps) + [ScrolledTo(x, y)]
  }

  /**
   * Where `captureFullPage` leaves the page: where the last scroll settled
   * after a rejected step, and otherwise where the scroll back to `(x, y)`
   * settles, even when a strip then fails to load.
   */
  function ExpectedPosition(metrics: PageMetrics, innerHeight: nat, settle: (real, real) -> (real, real),
                            replies: nat -> CaptureReply, x: real, y: real): (real, real)
    requires innerHeight > 0
  {
    var steps := StepCount(TotalPageHeight(metrics), innerHeight);
    match FirstFailure(replies, steps)
    case Some(k) => settle(0.0, Target(k, innerHeight))
    case None => settle(x, y)
  }

  /** A rejected request with every earlier one delivered is the first failure. */
  lemma FirstFailureIsFirstRejection(replies: nat -> CaptureReply, n: nat, k: nat)
    requires k < n && replies(k).ChannelError?
    requires forall i: nat :: i < k ==> replies(i).Delivered?
    ensures FirstFailure(replies, n) == Some(k)
  {
  }

  /**
   * The capture composites exactly when every step's request is delivered
   * with a data URL; the canvas is then the floored page size at the device
   * pixel ratio, holding one strip per step.
   */
  lemma CaptureSucceedsIffEveryStripArrives(metrics: PageMetrics, innerWidth: nat, innerHeight: nat, reportedDpr: Option<Ratio>,
                                            settle: (real, real) -> (real, real), replies: nat -> CaptureReply, png: string)
    requires innerHeight > 0
    ensures var total := TotalPageHeight(metrics);
            var steps := StepCount(total, innerHeight);
            var outcome := ExpectedOutcome(metrics, innerWidth, innerHeight, reportedDpr, settle, replies, png);
            && (outcome.Composited? <==> forall i: nat :: i < steps ==> replies(i).Delivered? && DataUrlOf(replies(i).response).Some?)
            && (outcome.Composited? ==>
                  && outcome.dataUrl == png
                  && outcome.width == CanvasWidth(innerWidth, EffectiveDpr(reportedDpr))
                  && outcome.height == CanvasHeight(total, EffectiveDpr(reportedDpr))
                  && |outcome.images| == |outcome.draws| == steps)
  {
    var total := TotalPageHeight(metrics);
    var steps := StepCount(total, innerHeight);
    var images := Images(settle, replies, innerHeight, steps);
    if forall i: nat :: i < steps ==> replies(i).Delivered? && DataUrlOf(replies(i).response).Some? {
      assert FirstFailure(replies, steps).None?;
      assert forall i :: 0 <= i < steps ==> images[i].dataUrl.Some?;
      assert FirstMissing(images, steps).None?;
    } else {
      var i: nat :| i < steps && !(replies(i).Delivered? && DataUrlOf(replies(i).response).Some?);
      if FirstFailure(replies, steps).None? {
        assert replies(i).Delivered?;
        assert images[i].dataUrl.None?;
      }
    }
  }

  /** The listener's log holds one capture request per step taken: up to the rejected one, or every step. */
  lemma CaptureRequestsTaken(metrics: PageMetrics, innerHeight: nat, replies: nat -> CaptureReply, x: real, y: real)
    requires innerHeight > 0
    ensures var steps := StepCount(TotalPageHeight(metrics), innerHeight);
            var failed := FirstFailure(replies, steps);
            CaptureCount(ExpectedEvents(metrics, innerHeight, replies, x, y)) == if failed.Some? then failed.value + 1 else steps
  {
    var steps := StepCount(TotalPageHeight(metrics), innerHeight);
    var log := ExpectedEvents(metrics, innerHeight, replies, x, y);
    match FirstFailure(replies, steps)
    case Some(k) =>
      CaptureCountOfSteps(innerHeight, k + 1);
    case None =>
      CaptureCountOfSteps(innerHeight, steps);
      assert log[..|log| - 1] == StepEvents(innerHeight, steps);
  }

  /**
   * `captureFullPage`. On success the scroll position is restored before
   * compositing; a rejected capture request aborts with no restore; an entry
   * without a data URL aborts while compositing, after the restore.
   */
  method CaptureFullPage(w: Window, replies: nat -> CaptureReply, png: string) returns (outcome: CaptureOutcome)
    requires w.innerHeight > 0
    modifies w
    ensures outcome == ExpectedOutcome(w.metrics, w.innerWidth, w.innerHeight, w.devicePixelRatio, w.settle, replies, png)
    ensures w.events == old(w.events) + ExpectedEvents(w.metrics, w.innerHeight, replies, old(w.scrollX), old(w.scrollY))
    ensures (w.scrollX, w.scrollY) == ExpectedPosition(w.metrics, w.innerHeight, w.settle, replies, old(w.scrollX), old(w.scrollY))
  {
    var originalX, originalY := w.scrollX, w.scrollY;
    var dpr := EffectiveDpr(w.devicePixelRatio);
    var viewportWidth, viewportHeight := w.innerWidth, w.innerHeight;
    var totalHeight := TotalPageHeight(w.metrics);
    var steps := StepCount(totalHeight, viewportHeight);
    var images, failed := CollectImages(w, replies, steps);
    if failed.Some? {
      outcome := Aborted(replies(failed.value).message);
      return;
    }
    w.ScrollTo(originalX, originalY);
    var canvas, missing := Composite(images, viewportWidth, viewportHeight, totalHeight, dpr);
    if missing.Some? {
      outcome := Aborted(MISSING_STRIP_ERROR);
      return;
    }
    assert images[..|images|] == images;
    outcome := Composited(png, canvas.width, canvas.height, images, canvas.draws);
  }

  /** The reply the FULLPAGE_START listener sends for an outcome. */
  function FullPageReply(outcome: CaptureOutcome): (resp: Response)
    ensures resp.Status? && resp.success == outcome.Composited?
    ensures outcome.Composited? ==> resp.dataUrl == Some(outcome.dataUrl) &&
                                    resp.width == Some(outcome.width) && resp.height == Some(outcome.height)
    ensures outcome.Aborted? ==> resp == Failure(outcome.error)
  {
    match outcome
    case Composited(dataUrl, width, height, _, _) => Status(true, Some(dataUrl), None, Some(width), Some(height))
    case Aborted(error) => Failure(error)
  }

  /**
   * The content script's message listener: a FULLPAGE_START request runs a
   * capture, replies with its outcome and keeps the channel open; anything
   * else is ignored, whatever the viewport.
   */
  method OnMessage(w: Window, request: Option<Request>, replies: nat -> CaptureReply, png: string)
    returns (reply: Option<Response>, keepOpen: bool)
    requires request.Some? && request.value.action == FULLPAGE_START ==> w.innerHeight > 0
    modifies w
    ensures keepOpen <==> request.Some? && request.value.action == FULLPAGE_START
    ensures reply.Some? <==> keepOpen
    ensures !keepOpen ==> w.events == old(w.events) && w.scrollX == old(w.scrollX) && w.scrollY == old(w.scrollY)
    ensures keepOpen ==>
              && reply == Some(FullPageReply(ExpectedOutcome(w.metrics, w.innerWidth, w.innerHeight, w.devicePixelRatio,
                                                              w.settle, replies, png)))
              && w.events == old(w.events) + ExpectedEvents(w.metrics, w.innerHeight, replies, old(w.scrollX), old(w.scrollY))
              && (w.scrollX, w.scrollY) == ExpectedPosition(w.metrics, w.innerHeight, w.settle, replies, old(w.scrollX), old(w.scrollY))
  {
    if request.Some? && request.value.action == FULLPAGE_START {
      var outcome := CaptureFullPage(w, replies, png);
      reply, keepOpen := Some(FullPageReply(outcome)), true;
    } else {
      reply, keepOpen := None, false;
    }
  }

  /**
   * A page 2000 pixels high in an 800-pixel viewport, where the scroll lands
   * on every target: three steps at 0, 800 and 1600, the last one 400 pixels
   * high; and at ratio 2 a 1000 by 1500 page gives a 2000 by 3000 canvas.
   */
  lemma ThreeStepScenario(replies: nat -> CaptureReply)
    ensures StepCount(2000, 800) == 3
    ensures StepEvents(800, 3) == [ScrolledTo(0.0, 0.0), CaptureRequested, ScrolledTo(0.0, 800.0), CaptureRequested,
                                   ScrolledTo(0.0, 1600.0), CaptureRequested]
    ensures var images := Images((x: real, y: real) => (x, y), replies, 800, 3);
            images[0].y == 0.0 && images[1].y == 800.0 && images[2].y == 1600.0
    ensures VisibleHeight(800, 2000, 1600.0) == 400.0
    ensures CanvasWidth(1000, 2.0) == 2000 && CanvasHeight(1500, 2.0) == 3000
  {
    assert StepEvents(800, 1) == [ScrolledTo(0.0, 0.0), CaptureRequested];
    assert StepEvents(800, 2) == StepEvents(800, 1) + [ScrolledTo(0.0, 800.0), CaptureRequested];
  }
}
