# Dev dashboard new-tab extension, modelled in Dafny

This project models the logic of a Chrome new-tab extension. Its parts:

- **Full-page screenshot** (`fullpage.dfy`). The content script scrolls the page one viewport at a time and asks the background worker for a capture at each step. It then restores the scroll position and draws the strips into one canvas, scaled by the device pixel ratio.
- **Background routing** (`background.dfy`). The service worker answers `capture-screenshot` with a visible-tab capture. For `capture-fullpage` it checks the active tab and hands the job to the page's script.
- **Per-site customizer** (`customize.dfy`, `popup.dfy`). The popup edits one origin's rules in `chrome.storage.sync`: enabled flag, CSS, and selectors, classes and ids to hide. The content script turns those rules into one `<style>` element.
- **Local-server detector** (`ports.dfy`). It probes a fixed list of localhost ports in batches of 15 and shows the ones that answer, sorted. It also remembers the last 10 active ports.
- **Quick-link editor and settings panel** (`quicklinks.dfy`, `settings.dfy`).

Shared definitions:

- `wrappers.dfy`: `Option` and `Result`.
- `text.dfy`: JavaScript `trim`, `split` on one character, `join`, and the `map(trim).filter(Boolean)` idiom.
- `browser.dfy`: the message, tab and stored-rule records, and the browser state the popup changes.
- `flows.dfy`: properties that span two components.

Component state that the source updates in place is a class with `modifies` clauses:

- the window and canvas of the full-page capture;
- the document's style element;
- the popup's form;
- the port list;
- the quick-link editor.

Pure decisions are functions:

- background routing;
- CSS building;
- parsing;
- de-duplication;
- settings toggles.

The browser is modelled as inputs:

- where `scrollTo` settles;
- what each capture request yields;
- what `captureVisibleTab` returns;
- whether a port answers;
- what `new URL(url).origin` and `CSS.escape` return.

The model does what the code does, and the code:

- does not poll for the scroll to settle: it waits a fixed 300 ms after each scroll;
- raises no error for a page of height 0: that page takes zero steps and gives an empty canvas;
- does not restore the scroll position when a step fails;
- puts no step index in the failure message.

A capture reply that arrives without a `dataUrl` (for example `{ success: false, error }` from the background worker) is not a failure of the loop: the entry is recorded without a data URL. Its `loadImage` then rejects while compositing, after the scroll restore, and the listener replies with the error "undefined".

## Model

| member | source | states |
|---|---|---|
| Text.Trim | src/content_customize.ts:21 | the result has no whitespace at either end, and a string already trimmed is unchanged |
| Text.CleanEntries | src/content_customize.ts:21 | trimming every entry and dropping empty ones gives a list of non-empty trimmed entries, no longer than the input |
| Text.CleanEntriesOfClean | src/content_customize.ts:21 | cleaning a clean list changes nothing, so cleaning is idempotent |
| Text.Join | src/popup.tsx:81-83 | `join(', ')` of no entries is empty, and a join is at least as long as its first entry |
| Text.JoinLength | src/popup.tsx:81-83 | a join holds every entry's characters plus exactly one separator between each two entries |
| Text.CleanEntriesAppend | src/popup.tsx:100-111 | cleaning distributes over concatenation |
| Text.Split | src/popup.tsx:100-101 | `split(',')` gives at least one part and no part contains a comma |
| Text.JoinSplit | src/popup.tsx:100-101 | joining the parts of a split with the separator gives back the original string |
| Browser.RulesFor | src/content_customize.ts:55-56 | an origin's entry is present exactly when the table exists and holds the origin, and then it is that entry |
| Browser.HasTruthyId | src/popup.tsx:115 | a truthy `tab?.id` needs a tab with an id, and an id of 0 is not truthy |
| Browser.Chrome.SetCustomRules | src/popup.tsx:114 | the stored table becomes the given one and one storage write is recorded |
| Browser.Chrome.SendToTab | src/popup.tsx:116 | one tab message is recorded and storage is unchanged |
| FullPage.TotalPageHeight | src/content_fullpage.ts:27-37 | the page height is at least each of the five metrics and equal to one of them |
| FullPage.EffectiveDpr | src/content_fullpage.ts:42 | the ratio is positive: the reported one when non-zero, 1 when it is missing or 0 |
| FullPage.StepCount | src/content_fullpage.ts:47 | the step count is the ceiling of height over viewport: the fewest viewports that cover the page, and 0 exactly for an empty page |
| FullPage.Target | src/content_fullpage.ts:51 | a scroll target is never negative |
| FullPage.StepEvents | src/content_fullpage.ts:50-57 | k steps produce 2k window events |
| FullPage.StepEventsAt | src/content_fullpage.ts:50-55 | step i scrolls to (0, i × viewportHeight) and then sends exactly one capture request |
| FullPage.ScrollTargetsIncrease | src/content_fullpage.ts:51-52 | the first target is (0, 0) and the targets strictly increase from step to step |
| FullPage.CaptureCountOfSteps | src/content_fullpage.ts:50-57 | k steps send exactly k capture requests |
| FullPage.FirstFailure | src/content_fullpage.ts:6-16 | it finds the first rejected capture request: every earlier one was delivered, and with none rejected every request was delivered |
| FullPage.ImageAt | src/content_fullpage.ts:54-56 | an entry has a data URL only when its request was delivered, and then it is the reply's `dataUrl` |
| FullPage.Images | src/content_fullpage.ts:54-56 | one entry per step, in step order, each tagged with where the page settled rather than the target |
| FullPage.Window.ScrollTo | src/content_fullpage.ts:52-53 | the scroll is logged and the position becomes where the page settles for that target |
| FullPage.Window.RequestCapture | src/content_fullpage.ts:55 | one capture request is logged and the scroll position is unchanged |
| FullPage.TakeStep | src/content_fullpage.ts:51-56 | one step logs a scroll to the step's target and one capture request, leaves the page where that scroll settles, and yields the step's entry exactly when the request is not rejected |
| FullPage.CollectImages | src/content_fullpage.ts:50-57 | the loop stops at the first rejected request and otherwise records every step's entry; the window log is exactly the steps taken, and the page is left where the last scroll settled |
| FullPage.CanvasWidth | src/content_fullpage.ts:61 | the canvas width is never negative for a non-negative ratio |
| FullPage.CanvasHeight | src/content_fullpage.ts:62 | the canvas height is never negative for a non-negative ratio |
| FullPage.VisibleHeight | src/content_fullpage.ts:70 | the visible height is the smaller of the viewport height and the rest of the page |
| FullPage.Strip | src/content_fullpage.ts:70-74 | every strip is as wide as the canvas |
| FullPage.StripAtMostOneViewport | src/content_fullpage.ts:70-74 | no strip is taller than one viewport scaled by the ratio |
| FullPage.StripInsideCanvas | src/content_fullpage.ts:61-74 | a strip taken inside the page has the canvas width and lies inside the canvas, even after flooring |
| FullPage.Draws | src/content_fullpage.ts:68-75 | one draw per entry, in entry order, each the strip for that entry's offset |
| FullPage.Canvas.DrawImage | src/content_fullpage.ts:74 | one draw call is appended and the canvas size is unchanged |
| FullPage.FirstMissing | src/content_fullpage.ts:68-69 | it finds the first entry without a data URL, the one whose image fails to load: every earlier entry has one, and with none found every entry has one |
| FullPage.DrawEntry | src/content_fullpage.ts:69-74 | one pass of the drawing loop appends that entry's strip and keeps the canvas size |
| FullPage.Composite | src/content_fullpage.ts:61-75 | the canvas is floor(width × dpr) by floor(height × dpr); it receives the strips of the entries in order up to the first entry without a data URL, which is reported and stops the loop |
| FullPage.CaptureFullPage | src/content_fullpage.ts:39-79 | the outcome, the window log and the final scroll position are those of `ExpectedOutcome`, `ExpectedEvents` and `ExpectedPosition`: a rejected step aborts with its message after exactly the steps up to it, with no scroll restore; otherwise the original position is scrolled back to, an entry without a data URL aborts with "undefined", and else the canvas size and draws are as composited |
| FullPage.FirstFailureIsFirstRejection | src/content_fullpage.ts:50-57 | a rejected request with every earlier one delivered is the one the loop stops at |
| FullPage.CaptureSucceedsIffEveryStripArrives | src/content_fullpage.ts:39-78 | a capture composites exactly when every step's request is delivered with a data URL; the result then carries the PNG, the floored canvas size, and one entry and one strip per step |
| FullPage.CaptureRequestsTaken | src/content_fullpage.ts:50-57 | the capture sends one request per step taken: up to and including the rejected one, or every step |
| FullPage.FullPageReply | src/content_fullpage.ts:84-89 | success exactly for a composited outcome, carrying its data URL and size; an abort replies with its message |
| FullPage.OnMessage | src/content_fullpage.ts:81-93 | FULLPAGE_START runs a capture, replies with `FullPageReply` of `ExpectedOutcome`, leaves the window log and position as a capture does, and keeps the channel open; any other message gets no reply and leaves the window untouched, whatever the viewport |
| FullPage.ThreeStepScenario | src/content_fullpage.ts:47-73 | 2000 px in an 800 px viewport takes 3 steps at 0, 800 and 1600, the last 400 px visible; at ratio 2 a 1000 × 1500 page gives a 2000 × 3000 canvas |
| Customize.HideRule | src/content_customize.ts:22-23 | no CSS exactly for an empty selector list |
| Customize.Escaped | src/content_customize.ts:29 | one prefixed, escaped selector per name |
| Customize.BuildHideCssFromSelectors | src/content_customize.ts:20-24 | no CSS exactly when no selector is left after trimming and dropping blanks |
| Customize.BuildHideCssFromClasses | src/content_customize.ts:26-31 | no CSS exactly when no class name is left after trimming and dropping blanks |
| Customize.BuildHideCssFromIds | src/content_customize.ts:33-38 | no CSS exactly when no id is left after trimming and dropping blanks |
| Customize.BuildersIgnorePaddingAndBlanks | src/content_customize.ts:20-38 | each builder gives the same CSS for a list and its cleaned form, and uses a clean list as it is |
| Customize.MissingListsGiveNoRule | src/content_customize.ts:20-38 | an absent or empty list gives no CSS |
| Customize.Applies | src/content_customize.ts:41 | applied rules are present with a truthy flag, and a truthy flag other than `true` is not applied |
| Customize.StyleText | src/content_customize.ts:46-50 | the style text ends with the user CSS, after the hiding rules |
| Customize.Document.EnsureStyleElement | src/content_customize.ts:4-13 | the existing element is kept with its text; otherwise a new empty element is added |
| Customize.Document.ClearCustomization | src/content_customize.ts:15-18 | afterwards there is no style element, whether or not there was one |
| Customize.Document.ApplyRules | src/content_customize.ts:40-51 | rules that are missing or whose `enabled` is not exactly `true` remove the element; enabled rules leave exactly one element, the old one if any, holding the hiding rules followed by the user CSS |
| Customize.ApplyTwice | src/content_customize.ts:40-51 | applying the same rules twice has the effect of applying them once |
| Customize.ApplyStoredRules | src/content_customize.ts:53-58 | at load the page shows exactly the stored rules of its own origin |
| Customize.OnMessage | src/content_customize.ts:60-66 | only CUSTOM_RULES_APPLY is handled: it applies its rules, replies `{ ok: true }` and keeps the channel open; other messages change nothing |
| Popup.OriginFromUrl | src/popup.tsx:49-57 | a missing or empty URL has no origin; otherwise the URL parser's answer |
| Popup.UsableOrigin | src/popup.tsx:92-94 | an origin is used only when the tab has a URL and the parser gives a non-empty origin for it; no tab, no URL or an empty URL gives none |
| Popup.ParseList | src/popup.tsx:100-103 | a parsed field is a list of non-empty, trimmed names, no more of them than the field has comma-separated parts |
| Popup.ParseListCommaFree | src/popup.tsx:100-103 | no parsed name contains a comma |
| Popup.ParseIgnoresLeadingSpace | src/popup.tsx:100-103 | a leading space makes no difference to the parse |
| Popup.ParseJoinRoundTrip | src/popup.tsx:79-112 | showing a clean list joined with ", " and parsing it back gives the same list |
| Popup.LoadedForm | src/popup.tsx:79-83 | the checkbox is ticked exactly when the stored flag is truthy |
| Popup.RulesToShow | src/popup.tsx:71-78 | the origin's stored entry when the table holds it; otherwise the disabled, empty defaults |
| Popup.MissingEntryShowsBlankForm | src/popup.tsx:72-78 | an origin without an entry shows an unticked, empty form |
| Popup.SavedRules | src/popup.tsx:97-112 | the saved entry has a boolean flag equal to the checkbox, the CSS as typed, and three clean lists |
| Popup.SavedRulesAreSavedForm | src/popup.tsx:97-112 | every saved entry has a boolean flag, a CSS string and three clean, comma-free lists |
| Popup.UpdateRules | src/popup.tsx:113 | the origin's entry is replaced and every other origin's entry is kept |
| Popup.LoadThenSave | src/popup.tsx:79-112 | loading an entry the popup saved and saving it again stores the same entry |
| Popup.SaveThenLoad | src/popup.tsx:79-112 | saving and reloading keeps the checkbox and CSS, normalises each list field, and saving again stores the same entry |
| Popup.Popup.constructor | src/popup.tsx:6-11 | the popup starts with an empty status and a blank form |
| Popup.Popup.Edit | src/popup.tsx:134-154 | an input's setter replaces the form and keeps the status |
| Popup.Popup.LoadRulesForCurrentSite | src/popup.tsx:66-85 | with a usable origin the form shows that origin's entry or the defaults; without one nothing changes |
| Popup.Popup.StoreRules | src/popup.tsx:113-118 | the storage write replaces only the origin's entry, the tab is sent those same rules when its id is truthy, then the status says "Saved rules" and the form is kept |
| Popup.Popup.SaveRules | src/popup.tsx:91-122 | with a usable origin the table is written with that origin's entry replaced, the tab is sent the same rules when its id is truthy, and the status says so; without one nothing changes |
| Ports.Dedupe | src/components/PortsList.tsx:29 | de-duplication keeps each value once, and exactly the input's values |
| Ports.DedupeOfDistinct | src/components/PortsList.tsx:29 | a list without repeats is unchanged |
| Ports.DedupePrefix | src/components/PortsList.tsx:68 | de-duplicating a longer list keeps the shorter list's de-duplication as its prefix |
| Ports.DedupeAbsorbs | src/components/PortsList.tsx:87 | appending values already present changes nothing |
| Ports.GeneratePorts | src/components/PortsList.tsx:4-30 | the candidates are 3000 to 3050 in order, then the 12 popular ports: 63 distinct ports |
| Ports.CandidatesDistinct | src/components/PortsList.tsx:7-29 | the range and the popular ports share no value and have no repeats |
| Ports.PortsToCheck | src/components/PortsList.tsx:68 | each recent or candidate port is checked once, with the recent ports first |
| Ports.BatchesFrom | src/components/PortsList.tsx:74-75 | there are no batches exactly when the start is past the end, and the first batch holds 1 to 15 ports |
| Ports.BatchesPartition | src/components/PortsList.tsx:74-75 | the batches together are the list in order: ceil(n / 15) of them, all of 15 except a last of 1 to 15 |
| Ports.Running | src/components/PortsList.tsx:79-83 | no more ports are found running than were checked |
| Ports.RunningMembers | src/components/PortsList.tsx:79-83 | a port is reported running exactly when it was checked and answered |
| Ports.RunningAppend | src/components/PortsList.tsx:74-84 | probing two lists one after the other finds the first list's running ports, then the second's |
| Ports.NothingAnswers | src/components/PortsList.tsx:79-83 | when no port answers nothing is running |
| Ports.PushRunning | src/components/PortsList.tsx:79-83 | the `forEach` pushes exactly the batch's answering ports, in batch order, after those already found |
| Ports.ProbeBatch | src/components/PortsList.tsx:76-83 | probing one batch appends exactly its answering ports, in batch order |
| Ports.CheckInBatches | src/components/PortsList.tsx:74-84 | the batched loop finds exactly the answering ports in check order, having taken exactly the partition's batches |
| Ports.TakeLast | src/components/PortsList.tsx:87 | `slice(-n)` is a suffix of the list: the last min(length, n) entries for n > 0, and the whole list for n = 0, since `slice(-0)` is `slice(0)` |
| Ports.NewRecentPorts | src/components/PortsList.tsx:87 | the remembered list has at most 10 ports, none twice, each either recent or running |
| Ports.RecentPortsKeepTheLastTen | src/components/PortsList.tsx:86-87 | the remembered list is the tail of the de-duplicated recent-then-running list, so while that list has at most 10 ports every recent and every running port is remembered |
| Ports.SortAscending | src/components/PortsList.tsx:91 | the shown ports are sorted ascending and are a permutation of the running ports |
| Ports.PortsList.constructor | src/components/PortsList.tsx:35-46 | the list starts with no active ports and with the remembered ports from storage, if any |
| Ports.PortsList.CheckPortsReading | src/components/PortsList.tsx:66-92 | a scan with a given recent list shows the sorted running ports and remembers the new recent list in state and storage |
| Ports.PortsList.CheckPortsAsWritten | src/components/PortsList.tsx:94-98 | the scheduled scan behaves as a scan whose recent list is empty |
| Ports.PortsList.CheckPorts | src/components/PortsList.tsx:66-92 | a scan reading the current recent list |
| Ports.StaleClosureForgetsRecentPorts | src/components/PortsList.tsx:94-98 | as scheduled, a remembered port is not checked first and is forgotten when nothing answers |
| Ports.CurrentRecentPortsArePrioritisedAndKept | src/components/PortsList.tsx:67-68 | reading the current recent list, those ports are checked first and none is forgotten by a scan that finds nothing new |
| QuickLinks.WithoutIndex | src/components/QuickLinksEditor.tsx:27 | one link fewer when the position is in the list, none fewer otherwise, and every kept link was in the list |
| QuickLinks.WithoutIndexRemovesOne | src/components/QuickLinksEditor.tsx:26-28 | filtering out a position removes exactly that link and keeps the rest in order; a position outside the list removes nothing |
| QuickLinks.AddThenRemove | src/components/QuickLinksEditor.tsx:22-28 | removing the link just added gives back the earlier list |
| QuickLinks.QuickLinksEditor.constructor | src/components/QuickLinksEditor.tsx:18-20 | the editor starts with the given links, nothing being edited and a blank form |
| QuickLinks.QuickLinksEditor.AddLink | src/components/QuickLinksEditor.tsx:22-24 | one default link is appended and everything else is kept |
| QuickLinks.QuickLinksEditor.RemoveLink | src/components/QuickLinksEditor.tsx:26-28 | exactly the link at the index is removed, or none when the index is outside the list; the edit state is kept |
| QuickLinks.QuickLinksEditor.StartEditing | src/components/QuickLinksEditor.tsx:30-33 | the index is being edited and the form holds that link |
| QuickLinks.QuickLinksEditor.SetLabel | src/components/QuickLinksEditor.tsx:80 | only the form's label changes |
| QuickLinks.QuickLinksEditor.SetUrl | src/components/QuickLinksEditor.tsx:87 | only the form's URL changes |
| QuickLinks.QuickLinksEditor.SetIcon | src/components/QuickLinksEditor.tsx:94 | only the form's icon changes |
| QuickLinks.QuickLinksEditor.SaveEdit | src/components/QuickLinksEditor.tsx:35-43 | the edited position takes the form, other positions and the length are kept, and the edit state resets; with nothing being edited nothing changes |
| QuickLinks.QuickLinksEditor.CancelEdit | src/components/QuickLinksEditor.tsx:45-48 | the edit state resets and the links are kept |
| QuickLinks.QuickLinksEditor.HandleSave | src/components/QuickLinksEditor.tsx:50-53 | the parent receives the current links, then the close callback runs |
| QuickLinks.EditWithoutChanges | src/components/QuickLinksEditor.tsx:30-43 | starting an edit and saving it unchanged leaves the links as they were |
| Settings.Toggle | src/components/SettingsPanel.tsx:17-18 | the toggled key is negated and the other three fields are unchanged |
| Settings.PrefsByKeys | src/components/SettingsPanel.tsx:2-7 | records that agree on all four keys are equal |
| Settings.ToggleTwice | src/components/SettingsPanel.tsx:17-19 | toggling a key twice gives back the original record |
| Settings.TogglesCommute | src/components/SettingsPanel.tsx:17-18 | toggles of two keys commute |
| Settings.SwitchKey | src/components/SettingsPanel.tsx:45-85 | each switch shows and toggles its own key and no other switch's |
| Settings.SwitchesMatchKeys | src/components/SettingsPanel.tsx:42-86 | each key has exactly one switch |
| Settings.OnSwitchChange | src/components/SettingsPanel.tsx:17-20 | a click calls `onChange` exactly once, with the switch's key negated |
| Settings.ClickFlipsOnlyItsSwitch | src/components/SettingsPanel.tsx:42-86 | a click flips that switch's checked state and no other switch's |
| Background.CaptureVisible | src/background.ts:5-24 | the capture succeeds exactly with non-empty data and no host error, yielding that data; a host error gives the "Visible tab capture failed: " message, with the host's text when there is one; empty data gives "No screenshot data received from browser" |
| Background.ScreenshotWindow | src/background.ts:30-49 | the sender tab's window when it has one, otherwise the active tab's |
| Background.ScreenshotReply | src/background.ts:29-50 | with no window the reply is "No active tab"; otherwise it succeeds exactly when that window's capture does, carrying its data, and a failure carries a non-empty error |
| Background.Injectable | src/background.ts:63 | an injectable page has a non-empty URL, and a `chrome://` or `chrome-extension://` URL is never injectable |
| Background.HandleCaptureFullPage | src/background.ts:54-88 | FULLPAGE_START is sent exactly when the active tab has a truthy id and an injectable URL; the page's reply is passed back unchanged, and the guards and channel errors give their messages |
| Background.SystemPagesAreNeverMessaged | src/background.ts:63-66 | a `chrome://` or `chrome-extension://` page is never sent FULLPAGE_START |
| Background.OnMessage | src/background.ts:26-89 | only the two capture actions get a reply and keep the channel open; only `capture-fullpage` can message a tab |
| Flows.SavedRulesApplyIffChecked | src/content_customize.ts:40-51 | an entry saved from the popup is applied exactly when its box was ticked, hiding the lists as the popup parsed them |
| Flows.TruthyFlagShownButNotApplied | src/content_customize.ts:41 | a stored flag that is truthy but not `true` shows as ticked in the popup but is not applied; the popup never writes such a flag |
| Flows.FullPageReplyReachesRequester | src/background.ts:68-85 | for an injectable tab the requester gets the full-page script's own success or error |
| Flows.EveryStripDeliveredGivesSuccess | src/content_fullpage.ts:81-89 | when the active tab is injectable and every strip arrives with a data URL, the requester of `capture-fullpage` gets success with the PNG and the canvas size |

## Left out

- Image work: loading a strip into an `Image`, the pixels `drawImage` copies, and `toDataURL` encoding. The model records the draw rectangles, and the final PNG data URL is an input.
- FullPage.Composite: an entry without a data URL is taken to fail to load, since `img.src = undefined` requests the URL "undefined". A data URL that is present but does not decode is not modelled; it would reject `loadImage` in the same way.
- Browser.Chrome.SetCustomRules: the storage write always succeeds. The code ignores `chrome.runtime.lastError` in the callback at src/popup.tsx:114-118, so a failed `set` (for example over the `storage.sync` per-item quota) still messages the tab and shows "Saved rules".
- Popup.Popup.SaveRules: the storage read always returns the stored table. The code ignores a failed `get` at src/popup.tsx:95-96, so `all` becomes `{}` and the following write replaces every other origin's entry.
- Popup.Popup.StoreRules: models only the successful write; the failed `set` described above is not modelled.
- Timing: the 300 ms wait after each scroll, the 250 ms probe timeout, the 1.5 s re-scan interval and the status-clearing timeouts. The wait is folded into where the scroll settles; the re-scan is modelled as one scan at a time.
- Concurrency: the `Promise.all` inside a batch is modelled as the batch's results taken in order. Concurrent full-page captures on one page are not modelled.
- Floating point: the device pixel ratio and scroll offsets are exact reals, with no IEEE rounding.
- FullPage.StepCount: a viewport height of 0 is required away. The source divides by it and gets Infinity or NaN.
- QuickLinks.QuickLinksEditor.SaveEdit: requires the edited index to be inside the list. After `removeLink` the stored index can point past the end, and JavaScript would then grow the array with holes; sparse arrays are not modelled.
- QuickLinks.QuickLinksEditor.StartEditing: requires an index inside the list. The dialog only offers indices of rendered links.
- `CSS.escape` and `new URL(url).origin` are inputs, left uninterpreted.
- The popup's "Visible" and "Full page" buttons, the download link, and the tab query that finds the current tab: the tab is an input.
- The `localStorage` JSON parse of the remembered ports: a missing or unparsable entry is an absent value.
- The `XMLHttpRequest` probe: whether a port answers is an input.
- The dashboard page, clock, search bar and static quick-link list, the build configuration, and all JSX/Tailwind rendering: they hold no logic beyond the parts above.
- Strings are sequences of Dafny characters rather than UTF-16 code units; whitespace for `trim` is the ECMAScript set.

## Findings

| source | as written | input that shows it | evidently intended | confidence | as-written member | corrected member |
|---|---|---|---|---|---|---|
| src/components/PortsList.tsx:94-98 | the mount effect (empty dependency list) starts `checkPorts` and the 1.5 s interval with the first render's `checkPorts`, whose `recentPorts` is the initial `[]`; later state updates are never seen | 8080 remembered from an earlier session and no server answering: the scan starts at 3000 rather than 8080, and storage is overwritten with `[]` | each scan reads the current recent ports, so they are checked first and kept (line 67 "Prioritize recent ports", line 86 "keep last 10 active ports") | not executed; high | Ports.StaleClosureForgetsRecentPorts | Ports.CurrentRecentPortsArePrioritisedAndKept |
