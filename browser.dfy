/**
 * The records that cross the extension's message channels and storage, and the
 * browser state the popup changes (chrome.storage.sync and messages to tabs).
 */
module Browser {
  import opened Wrappers

  const CAPTURE_SCREENSHOT := "capture-screenshot"
  const CAPTURE_FULLPAGE := "capture-fullpage"
  const FULLPAGE_START := "FULLPAGE_START"
  const CUSTOM_RULES_APPLY := "CUSTOM_RULES_APPLY"

  /** The fields of a `chrome.tabs.Tab` that the extension reads. */
  datatype Tab = Tab(id: Option<int>, windowId: Option<int>, url: Option<string>)

  /** `tab?.id` is truthy: present and not 0. */
  predicate HasTruthyId(tab: Option<Tab>)
    ensures HasTruthyId(tab) ==> tab.Some? && tab.value.id.Some?
    ensures tab.Some? && tab.value.id == Some(0) ==> !HasTruthyId(tab)
  {
    tab.Some? && tab.value.id.Some? && tab.value.id.value != 0
  }

  /**
   * A stored `enabled` value as the two readers see it: the content script
   * tests `=== true`, the popup tests truthiness (`!!`).
   */
  datatype Flag = True | OtherTruthy | Falsy {
    predicate IsTruthy() { !Falsy? }
  }

  /** One origin's entry of the `customRules` table; a missing field is `None`. */
  datatype StoredRules = StoredRules(
    enabled: Flag,
    css: Option<string>,
    hideSelectors: Option<seq<string>>,
    hideClasses: Option<seq<string>>,
    hideIds: Option<seq<string>>)

  /** A runtime or tab message: `{ action, rules? }`. */
  datatype Request = Request(action: string, rules: Option<StoredRules>)

  /**
   * A reply: `{ success, dataUrl?, error?, width?, height? }`, or the
   * customizer's `{ ok: true }`.
   */
  datatype Response =
    | Status(success: bool, dataUrl: Option<string>, error: Option<string>, width: Option<int>, height: Option<int>)
    | Acknowledged

  /** `{ success: false, error }` */
  function Failure(error: string): Response {
    Status(false, None, Some(error), None, None)
  }

  /** `resp.dataUrl`, undefined when the reply has none. */
  function DataUrlOf(resp: Response): Option<string> {
    if resp.Status? then resp.dataUrl else None
  }

  /** `all[origin]` of a stored `customRules` table, absent when there is no table or no entry. */
  function RulesFor(customRules: Option<map<string, StoredRules>>, origin: string): (rules: Option<StoredRules>)
    ensures rules.Some? <==> customRules.Some? && origin in customRules.value
    ensures rules.Some? ==> rules.value == customRules.value[origin]
  {
    var all := customRules.GetOr(map[]);
    if origin in all then Some(all[origin]) else None
  }

  /** A call the popup makes on the browser: a storage write of the whole table, or a message to a tab. */
  datatype ChromeCall =
    | StorageWrite(customRules: map<string, StoredRules>)
    | TabMessage(tabId: int, request: Request)

  /** The browser state the popup uses: the `customRules` key of chrome.storage.sync and the calls made so far. */
  class Chrome {
    var customRules: Option<map<string, StoredRules>>
    var calls: seq<ChromeCall>

    constructor (stored: Option<map<string, StoredRules>>)
      ensures customRules == stored && calls == []
    {
      customRules := stored;
      calls := [];
    }

    /** `chrome.storage.sync.set({ customRules: all })` */
    method SetCustomRules(all: map<string, StoredRules>)
      modifies this
      ensures customRules == Some(all)
      ensures calls == old(calls) + [StorageWrite(all)]
    {
      customRules := Some(all);
      calls := calls + [StorageWrite(all)];
    }

    /** `chrome.tabs.sendMessage(tabId, request)` */
    method SendToTab(tabId: int, request: Request)
      modifies this
      ensures customRules == old(customRules)
      ensures calls == old(calls) + [TabMessage(tabId, request)]
    {
      calls := calls + [TabMessage(tabId, request)];
    }
  }
}
