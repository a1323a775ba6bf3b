/**
 * The per-site customizer content script: it turns an origin's stored rules
 * into one `<style>` element that hides the listed selectors, classes and
 * ids and adds the user's own CSS, or removes that element when the rules
 * are missing or not enabled.
 *
 * `CSS.escape` is a parameter (`escape`), left uninterpreted.
 */
module Customize {
  import opened Wrappers
  import opened Text
  import opened Browser

  const STYLE_ID := "__site_customizer_style__"

  /** What follows the selector list of every hiding rule. */
  const HIDE_RULE_BODY := " { display: none !important; }\n"

  /** One rule hiding every selector of a non-empty list; no rule at all for an empty one. */
  function HideRule(selectors: seq<string>): (css: string)
    ensures css == "" <==> selectors == []
  {
    if selectors == [] then "" else Join(selectors, ", ") + HIDE_RULE_BODY
  }

  /** Each name with `prefix` in front of its escaped form: `names.map(n => prefix + CSS.escape(n))`. */
  function Escaped(names: seq<string>, prefix: string, escape: string -> string): (selectors: seq<string>)
    ensures |selectors| == |names|
  {
    seq(|names|, i requires 0 <= i < |names| => prefix + escape(names[i]))
  }

  /** `buildHideCssFromSelectors`: the trimmed, non-empty selectors, used verbatim. */
  function BuildHideCssFromSelectors(hideSelectors: Option<seq<string>>): (css: string)
    ensures css == "" <==> CleanEntries(hideSelectors.GetOr([])) == []
  {
    var selectors := CleanEntries(hideSelectors.GetOr([]));
    HideRule(selectors)
  }

  /** `buildHideCssFromClasses`: the trimmed, non-empty class names as `.` + escaped name. */
  function BuildHideCssFromClasses(hideClasses: Option<seq<string>>, escape: string -> string): (css: string)
    ensures css == "" <==> CleanEntries(hideClasses.GetOr([])) == []
  {
    var classes := CleanEntries(hideClasses.GetOr([]));
    HideRule(Escaped(classes, ".", escape))
  }

  /** `buildHideCssFromIds`: the trimmed, non-empty ids as `#` + escaped id. */
  function BuildHideCssFromIds(hideIds: Option<seq<string>>, escape: string -> string): (css: string)
    ensures css == "" <==> CleanEntries(hideIds.GetOr([])) == []
  {
    var ids := CleanEntries(hideIds.GetOr([]));
    HideRule(Escaped(ids, "#", escape))
  }

  /**
   * Padding and blank entries make no difference to the builders: a list
   * gives the same CSS as its cleaned form, and a clean list (what the popup
   * stores) is used exactly as it is.
   */
  lemma BuildersIgnorePaddingAndBlanks(xs: seq<string>, escape: string -> string)
    ensures BuildHideCssFromSelectors(Some(xs)) == BuildHideCssFromSelectors(Some(CleanEntries(xs)))
    ensures BuildHideCssFromClasses(Some(xs), escape) == BuildHideCssFromClasses(Some(CleanEntries(xs)), escape)
    ensures BuildHideCssFromIds(Some(xs), escape) == BuildHideCssFromIds(Some(CleanEntries(xs)), escape)
    ensures IsClean(xs) ==> BuildHideCssFromSelectors(Some(xs)) == HideRule(xs)
    ensures IsClean(xs) ==> BuildHideCssFromClasses(Some(xs), escape) == HideRule(Escaped(xs, ".", escape))
    ensures IsClean(xs) ==> BuildHideCssFromIds(Some(xs), escape) == HideRule(Escaped(xs, "#", escape))
  {
    CleanEntriesOfClean(CleanEntries(xs));
    if IsClean(xs) {
      CleanEntriesOfClean(xs);
    }
  }

  /** An absent list and an empty list both give no rule. */
  lemma MissingListsGiveNoRule(escape: string -> string)
    ensures BuildHideCssFromSelectors(None) == "" && BuildHideCssFromSelectors(Some([])) == ""
    ensures BuildHideCssFromClasses(None, escape) == "" && BuildHideCssFromIds(None, escape) == ""
  {
  }

  /** The rules are applied only when present with `enabled === true`. */
  predicate Applies(rules: Option<StoredRules>)
    ensures Applies(rules) ==> rules.Some? && rules.value.enabled.IsTruthy()
    ensures rules.Some? && rules.value.enabled == OtherTruthy ==> !Applies(rules)
  {
    rules.Some? && rules.value.enabled == True
  }

  /** The text of the style element for enabled rules: the three hiding rules, then `String(css || '')`. */
  function StyleText(rules: StoredRules, escape: string -> string): (text: string)
    ensures var css := rules.css.GetOr("");
            |css| <= |text| && text[|text| - |css|..] == css
  {
    BuildHideCssFromSelectors(rules.hideSelectors) +
    BuildHideCssFromClasses(rules.hideClasses, escape) +
    BuildHideCssFromIds(rules.hideIds, escape) +
    rules.css.GetOr("")
  }

  /** The `<style>` element the customizer owns. */
  class StyleElement {
    var textContent: string

    constructor ()
      ensures textContent == ""
    {
      textContent := "";
    }
  }

  /** The page's document, as far as the customizer sees it: the element with id STYLE_ID, if any. */
  class Document {
    var styleElement: StyleElement?

    constructor ()
      ensures styleElement == null
    {
      styleElement := null;
    }

    /** `ensureStyleElement`: the existing element, or a new empty one appended to the document. */
    method EnsureStyleElement() returns (el: StyleElement)
      modifies this
      ensures styleElement == el
      ensures old(styleElement) != null ==> el == old(styleElement) && el.textContent == old(el.textContent)
      ensures old(styleElement) == null ==> fresh(el) && el.textContent == ""
    {
      if styleElement == null {
        el := new StyleElement();
        styleElement := el;
      } else {
        el := styleElement;
      }
    }

    /** `clearCustomization`: remove the element if there is one; otherwise nothing happens. */
    method ClearCustomization()
      modifies this
      ensures styleElement == null
    {
      if styleElement != null {
        styleElement := null;
      }
    }

    /**
     * `applyRules`: missing or not-enabled rules remove the element; enabled
     * rules leave exactly one element, the existing one if there was one,
     * whose text is the rules' style text whatever it was before.
     */
    method ApplyRules(rules: Option<StoredRules>, escape: string -> string)
      modifies this, styleElement
      ensures !Applies(rules) ==> styleElement == null
      ensures Applies(rules) ==> styleElement != null && styleElement.textContent == StyleText(rules.value, escape)
      ensures Applies(rules) && old(styleElement) != null ==> styleElement == old(styleElement)
      ensures Applies(rules) && old(styleElement) == null ==> fresh(styleElement)
    {
      if !Applies(rules) {
        ClearCustomization();
        return;
      }
      var styleEl := EnsureStyleElement();
      var hideSelCss := BuildHideCssFromSelectors(rules.value.hideSelectors);
      var hideClsCss := BuildHideCssFromClasses(rules.value.hideClasses, escape);
      var hideIdCss := BuildHideCssFromIds(rules.value.hideIds, escape);
      var userCss := rules.value.css.GetOr("");
      styleEl.textContent := hideSelCss + hideClsCss + hideIdCss + userCss;
    }
  }

  /** Applying the same rules twice leaves the same element with the same text as applying them once. */
  method ApplyTwice(doc: Document, rules: Option<StoredRules>, escape: string -> string)
    modifies doc, doc.styleElement
    ensures Applies(rules) ==> doc.styleElement != null && doc.styleElement.textContent == StyleText(rules.value, escape)
    ensures Applies(rules) && old(doc.styleElement) != null ==> doc.styleElement == old(doc.styleElement)
    ensures !Applies(rules) ==> doc.styleElement == null
  {
    doc.ApplyRules(rules, escape);
    ghost var first := doc.styleElement;
    doc.ApplyRules(rules, escape);
    assert Applies(rules) ==> doc.styleElement == first;
  }

  /** At page load the customizer applies the stored rules of the page's origin. */
  method ApplyStoredRules(doc: Document, customRules: Option<map<string, StoredRules>>, origin: string,
                          escape: string -> string)
    modifies doc, doc.styleElement
    ensures var rules := RulesFor(customRules, origin);
            && (!Applies(rules) ==> doc.styleElement == null)
            && (Applies(rules) ==> doc.styleElement != null &&
                                   doc.styleElement.textContent == StyleText(rules.value, escape))
  {
    var rules := RulesFor(customRules, origin);
    doc.ApplyRules(rules, escape);
  }

  /** The listener: a CUSTOM_RULES_APPLY request applies its rules and replies `{ ok: true }`; others are ignored. */
  method OnMessage(doc: Document, request: Option<Request>, escape: string -> string)
    returns (reply: Option<Response>, keepOpen: bool)
    modifies doc, doc.styleElement
    ensures keepOpen <==> request.Some? && request.value.action == CUSTOM_RULES_APPLY
    ensures keepOpen ==> reply == Some(Acknowledged)
    ensures keepOpen && !Applies(request.value.rules) ==> doc.styleElement == null
    ensures keepOpen && Applies(request.value.rules) ==>
              doc.styleElement != null && doc.styleElement.textContent == StyleText(request.value.rules.value, escape)
    ensures !keepOpen ==> reply == None && doc.styleElement == old(doc.styleElement)
    ensures !keepOpen && old(doc.styleElement) != null ==> doc.styleElement.textContent == old(doc.styleElement.textContent)
  {
    if request.Some? && request.value.action == CUSTOM_RULES_APPLY {
      doc.ApplyRules(request.value.rules, escape);
      reply, keepOpen := Some(Acknowledged), true;
    } else {
      reply, keepOpen := None, false;
    }
  }
}
