/**
 * The popup's per-site rule editor: it shows the current tab's stored rules
 * as form fields (lists joined with ", ") and saves the form back as that
 * origin's entry of the `customRules` table, then tells the tab to apply it.
 *
 * `new URL(url).origin` is a parameter (`parseOrigin`), left uninterpreted;
 * it gives `None` where the constructor throws.
 */
module Popup {
  import opened Wrappers
  import opened Text
  import opened Browser

  /** `getOriginFromUrl`: no origin for a missing or empty URL, otherwise what the URL parser gives. */
  function OriginFromUrl(url: Option<string>, parseOrigin: string -> Option<string>): (origin: Option<string>)
    ensures url.None? || url.value == "" ==> origin.None?
    ensures url.Some? && url.value != "" ==> origin == parseOrigin(url.value)
  {
    if url.None? || url.value == "" then None else parseOrigin(url.value)
  }

  /** The origin of the current tab that load and save go on with: present and truthy (`if (!origin) return`). */
  function UsableOrigin(tab: Option<Tab>, parseOrigin: string -> Option<string>): (origin: Option<string>)
    ensures origin.Some? ==> tab.Some? && origin.value != "" && origin == OriginFromUrl(tab.value.url, parseOrigin)
    ensures tab.None? || tab.value.url.None? || tab.value.url.value == "" ==> origin.None?
  {
    var origin := OriginFromUrl(if tab.Some? then tab.value.url else None, parseOrigin);
    if origin.Some? && origin.value != "" then origin else None
  }

  /** The form's state: the checkbox, the CSS text area and the three comma-separated fields. */
  datatype RuleForm = RuleForm(enabled: bool, css: string, hideSelectors: string, hideClasses: string, hideIds: string)

  const BLANK_FORM := RuleForm(false, "", "", "", "")

  /** What the popup shows for an origin without a stored entry. */
  const DEFAULT_RULES := StoredRules(Falsy, Some(""), Some([]), Some([]), Some([]))

  /** No entry of a comma-separated field holds a comma. */
  predicate CommaFree(names: seq<string>) {
    forall i :: 0 <= i < |names| ==> ',' !in names[i]
  }

  /** Trimming never brings in a character that was not there. */
  lemma TrimKeepsOut(s: string, c: char)
    requires c !in s
    ensures c !in Trim(s)
  {
    var t := TrimStart(s);
    assert t == s[|s| - |t|..];
    assert c !in t by {
      forall i | 0 <= i < |t| ensures t[i] != c { assert t[i] == s[|s| - |t| + i]; }
    }
    var r := TrimEnd(t);
    assert r == t[..|r|];
    forall i | 0 <= i < |r| ensures r[i] != c { assert r[i] == t[i]; }
  }

  /** Cleaning comma-free parts gives comma-free entries. */
  lemma {:induction false} CleanEntriesCommaFree(parts: seq<string>)
    requires CommaFree(parts)
    ensures CommaFree(CleanEntries(parts))
  {
    if parts != [] {
      assert ',' !in parts[0];
      TrimKeepsOut(parts[0], ',');
      var head := if Trim(parts[0]) == "" then [] else [Trim(parts[0])];
      var rest := CleanEntries(parts[1..]);
      assert CommaFree(parts[1..]);
      CleanEntriesCommaFree(parts[1..]);
      assert CleanEntries(parts) == head + rest;
      forall i | 0 <= i < |head + rest| ensures ',' !in (head + rest)[i] {
        if i >= |head| { assert (head + rest)[i] == rest[i - |head|]; }
      }
    }
  }

  /** `field.split(',').map(s => s.trim()).filter(Boolean)`: non-empty, trimmed entries, no more than the field's commas allow. */
  function ParseList(field: string): (names: seq<string>)
    ensures IsClean(names)
    ensures |names| <= |Split(field, ',')|
  {
    CleanEntries(Split(field, ','))
  }

  /** No parsed entry holds a comma. */
  lemma ParseListCommaFree(field: string)
    ensures CommaFree(ParseList(field))
  {
    CleanEntriesCommaFree(Split(field, ','));
  }

  /** A space after a comma makes no difference to the parse. */
  lemma ParseIgnoresLeadingSpace(s: string)
    ensures ParseList(" " + s) == ParseList(s)
  {
    var parts := Split(s, ',');
    SplitLeadingChar(' ', ',', s);
    TrimSkipsLeadingSpace(parts[0]);
  }

  /** Showing a list as `names.join(', ')` and parsing the field gives back the list. */
  lemma {:induction false} ParseJoinRoundTrip(names: seq<string>)
    requires IsClean(names) && CommaFree(names)
    ensures ParseList(Join(names, ", ")) == names
  {
    if |names| == 0 {
      ParseEmptyField();
    } else if |names| == 1 {
      assert names == [names[0]];
      ParseJoinSingle(names[0]);
    } else {
      CleanCommaFreeTail(names);
      ParseJoinRoundTrip(names[1..]);
      assert names == [names[0]] + names[1..];
      ParseJoinStep(names[0], names[1..]);
    }
  }

  /** The head of a clean, comma-free list is a clean, comma-free name, and its tail is again such a list. */
  lemma CleanCommaFreeTail(names: seq<string>)
    requires |names| > 0 && IsClean(names) && CommaFree(names)
    ensures names[0] != "" && IsTrimmed(names[0]) && ',' !in names[0]
    ensures IsClean(names[1..]) && CommaFree(names[1..])
  {
    forall i | 0 <= i < |names| - 1 ensures names[1..][i] == names[i + 1] { }
  }

  /** An empty field parses to no names. */
  lemma ParseEmptyField()
    ensures ParseList("") == []
  {
    assert Split("", ',') == [""];
    assert TrimStart("") == "" && TrimEnd("") == "";
    assert Trim("") == "";
    assert CleanEntries([""]) == [] + CleanEntries([""][1..]);
    assert [""][1..] == [];
  }

  /** A single clean, comma-free name round-trips. */
  lemma ParseJoinSingle(name: string)
    requires name != "" && IsTrimmed(name) && ',' !in name
    ensures ParseList(Join([name], ", ")) == [name]
  {
    SplitWithoutSeparator(name, ',');
    assert CleanEntries([name]) == [name] + CleanEntries([]);
  }

  /** One step of the round trip: a clean, comma-free name in front of a list that already round-trips. */
  lemma ParseJoinStep(first: string, others: seq<string>)
    requires first != "" && IsTrimmed(first) && ',' !in first
    requires |others| >= 1 && ParseList(Join(others, ", ")) == others
    ensures ParseList(Join([first] + others, ", ")) == [first] + others
  {
    var rest := Join(others, ", ");
    calc {
      ParseList(Join([first] + others, ", "));
      == { JoinFirstName(first, others); }
      ParseList(first + [','] + (" " + rest));
      == { ParseAfterFirstName(first, rest); }
      [first] + ParseList(rest);
    }
  }

  /** A clean, comma-free name, a comma and a space in front of a field add that one name to its parse. */
  lemma ParseAfterFirstName(first: string, rest: string)
    requires first != "" && IsTrimmed(first) && ',' !in first
    ensures ParseList(first + [','] + (" " + rest)) == [first] + ParseList(rest)
  {
    var tail := Split(" " + rest, ',');
    SplitAtFirstSeparator(first, ',', " " + rest);
    CleanEntriesKeepsCleanHead(first, tail);
    ParseIgnoresLeadingSpace(rest);
  }

  /** A name joined in front of a non-empty list is that name, a comma, and the list joined after a space. */
  lemma JoinFirstName(first: string, others: seq<string>)
    requires |others| >= 1
    ensures Join([first] + others, ", ") == first + [','] + (" " + Join(others, ", "))
  {
    var names := [first] + others;
    assert names[0] == first && names[1..] == others;
    assert Join(names, ", ") == first + ", " + Join(others, ", ");
    CommaSpace(first, Join(others, ", "));
  }

  /** `a + ", " + b` is `a`, a comma, then `b` after a space. */
  lemma CommaSpace(a: string, b: string)
    ensures a + ", " + b == a + [','] + (" " + b)
  {
    assert ", " == [','] + " ";
  }

  /** A non-empty trimmed entry in front survives cleaning unchanged. */
  lemma CleanEntriesKeepsCleanHead(first: string, tail: seq<string>)
    requires first != "" && IsTrimmed(first)
    ensures CleanEntries([first] + tail) == [first] + CleanEntries(tail)
  {
    assert ([first] + tail)[0] == first && ([first] + tail)[1..] == tail;
  }

  /** The form fields `loadRulesForCurrentSite` sets from an entry: `!!enabled`, `String(css || '')`, lists joined with ", ". */
  function LoadedForm(rules: StoredRules): (form: RuleForm)
    ensures form.enabled <==> rules.enabled.IsTruthy()
  {
    RuleForm(rules.enabled.IsTruthy(), rules.css.GetOr(""),
             Join(rules.hideSelectors.GetOr([]), ", "),
             Join(rules.hideClasses.GetOr([]), ", "),
             Join(rules.hideIds.GetOr([]), ", "))
  }

  /** The entry shown for an origin: the stored one, or the defaults when there is none. */
  function RulesToShow(customRules: Option<map<string, StoredRules>>, origin: string): (rules: StoredRules)
    ensures customRules.Some? && origin in customRules.value ==> rules == customRules.value[origin]
    ensures customRules.None? || origin !in customRules.value ==> rules == DEFAULT_RULES
  {
    RulesFor(customRules, origin).GetOr(DEFAULT_RULES)
  }

  /** An origin without a stored entry shows a disabled, empty form. */
  lemma MissingEntryShowsBlankForm(customRules: Option<map<string, StoredRules>>, origin: string)
    requires customRules.None? || origin !in customRules.value
    ensures LoadedForm(RulesToShow(customRules, origin)) == BLANK_FORM
  {
  }

  /** The entry `saveRules` builds from the form. */
  function SavedRules(form: RuleForm): (rules: StoredRules)
    ensures rules.enabled == True || rules.enabled == Falsy
    ensures rules.enabled == True <==> form.enabled
    ensures rules.css == Some(form.css)
    ensures rules.hideSelectors.Some? && IsClean(rules.hideSelectors.value)
    ensures rules.hideClasses.Some? && IsClean(rules.hideClasses.value)
    ensures rules.hideIds.Some? && IsClean(rules.hideIds.value)
  {
    StoredRules(if form.enabled then True else Falsy, Some(form.css),
                Some(ParseList(form.hideSelectors)), Some(ParseList(form.hideClasses)), Some(ParseList(form.hideIds)))
  }

  /** `all[origin] = newRules`: the origin's entry is replaced and every other origin's entry is kept. */
  function UpdateRules(all: map<string, StoredRules>, origin: string, rules: StoredRules): (updated: map<string, StoredRules>)
    ensures updated.Keys == all.Keys + {origin}
    ensures updated[origin] == rules
    ensures forall o :: o in all && o != origin ==> updated[o] == all[o]
  {
    all[origin := rules]
  }

  /** An entry as `saveRules` writes it: a boolean flag, a CSS string and three clean, comma-free lists. */
  predicate IsSavedForm(rules: StoredRules) {
    && (rules.enabled == True || rules.enabled == Falsy)
    && rules.css.Some?
    && rules.hideSelectors.Some? && IsClean(rules.hideSelectors.value) && CommaFree(rules.hideSelectors.value)
    && rules.hideClasses.Some? && IsClean(rules.hideClasses.value) && CommaFree(rules.hideClasses.value)
    && rules.hideIds.Some? && IsClean(rules.hideIds.value) && CommaFree(rules.hideIds.value)
  }

  /** Every entry the popup saves is in that form. */
  lemma SavedRulesAreSavedForm(form: RuleForm)
    ensures IsSavedForm(SavedRules(form))
  {
    ParseListCommaFree(form.hideSelectors);
    ParseListCommaFree(form.hideClasses);
    ParseListCommaFree(form.hideIds);
  }

  /** Loading an entry the popup saved and saving it again stores the same entry. */
  lemma LoadThenSave(rules: StoredRules)
    requires IsSavedForm(rules)
    ensures SavedRules(LoadedForm(rules)) == rules
  {
    ParseJoinRoundTrip(rules.hideSelectors.value);
    ParseJoinRoundTrip(rules.hideClasses.value);
    ParseJoinRoundTrip(rules.hideIds.value);
  }

  /** Saving a form and loading it back shows the same checkbox and CSS, and each list field in its normal form. */
  lemma SaveThenLoad(form: RuleForm)
    ensures var shown := LoadedForm(SavedRules(form));
            && shown.enabled == form.enabled && shown.css == form.css
            && shown.hideSelectors == Join(ParseList(form.hideSelectors), ", ")
            && shown.hideClasses == Join(ParseList(form.hideClasses), ", ")
            && shown.hideIds == Join(ParseList(form.hideIds), ", ")
            && SavedRules(shown) == SavedRules(form)
  {
    SavedRulesAreSavedForm(form);
    LoadThenSave(SavedRules(form));
  }

  /** The popup's React state, and the actions that change it. */
  class Popup {
    var status: string
    var form: RuleForm

    constructor ()
      ensures status == "" && form == BLANK_FORM
    {
      status, form := "", BLANK_FORM;
    }

    /** A keystroke or click in the form: one field's setter. */
    method Edit(next: RuleForm)
      modifies this
      ensures form == next && status == old(status)
    {
      form := next;
    }

    /** `loadRulesForCurrentSite`: with a usable origin the form shows that origin's entry or the defaults; otherwise nothing changes. */
    method LoadRulesForCurrentSite(chrome: Chrome, tab: Option<Tab>, parseOrigin: string -> Option<string>)
      modifies this
      ensures status == old(status)
      ensures UsableOrigin(tab, parseOrigin).None? ==> form == old(form)
      ensures UsableOrigin(tab, parseOrigin).Some? ==>
                form == LoadedForm(RulesToShow(chrome.customRules, UsableOrigin(tab, parseOrigin).value))
    {
      var origin := OriginFromUrl(if tab.Some? then tab.value.url else None, parseOrigin);
      if origin.None? || origin.value == "" {
        return;
      }
      var rules := RulesToShow(chrome.customRules, origin.value);
      form := LoadedForm(rules);
    }

    /**
     * `saveRules`: with a usable origin, write the table with that origin's
     * entry replaced by the form's rules, then, when the tab has a truthy id,
     * send it those same rules; otherwise nothing changes.
     */
    method SaveRules(chrome: Chrome, tab: Option<Tab>, parseOrigin: string -> Option<string>)
      modifies this, chrome
      ensures form == old(form)
      ensures UsableOrigin(tab, parseOrigin).None? ==>
                status == old(status) && chrome.customRules == old(chrome.customRules) && chrome.calls == old(chrome.calls)
      ensures UsableOrigin(tab, parseOrigin).Some? ==>
                var origin := UsableOrigin(tab, parseOrigin).value;
                var all := UpdateRules(old(chrome.customRules).GetOr(map[]), origin, SavedRules(form));
                && chrome.customRules == Some(all)
                && chrome.calls == old(chrome.calls) + [StorageWrite(all)] +
                     (if HasTruthyId(tab) then [TabMessage(tab.value.id.value, Request(CUSTOM_RULES_APPLY, Some(SavedRules(form))))]
                      else [])
                && status == "Saved rules"
    {
      var origin := UsableOrigin(tab, parseOrigin);
      if origin.None? {
        return;
      }
      var newRules := SavedRules(form);
      StoreRules(chrome, tab, origin.value, newRules);
    }

    /**
     * The storage callback of `saveRules`: write the table with `origin`'s
     * entry replaced by `newRules`, send the tab those rules when its id is
     * truthy, then show "Saved rules".
     */
    method StoreRules(chrome: Chrome, tab: Option<Tab>, origin: string, newRules: StoredRules)
      modifies this, chrome
      ensures form == old(form) && status == "Saved rules"
      ensures var all := UpdateRules(old(chrome.customRules).GetOr(map[]), origin, newRules);
              && chrome.customRules == Some(all)
              && chrome.calls == old(chrome.calls) + [StorageWrite(all)] +
                   (if HasTruthyId(tab) then [TabMessage(tab.value.id.value, Request(CUSTOM_RULES_APPLY, Some(newRules)))]
                    else [])
    {
      var all := chrome.customRules.GetOr(map[]);
      all := all[origin := newRules];
      chrome.SetCustomRules(all);
      if HasTruthyId(tab) {
        chrome.SendToTab(tab.value.id.value, Request(CUSTOM_RULES_APPLY, Some(newRules)));
      }
      status := "Saved rules";
    }
  }
}
