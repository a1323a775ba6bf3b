/**
 * The quick-link editor dialog: a list of links, the index of the link being
 * edited (if any) and the edit form, changed by the dialog's buttons and
 * inputs; "Save" hands the list to the dashboard and closes the dialog.
 */
module QuickLinks {
  import opened Wrappers

  /** A shortcut on the dashboard: its label (`title`), its target and the SVG path of its icon. */
  datatype LinkItem = LinkItem(title: string, url: string, icon: string)

  const DEFAULT_ICON := "M13.828 10.172a4 4 0 00-5.656 0l-4 4a4 4 0 105.656 5.656l1.102-1.101m-.758-4.899a4 4 0 005.656 0l4-4a4 4 0 00-5.656-5.656l-1.1 1.1"

  /** The link "Add link" appends. */
  const NEW_LINK := LinkItem("New Link", "https://", DEFAULT_ICON)

  /** The edit form when nothing is being edited. */
  const BLANK_FORM := LinkItem("", "", "")

  /** `links.filter((_, i) => i !== index)`: every link whose position is not `index`, in order. */
  function WithoutIndex(links: seq<LinkItem>, index: int): (kept: seq<LinkItem>)
    ensures 0 <= index < |links| ==> |kept| == |links| - 1
    ensures !(0 <= index < |links|) ==> |kept| == |links|
    ensures forall l :: l in kept ==> l in links
  {
    if links == [] then []
    else (if index == 0 then [] else [links[0]]) + WithoutIndex(links[1..], index - 1)
  }

  /**
   * Filtering out a position removes exactly the link there and keeps the
   * others in order; a position outside the list removes nothing.
   */
  lemma {:induction false} WithoutIndexRemovesOne(links: seq<LinkItem>, index: int)
    ensures 0 <= index < |links| ==> WithoutIndex(links, index) == links[..index] + links[index + 1..]
    ensures !(0 <= index < |links|) ==> WithoutIndex(links, index) == links
  {
    if links != [] {
      WithoutIndexRemovesOne(links[1..], index - 1);
      if index == 0 {
        assert links[1..] == links[..0] + links[1..];
      } else if 0 < index < |links| {
        assert links[1..][..index - 1] == links[1..index];
        assert links[1..][index..] == links[index + 1..];
        assert [links[0]] + links[1..index] == links[..index];
      } else {
        assert [links[0]] + links[1..] == links;
      }
    }
  }

  /** Removing the link just added gives back the list it was added to. */
  lemma AddThenRemove(links: seq<LinkItem>)
    ensures WithoutIndex(links + [NEW_LINK], |links|) == links
  {
    WithoutIndexRemovesOne(links + [NEW_LINK], |links|);
    assert (links + [NEW_LINK])[..|links|] == links;
  }

  /** What the editor hands to its parent. */
  datatype Callback = OnSave(links: seq<LinkItem>) | OnClose

  /** The editor's React state, and the callbacks it has invoked. */
  class QuickLinksEditor {
    var links: seq<LinkItem>
    var editingIndex: Option<nat>
    var editForm: LinkItem
    var callbacks: seq<Callback>

    /** Opening the editor with the dashboard's links: nothing is being edited and the form is blank. */
    constructor (initialLinks: seq<LinkItem>)
      ensures links == initialLinks && editingIndex == None && editForm == BLANK_FORM && callbacks == []
    {
      links, editingIndex, editForm, callbacks := initialLinks, None, BLANK_FORM, [];
    }

    /** `addLink`: one more link, the default one, after the others. */
    method AddLink()
      modifies this
      ensures links == old(links) + [NEW_LINK]
      ensures editingIndex == old(editingIndex) && editForm == old(editForm) && callbacks == old(callbacks)
    {
      links := links + [NEW_LINK];
    }

    /** `removeLink(index)`: the links at every other position, in order; the edit state is left as it was. */
    method RemoveLink(index: int)
      modifies this
      ensures 0 <= index < |old(links)| ==> links == old(links)[..index] + old(links)[index + 1..]
      ensures !(0 <= index < |old(links)|) ==> links == old(links)
      ensures editingIndex == old(editingIndex) && editForm == old(editForm) && callbacks == old(callbacks)
    {
      WithoutIndexRemovesOne(links, index);
      links := WithoutIndex(links, index);
    }

    /** `startEditing(index)`: the link's row becomes the form, filled with that link. */
    method StartEditing(index: nat)
      requires index < |links|
      modifies this
      ensures links == old(links) && callbacks == old(callbacks)
      ensures editingIndex == Some(index) && editForm == links[index]
    {
      editingIndex := Some(index);
      editForm := links[index];
    }

    /** The label input: `setEditForm({ ...editForm, label })`, setting `title`. */
    method SetLabel(title: string)
      modifies this
      ensures editForm == old(editForm).(title := title)
      ensures links == old(links) && editingIndex == old(editingIndex) && callbacks == old(callbacks)
    {
      editForm := editForm.(title := title);
    }

    /** The URL input: `setEditForm({ ...editForm, url })`. */
    method SetUrl(url: string)
      modifies this
      ensures editForm == old(editForm).(url := url)
      ensures links == old(links) && editingIndex == old(editingIndex) && callbacks == old(callbacks)
    {
      editForm := editForm.(url := url);
    }

    /** The icon input: `setEditForm({ ...editForm, icon })`. */
    method SetIcon(icon: string)
      modifies this
      ensures editForm == old(editForm).(icon := icon)
      ensures links == old(links) && editingIndex == old(editingIndex) && callbacks == old(callbacks)
    {
      editForm := editForm.(icon := icon);
    }

    /**
     * `saveEdit`: the edited position takes the form's link, every other
     * position and the length stay, and the edit state is reset; with nothing
     * being edited nothing changes.
     */
    method SaveEdit()
      requires editingIndex.Some? ==> editingIndex.value < |links|
      modifies this
      ensures old(editingIndex).None? ==> links == old(links) && editingIndex == None && editForm == old(editForm)
      ensures old(editingIndex).Some? ==>
                && |links| == |old(links)|
                && links[old(editingIndex).value] == old(editForm)
                && (forall i :: 0 <= i < |links| && i != old(editingIndex).value ==> links[i] == old(links)[i])
                && editingIndex == None && editForm == BLANK_FORM
      ensures callbacks == old(callbacks)
    {
      if editingIndex.Some? {
        var newLinks := links;
        newLinks := newLinks[editingIndex.value := editForm];
        links := newLinks;
        editingIndex := None;
        editForm := BLANK_FORM;
      }
    }

    /** `cancelEdit`: the edit state is reset and the links are kept. */
    method CancelEdit()
      modifies this
      ensures editingIndex == None && editForm == BLANK_FORM
      ensures links == old(links) && callbacks == old(callbacks)
    {
      editingIndex := None;
      editForm := BLANK_FORM;
    }

    /** `handleSave`: the parent receives the current links, then the dialog is closed. */
    method HandleSave()
      modifies this
      ensures callbacks == old(callbacks) + [OnSave(links), OnClose]
      ensures links == old(links) && editingIndex == old(editingIndex) && editForm == old(editForm)
    {
      callbacks := callbacks + [OnSave(links)];
      callbacks := callbacks + [OnClose];
    }
  }

  /** Starting to edit a link and saving without changes leaves the list as it was. */
  method EditWithoutChanges(editor: QuickLinksEditor, index: nat)
    requires index < |editor.links|
    modifies editor
    ensures editor.links == old(editor.links)
    ensures editor.editingIndex == None && editor.editForm == BLANK_FORM
  {
    editor.StartEditing(index);
    editor.SaveEdit();
  }
}
