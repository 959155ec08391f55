/** The waiting-for screen: the open and done lists, adding an item,
    turning an item into a next action, and chasing it with a follow-up. */
module WaitingForView {
  import opened Wrappers
  import opened GtdTypes
  import opened Text
  import opened SeqOps
  import opened GtdStore

  /** `activeItems`. */
  function ActiveItems(items: seq<WaitingFor>): (r: seq<WaitingFor>)
    ensures forall i :: 0 <= i < |r| ==> !r[i].completed && r[i] in items
    ensures forall i :: 0 <= i < |items| && !items[i].completed ==> items[i] in r
  {
    Filter(items, (w: WaitingFor) => !w.completed)
  }

  /** `completedItems`. */
  function CompletedItems(items: seq<WaitingFor>): (r: seq<WaitingFor>)
    ensures forall i :: 0 <= i < |r| ==> r[i].completed && r[i] in items
    ensures forall i :: 0 <= i < |items| && items[i].completed ==> items[i] in r
  {
    Filter(items, (w: WaitingFor) => w.completed)
  }

  /** The two lists split the items: every item is in exactly one of them
      and their sizes add up. */
  lemma ActiveCompletedPartition(items: seq<WaitingFor>)
    ensures |ActiveItems(items)| + |CompletedItems(items)| == |items|
    ensures forall i :: 0 <= i < |items| ==> (items[i] in ActiveItems(items)) != (items[i] in CompletedItems(items))
  {
    CountComplement(items, (w: WaitingFor) => w.completed, (w: WaitingFor) => !w.completed);
  }

  /** The text the convert dialog starts from. */
  function FollowUpText(content: string): (s: string)
    ensures |s| == |content| + 11 && s[..11] == "Follow up: " && s[11..] == content
  {
    "Follow up: " + content
  }

  /** The guard of both add handlers: text and person are filled in. */
  predicate BothFilled(content: string, person: string)
  {
    IsFilled(content) && IsFilled(person)
  }

  class WaitingForScreen {
    var itemContent: string
    var itemPerson: string
    var expectedDate: Option<Timestamp>
    var convertItem: Option<WaitingFor>
    var convertContext: Context
    var convertContent: string
    var followUpPerson: string
    var followUpContent: string
    var followUpDate: Option<Timestamp>

    constructor ()
      ensures itemContent == "" && itemPerson == "" && expectedDate.None?
      ensures convertItem.None? && convertContext == Anywhere && convertContent == ""
      ensures followUpPerson == "" && followUpContent == "" && followUpDate.None?
    {
      itemContent, itemPerson, expectedDate := "", "", None;
      convertItem, convertContext, convertContent := None, Anywhere, "";
      followUpPerson, followUpContent, followUpDate := "", "", None;
    }

    /** `handleAddItem`: needs non-blank content and person; sends both
        trimmed, with no project and the chosen date or `null`, then clears
        the form. */
    method HandleAddItem() returns (calls: seq<StoreCall>)
      modifies this
      ensures !BothFilled(old(itemContent), old(itemPerson)) ==>
        calls == [] && itemContent == old(itemContent) && itemPerson == old(itemPerson) && expectedDate == old(expectedDate)
      ensures BothFilled(old(itemContent), old(itemPerson)) ==>
        calls == [AddWaitingFor(Trim(old(itemContent)), Trim(old(itemPerson)), None, old(expectedDate))]
        && itemContent == "" && itemPerson == "" && expectedDate.None?
      ensures convertItem == old(convertItem) && convertContext == old(convertContext) && convertContent == old(convertContent)
      ensures followUpPerson == old(followUpPerson) && followUpContent == old(followUpContent) && followUpDate == old(followUpDate)
    {
      if !BothFilled(itemContent, itemPerson) {
        return [];
      }
      calls := [AddWaitingFor(Trim(itemContent), Trim(itemPerson), None, expectedDate)];
      itemContent, itemPerson, expectedDate := "", "", None;
    }

    /** `handleOpenConvertDialog`: the dialog starts from "Follow up: "
        and the item's text, in context `@anywhere`. */
    method OpenConvertDialog(item: WaitingFor)
      modifies this
      ensures convertItem == Some(item) && convertContent == FollowUpText(item.content) && convertContext == Anywhere
      ensures itemContent == old(itemContent) && itemPerson == old(itemPerson) && expectedDate == old(expectedDate)
      ensures followUpPerson == old(followUpPerson) && followUpContent == old(followUpContent) && followUpDate == old(followUpDate)
    {
      convertItem := Some(item);
      convertContent := FollowUpText(item.content);
      convertContext := Anywhere;
    }

    /** `handleConvertToAction`: with an item and non-blank text, an action
        with the trimmed text, the chosen context, the item's project and no
        due date, then the item is deleted and the dialog cleared; nothing
        otherwise. */
    method HandleConvertToAction() returns (calls: seq<StoreCall>)
      modifies this
      ensures old(convertItem).None? || !IsFilled(old(convertContent)) ==>
        calls == [] && convertItem == old(convertItem) && convertContent == old(convertContent)
      ensures old(convertItem).Some? && IsFilled(old(convertContent)) ==>
        && calls == [AddAction(Trim(old(convertContent)), old(convertContext), old(convertItem).value.projectId, None),
                     DeleteWaitingFor(old(convertItem).value.id)]
        && convertItem.None? && convertContent == ""
      ensures convertContext == old(convertContext)
      ensures itemContent == old(itemContent) && itemPerson == old(itemPerson) && expectedDate == old(expectedDate)
      ensures followUpPerson == old(followUpPerson) && followUpContent == old(followUpContent) && followUpDate == old(followUpDate)
    {
      if convertItem.None? || !IsFilled(convertContent) {
        return [];
      }
      calls := [AddAction(Trim(convertContent), convertContext, convertItem.value.projectId, None),
                DeleteWaitingFor(convertItem.value.id)];
      convertItem, convertContent := None, "";
    }

    /** `handleOpenFollowUpDialog`: starts from the item's person, with no
        text and no date. */
    method OpenFollowUpDialog(item: WaitingFor)
      modifies this
      ensures followUpPerson == item.person && followUpContent == "" && followUpDate.None?
      ensures itemContent == old(itemContent) && itemPerson == old(itemPerson) && expectedDate == old(expectedDate)
      ensures convertItem == old(convertItem) && convertContext == old(convertContext) && convertContent == old(convertContent)
    {
      followUpPerson, followUpContent, followUpDate := item.person, "", None;
    }

    /** `handleCreateFollowUp`: a new waiting-for with no project; the item
        it came from is kept. */
    method HandleCreateFollowUp() returns (calls: seq<StoreCall>)
      modifies this
      ensures !BothFilled(old(followUpContent), old(followUpPerson)) ==>
        calls == [] && followUpContent == old(followUpContent) && followUpPerson == old(followUpPerson)
        && followUpDate == old(followUpDate)
      ensures BothFilled(old(followUpContent), old(followUpPerson)) ==>
        calls == [AddWaitingFor(Trim(old(followUpContent)), Trim(old(followUpPerson)), None, old(followUpDate))]
        && followUpContent == "" && followUpPerson == "" && followUpDate.None?
      ensures itemContent == old(itemContent) && itemPerson == old(itemPerson) && expectedDate == old(expectedDate)
      ensures convertItem == old(convertItem) && convertContext == old(convertContext) && convertContent == old(convertContent)
    {
      if !BothFilled(followUpContent, followUpPerson) {
        return [];
      }
      calls := [AddWaitingFor(Trim(followUpContent), Trim(followUpPerson), None, followUpDate)];
      followUpContent, followUpPerson, followUpDate := "", "", None;
    }
  }

  /** The convert dialog's pre-filled text is never blank, so confirming
      it unedited always converts the item. */
  lemma ConvertTextFilled(item: WaitingFor)
    ensures IsFilled(FollowUpText(item.content))
  {
    var s := FollowUpText(item.content);
    assert s[0] == 'F';
    assert !AllSpace(s);
  }
}
