/** The someday/maybe screen: category tabs, adding an idea, and moving an
    idea to the next actions or delegating it. */
module SomedayView {
  import opened Wrappers
  import opened GtdTypes
  import opened Text
  import opened SeqOps
  import opened GtdStore

  function CategoryOf(x: SomedayMaybe): SomedayCategory { x.category }

  /** `filteredItems`: `activeCategory` is `None` for the "all" tab. */
  function FilteredItems(items: seq<SomedayMaybe>, active: Option<SomedayCategory>): (r: seq<SomedayMaybe>)
    ensures active.None? ==> r == items
    ensures forall i :: 0 <= i < |r| ==> r[i] in items && (active.None? || r[i].category == active.value)
    ensures forall i :: 0 <= i < |items| && (active.None? || items[i].category == active.value) ==> items[i] in r
  {
    if active.None? then items else Filter(items, HasKey(CategoryOf, active.value))
  }

  /** The badge on each category tab, in table order. */
  function CategoryCounts(items: seq<SomedayMaybe>): (r: seq<nat>)
    ensures |r| == |SomedayCategories|
  {
    KeyCounts(items, CategoryOf, CategoryValues())
  }

  /** Each category badge is the length of the list that tab shows, and
      the badges add up to the "all" badge: every idea is under exactly one
      category tab. */
  lemma CategoryBadgesAddUp(items: seq<SomedayMaybe>)
    ensures forall i :: 0 <= i < |SomedayCategories| ==>
      CategoryCounts(items)[i] == |FilteredItems(items, Some(SomedayCategories[i].value))|
    ensures Sum(CategoryCounts(items)) == |items|
  {
    CategoriesTable();
    SumKeyCountsIsLength(items, CategoryOf, CategoryValues());
  }

  class SomedayScreen {
    var selectedItem: Option<SomedayMaybe>
    var itemContent: string
    var itemCategory: SomedayCategory
    var moveContext: Context
    var delegatePerson: string
    var delegateDate: Option<Timestamp>
    var activeCategory: Option<SomedayCategory>

    constructor ()
      ensures selectedItem.None? && itemContent == "" && itemCategory == Other && moveContext == Anywhere
      ensures delegatePerson == "" && delegateDate.None? && activeCategory.None?
    {
      selectedItem, itemContent, itemCategory, moveContext := None, "", Other, Anywhere;
      delegatePerson, delegateDate, activeCategory := "", None, None;
    }

    /** `handleAddItem`: a non-blank idea is sent trimmed under the chosen
        category, and the form goes back to empty text and `other`. */
    method HandleAddItem() returns (calls: seq<StoreCall>)
      modifies this
      ensures !IsFilled(old(itemContent)) ==> calls == [] && itemContent == old(itemContent) && itemCategory == old(itemCategory)
      ensures IsFilled(old(itemContent)) ==>
        calls == [AddSomedayMaybe(Trim(old(itemContent)), old(itemCategory))] && itemContent == "" && itemCategory == Other
      ensures selectedItem == old(selectedItem) && moveContext == old(moveContext) && activeCategory == old(activeCategory)
      ensures delegatePerson == old(delegatePerson) && delegateDate == old(delegateDate)
    {
      if !IsFilled(itemContent) {
        return [];
      }
      calls := [AddSomedayMaybe(Trim(itemContent), itemCategory)];
      itemContent, itemCategory := "", Other;
    }

    /** `openMoveDialog`: only the selection changes; the context picked for
        an earlier move is kept. */
    method OpenMoveDialog(item: SomedayMaybe)
      modifies this
      ensures selectedItem == Some(item)
      ensures itemContent == old(itemContent) && itemCategory == old(itemCategory) && moveContext == old(moveContext)
      ensures delegatePerson == old(delegatePerson) && delegateDate == old(delegateDate) && activeCategory == old(activeCategory)
    {
      selectedItem := Some(item);
    }

    /** `openDelegateDialog`: selects the idea and clears the person and
        date. */
    method OpenDelegateDialog(item: SomedayMaybe)
      modifies this
      ensures selectedItem == Some(item) && delegatePerson == "" && delegateDate.None?
      ensures itemContent == old(itemContent) && itemCategory == old(itemCategory) && moveContext == old(moveContext)
      ensures activeCategory == old(activeCategory)
    {
      selectedItem, delegatePerson, delegateDate := Some(item), "", None;
    }

    /** `handleMoveToAction`: with an idea selected, asks the store to move
        it to the next actions in the chosen context, with no project. */
    method HandleMoveToAction() returns (calls: seq<StoreCall>)
      modifies this
      ensures old(selectedItem).None? ==> calls == [] && selectedItem.None?
      ensures old(selectedItem).Some? ==>
        calls == [MoveSomedayToAction(old(selectedItem).value.id, old(moveContext), None)] && selectedItem.None?
      ensures itemContent == old(itemContent) && itemCategory == old(itemCategory) && moveContext == old(moveContext)
      ensures delegatePerson == old(delegatePerson) && delegateDate == old(delegateDate) && activeCategory == old(activeCategory)
    {
      if selectedItem.None? {
        return [];
      }
      calls := [MoveSomedayToAction(selectedItem.value.id, moveContext, None)];
      selectedItem := None;
    }

    /** `handleDelegate`: with an idea selected and a non-blank person,
        asks the store to turn it into a waiting-for for that person, then
        clears the dialog. */
    method HandleDelegate() returns (calls: seq<StoreCall>)
      modifies this
      ensures old(selectedItem).None? || !IsFilled(old(delegatePerson)) ==>
        calls == [] && selectedItem == old(selectedItem) && delegatePerson == old(delegatePerson)
        && delegateDate == old(delegateDate)
      ensures old(selectedItem).Some? && IsFilled(old(delegatePerson)) ==>
        && calls == [MoveSomedayToWaitingFor(old(selectedItem).value.id, Trim(old(delegatePerson)), old(delegateDate))]
        && selectedItem.None? && delegatePerson == "" && delegateDate.None?
      ensures itemContent == old(itemContent) && itemCategory == old(itemCategory) && moveContext == old(moveContext)
      ensures activeCategory == old(activeCategory)
    {
      if selectedItem.None? || !IsFilled(delegatePerson) {
        return [];
      }
      calls := [MoveSomedayToWaitingFor(selectedItem.value.id, Trim(delegatePerson), delegateDate)];
      selectedItem, delegatePerson, delegateDate := None, "", None;
    }
  }
}
