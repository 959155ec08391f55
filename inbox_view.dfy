/** The inbox screen: capture, and the clarify dialog that walks one item
    through "is it actionable?", "can it be done in two minutes?" and
    "organize", ending in store calls that file the item elsewhere and
    take it out of the inbox. Store calls are issued without waiting for
    each other; the model keeps them as the ordered list the handler
    issues. */
module InboxView {
  import opened Wrappers
  import opened GtdTypes
  import opened Text
  import opened SeqOps
  import opened GtdStore

  /** `processStep`. */
  datatype Step = Actionable | TwoMinute | Organize

  /** The two "not actionable" buttons. */
  datatype Disposal = Trash | Incubate

  /** The two "organize" buttons that need no new name. */
  datatype Destination = AsAction | Delegated

  /** `unprocessedItems`: the items the inbox lists. */
  function Unprocessed(inbox: seq<InboxItem>): (r: seq<InboxItem>)
    ensures forall i :: 0 <= i < |r| ==> !r[i].processed && r[i] in inbox
    ensures forall i :: 0 <= i < |inbox| && !inbox[i].processed ==> inbox[i] in r
  {
    Filter(inbox, (x: InboxItem) => !x.processed)
  }

  /** `inbox.find(item => item.id === selectedItemId)`. */
  function Selected(inbox: seq<InboxItem>, selectedItemId: Option<Id>): (r: Option<InboxItem>)
    ensures r.Some? ==> r.value in inbox && selectedItemId == Some(r.value.id)
    ensures selectedItemId.Some? && (exists i :: 0 <= i < |inbox| && inbox[i].id == selectedItemId.value) ==> r.Some?
  {
    if selectedItemId.None? then None else Find(inbox, (x: InboxItem) => x.id == selectedItemId.value)
  }

  /** How an item can leave the dialog. */
  datatype Decision =
    | Discard
    | Someday(category: SomedayCategory)
    | DoNow
    | NextAction(context: Context)
    | Delegate(person: string)
    | NewProject

  /** The record a decision files the item's text as: none for trash and
      "done in two minutes", and none for a delegation to a blank person. */
  function Filing(content: string, d: Decision): (r: Option<StoreCall>)
    ensures r.None? <==> d.Discard? || d.DoNow? || (d.Delegate? && !IsFilled(d.person))
    ensures r.Some? ==> Creates(r.value, content)
  {
    match d
    case Discard => None
    case DoNow => None
    case Someday(category) => Some(AddSomedayMaybe(content, category))
    case NextAction(context) => Some(AddAction(content, context, None, None))
    case Delegate(person) => if IsFilled(person) then Some(AddWaitingFor(content, person, None, None)) else None
    case NewProject => Some(AddProject(content, None))
  }

  /** The calls the clarify flow should make for an item: trash and
      "done in two minutes" only delete it; every other decision creates
      one record from the item's content, then marks the item processed and
      deletes it. Delegating to a blank person is not possible. */
  function Clarify(item: InboxItem, d: Decision): (calls: seq<StoreCall>)
    ensures d.Delegate? && !IsFilled(d.person) <==> calls == []
    ensures calls != [] ==> calls[|calls| - 1] == DeleteInboxItem(item.id)
    ensures d.Discard? || d.DoNow? ==> calls == [DeleteInboxItem(item.id)]
    ensures !(d.Discard? || d.DoNow?) && calls != [] ==>
      |calls| == 3 && calls[1] == ProcessInboxItem(item.id) && Creates(calls[0], item.content)
  {
    if d.Discard? || d.DoNow? then [DeleteInboxItem(item.id)]
    else
      match Filing(item.content, d)
      case None => []
      case Some(call) => [call, ProcessInboxItem(item.id), DeleteInboxItem(item.id)]
  }

  /** `call` creates a record whose text is `text`. */
  predicate Creates(call: StoreCall, text: string)
  {
    || (call.AddSomedayMaybe? && call.content == text)
    || (call.AddAction? && call.content == text)
    || (call.AddWaitingFor? && call.content == text)
    || (call.AddProject? && call.name == text)
  }

  /** The component's state. */
  class InboxScreen {
    var newItem: string
    var selectedItemId: Option<Id>
    var processStep: Step
    var selectedContext: Context
    var selectedCategory: SomedayCategory
    var delegatePerson: string

    constructor ()
      ensures newItem == "" && selectedItemId.None? && processStep == Actionable
      ensures selectedContext == Anywhere && selectedCategory == Other && delegatePerson == ""
    {
      newItem, selectedItemId, processStep := "", None, Actionable;
      selectedContext, selectedCategory, delegatePerson := Anywhere, Other, "";
    }

    /** `handleAddItem`: captures the trimmed text, if any, and clears the
        field. */
    method HandleAddItem() returns (calls: seq<StoreCall>)
      modifies this
      ensures IsFilled(old(newItem)) ==> calls == [AddToInbox(Trim(old(newItem)))] && newItem == ""
      ensures !IsFilled(old(newItem)) ==> calls == [] && newItem == old(newItem)
      ensures selectedItemId == old(selectedItemId) && processStep == old(processStep)
      ensures selectedContext == old(selectedContext) && selectedCategory == old(selectedCategory)
      ensures delegatePerson == old(delegatePerson)
    {
      if !IsFilled(newItem) {
        return [];
      }
      calls := [AddToInbox(Trim(newItem))];
      newItem := "";
    }

    /** `openProcessDialog`: whatever the dialog was doing, it starts over
        at "is it actionable?" for this item. */
    method OpenProcessDialog(id: Id)
      modifies this
      ensures selectedItemId == Some(id) && processStep == Actionable
      ensures newItem == old(newItem) && selectedContext == old(selectedContext)
      ensures selectedCategory == old(selectedCategory) && delegatePerson == old(delegatePerson)
    {
      selectedItemId := Some(id);
      processStep := Actionable;
    }

    /** The "yes, actionable" button: on to the two-minute question, no
        store call. */
    method ConfirmActionable()
      modifies this
      ensures processStep == TwoMinute
      ensures newItem == old(newItem) && selectedItemId == old(selectedItemId) && selectedContext == old(selectedContext)
      ensures selectedCategory == old(selectedCategory) && delegatePerson == old(delegatePerson)
    {
      processStep := TwoMinute;
    }

    /** `handleNotActionable`: nothing without a selected item; trash only
        deletes; someday files the content under the chosen category, then
        marks the item processed and deletes it. */
    method HandleNotActionable(inbox: seq<InboxItem>, disposal: Disposal) returns (calls: seq<StoreCall>)
      ensures Selected(inbox, selectedItemId).None? ==> calls == []
      ensures Selected(inbox, selectedItemId).Some? && disposal == Trash ==> calls == [DeleteInboxItem(selectedItemId.value)]
      ensures Selected(inbox, selectedItemId).Some? && disposal == Incubate ==>
        calls == [AddSomedayMaybe(Selected(inbox, selectedItemId).value.content, selectedCategory),
                  ProcessInboxItem(selectedItemId.value), DeleteInboxItem(selectedItemId.value)]
    {
      var item := Selected(inbox, selectedItemId);
      if item.None? {
        return [];
      }
      var id := selectedItemId.value;
      if disposal == Trash {
        calls := [DeleteInboxItem(id)];
      } else {
        calls := [AddSomedayMaybe(item.value.content, selectedCategory), ProcessInboxItem(id), DeleteInboxItem(id)];
      }
    }

    /** `handleTwoMinute`: "do it now" deletes the selected item and
        creates nothing; "no" moves on to organize without a store call. */
    method HandleTwoMinute(canDoNow: bool) returns (calls: seq<StoreCall>)
      modifies this
      ensures canDoNow ==> (processStep == old(processStep)
        && calls == (if selectedItemId.Some? then [DeleteInboxItem(selectedItemId.value)] else []))
      ensures !canDoNow ==> processStep == Organize && calls == []
      ensures newItem == old(newItem) && selectedItemId == old(selectedItemId) && selectedContext == old(selectedContext)
      ensures selectedCategory == old(selectedCategory) && delegatePerson == old(delegatePerson)
    {
      if canDoNow {
        calls := if selectedItemId.Some? then [DeleteInboxItem(selectedItemId.value)] else [];
      } else {
        processStep := Organize;
        calls := [];
      }
    }

    /** `handleOrganize`: nothing without a selected item; otherwise an
        action in the chosen context, or a waiting-for on the person typed
        (no project), then the item is marked processed and deleted, and the
        person field is cleared. */
    method HandleOrganize(inbox: seq<InboxItem>, destination: Destination) returns (calls: seq<StoreCall>)
      modifies this
      ensures Selected(inbox, old(selectedItemId)).None? ==> calls == [] && delegatePerson == old(delegatePerson)
      ensures Selected(inbox, old(selectedItemId)).Some? ==> delegatePerson == ""
      ensures Selected(inbox, old(selectedItemId)).Some? ==>
        var item := Selected(inbox, old(selectedItemId)).value;
        calls == [if destination == AsAction then AddAction(item.content, old(selectedContext), None, None)
                  else AddWaitingFor(item.content, old(delegatePerson), None, None),
                  ProcessInboxItem(item.id), DeleteInboxItem(item.id)]
      ensures newItem == old(newItem) && selectedItemId == old(selectedItemId) && processStep == old(processStep)
      ensures selectedContext == old(selectedContext) && selectedCategory == old(selectedCategory)
    {
      var item := Selected(inbox, selectedItemId);
      if item.None? {
        return [];
      }
      var create := if destination == AsAction then AddAction(item.value.content, selectedContext, None, None)
                    else AddWaitingFor(item.value.content, delegatePerson, None, None);
      calls := [create, ProcessInboxItem(selectedItemId.value), DeleteInboxItem(selectedItemId.value)];
      delegatePerson := "";
    }

    /** `handleCreateProject`: a project named after the item, then the item
        is marked processed and deleted. */
    method HandleCreateProject(inbox: seq<InboxItem>) returns (calls: seq<StoreCall>)
      ensures Selected(inbox, selectedItemId).None? ==> calls == []
      ensures Selected(inbox, selectedItemId).Some? ==>
        calls == [AddProject(Selected(inbox, selectedItemId).value.content, None),
                  ProcessInboxItem(selectedItemId.value), DeleteInboxItem(selectedItemId.value)]
    {
      var item := Selected(inbox, selectedItemId);
      if item.None? {
        return [];
      }
      calls := [AddProject(item.value.content, None), ProcessInboxItem(selectedItemId.value), DeleteInboxItem(selectedItemId.value)];
    }

    /** One pass through the dialog for a listed item, pressing the buttons
        each step shows (the delegate button is disabled while the person
        is blank): the calls made are exactly the ones `Clarify` prescribes
        for the decision. */
    method ProcessItem(inbox: seq<InboxItem>, k: nat, d: Decision) returns (calls: seq<StoreCall>)
      requires k < |inbox|
      requires forall i :: 0 <= i < k ==> inbox[i].id != inbox[k].id
      modifies this
      ensures calls == Clarify(inbox[k], d)
    {
      var id := inbox[k].id;
      OpenProcessDialog(id);
      assert Selected(inbox, selectedItemId) == Some(inbox[k]) by {
        assert IndexOf(inbox, (x: InboxItem) => x.id == id) == k;
      }
      if d.Discard? || d.Someday? {
        calls := AnswerNotActionable(inbox, k, d);
      } else {
        ConfirmActionable();
        calls := AnswerActionable(inbox, k, d);
      }
    }

    /** The "not actionable" page, for the item at `k`. */
    method AnswerNotActionable(inbox: seq<InboxItem>, k: nat, d: Decision) returns (calls: seq<StoreCall>)
      requires k < |inbox| && Selected(inbox, selectedItemId) == Some(inbox[k])
      requires d.Discard? || d.Someday?
      modifies this
      ensures calls == Clarify(inbox[k], d)
    {
      if d.Discard? {
        calls := HandleNotActionable(inbox, Trash);
      } else {
        selectedCategory := d.category;
        calls := HandleNotActionable(inbox, Incubate);
        assert Filing(inbox[k].content, d) == Some(AddSomedayMaybe(inbox[k].content, d.category));
      }
    }

    /** The two-minute page and, when the answer is "no", the organize
        page, for the item at `k`. */
    method AnswerActionable(inbox: seq<InboxItem>, k: nat, d: Decision) returns (calls: seq<StoreCall>)
      requires k < |inbox| && Selected(inbox, selectedItemId) == Some(inbox[k])
      requires !(d.Discard? || d.Someday?)
      modifies this
      ensures calls == Clarify(inbox[k], d)
    {
      var item := inbox[k];
      if d.DoNow? {
        calls := HandleTwoMinute(true);
        return;
      }
      var none := HandleTwoMinute(false);
      if d.NextAction? {
        selectedContext := d.context;
        calls := HandleOrganize(inbox, AsAction);
        assert Filing(item.content, d) == Some(AddAction(item.content, d.context, None, None));
      } else if d.Delegate? {
        delegatePerson := d.person;
        if !IsFilled(d.person) {
          calls := [];
          assert Filing(item.content, d).None?;
        } else {
          calls := HandleOrganize(inbox, Delegated);
          assert Filing(item.content, d) == Some(AddWaitingFor(item.content, d.person, None, None));
        }
      } else {
        calls := HandleCreateProject(inbox);
        assert Filing(item.content, d) == Some(AddProject(item.content, None));
      }
    }
  }

  /** The listed items and the processed ones split the inbox. */
  lemma UnprocessedPartition(inbox: seq<InboxItem>)
    ensures |Unprocessed(inbox)| + Count(inbox, (x: InboxItem) => x.processed) == |inbox|
  {
    CountComplement(inbox, (x: InboxItem) => x.processed, (x: InboxItem) => !x.processed);
  }
}
