/** The to-do page: a "plan" checklist loaded from the single stored plan row
    (parallel `text` and `completed` arrays) and a list of custom tasks. Every
    handler ends by replacing one of the two local lists; the store calls it
    makes are reduced to whether they succeeded. */
module Todo {
  import opened Strings
  import opened Options
  import opened Lists

  datatype ItemType = Plan | Custom

  datatype TodoItem = TodoItem(id: string, text: string, completed: bool, itemType: ItemType)

  /** The key items are looked up by. */
  function IdOf(item: TodoItem): string { item.id }

  /** The stored plan row: one text and one completed flag per day. */
  datatype PlanRow = PlanRow(text: seq<string>, completed: seq<bool>)

  function Flip(item: TodoItem): (r: TodoItem)
    ensures r.id == item.id && r.text == item.text && r.itemType == item.itemType
    ensures r.completed == !item.completed
  {
    item.(completed := !item.completed)
  }

  /** The id given to the k-th plan item. */
  function PlanId(k: nat): (id: string)
    ensures |id| > 5 && id[..5] == "plan-"
    ensures forall i :: 5 <= i < |id| ==> IsDigit(id[i])
  {
    "plan-" + NatText(k)
  }

  /** Distinct positions get distinct ids. */
  lemma PlanIdInjective(j: nat, k: nat)
    requires PlanId(j) == PlanId(k)
    ensures j == k
  {
    assert NatText(j) == PlanId(j)[5..];
    assert NatText(k) == PlanId(k)[5..];
    NatTextInjective(j, k);
  }

  /** The k-th completed flag; a flag missing from a shorter array reads as
      unchecked. */
  function CompletedAt(completed: seq<bool>, k: nat): bool {
    k < |completed| && completed[k]
  }

  /** The `loadPlan` mapping: item k is "plan-k" with the k-th text and flag. */
  function LoadPlan(row: PlanRow): (items: seq<TodoItem>)
    ensures |items| == |row.text|
    ensures forall k :: 0 <= k < |items| ==>
              items[k].id == PlanId(k) && items[k].text == row.text[k]
              && items[k].completed == CompletedAt(row.completed, k) && items[k].itemType == Plan
  {
    seq(|row.text|, k requires 0 <= k < |row.text| =>
      TodoItem(PlanId(k), row.text[k], CompletedAt(row.completed, k), Plan))
  }

  /** A loaded plan never repeats an id, so lookups by id find the item meant. */
  lemma LoadPlanUniqueIds(row: PlanRow)
    ensures UniqueKeys(LoadPlan(row), IdOf)
  {
    var items := LoadPlan(row);
    forall i, j | 0 <= i < j < |items|
      ensures IdOf(items[i]) != IdOf(items[j])
    {
      if IdOf(items[i]) == IdOf(items[j]) {
        PlanIdInjective(i, j);
      }
    }
  }

  /** The `textArray`/`completedArray` pair written back to the store after a toggle. */
  function ToPlanRow(items: seq<TodoItem>): (row: PlanRow)
    ensures |row.text| == |items| == |row.completed|
    ensures forall k :: 0 <= k < |items| ==> row.text[k] == items[k].text && row.completed[k] == items[k].completed
  {
    PlanRow(seq(|items|, k requires 0 <= k < |items| => items[k].text),
            seq(|items|, k requires 0 <= k < |items| => items[k].completed))
  }

  /** Items that look as if they were loaded from a plan row: item k has id "plan-k". */
  predicate IsLoadedPlan(items: seq<TodoItem>) {
    forall k :: 0 <= k < |items| ==> items[k].id == PlanId(k) && items[k].itemType == Plan
  }

  /** Writing a loaded plan back and loading it again gives the same rows and items. */
  lemma PlanRowRoundTrip(row: PlanRow, items: seq<TodoItem>)
    requires |row.completed| == |row.text|
    requires IsLoadedPlan(items)
    ensures ToPlanRow(LoadPlan(row)) == row
    ensures LoadPlan(ToPlanRow(items)) == items
  {
    var back := ToPlanRow(LoadPlan(row));
    assert back.text == row.text;
    assert back.completed == row.completed;
  }

  /** `togglePlanItem`'s map: every item at a position up to `index` is flipped. */
  function TogglePrefix(items: seq<TodoItem>, index: int): (r: seq<TodoItem>)
    ensures |r| == |items|
    ensures forall i :: 0 <= i < |items| ==>
              r[i].id == items[i].id && r[i].text == items[i].text && r[i].itemType == items[i].itemType
    ensures forall i :: 0 <= i < |items| && i <= index ==> r[i].completed == !items[i].completed
    ensures forall i :: 0 <= i < |items| && i > index ==> r[i] == items[i]
  {
    seq(|items|, i requires 0 <= i < |items| =>
      items[i].(completed := if i <= index then !items[i].completed else items[i].completed))
  }

  /** The same toggle twice restores the list. */
  lemma TogglePrefixTwice(items: seq<TodoItem>, index: int)
    ensures TogglePrefix(TogglePrefix(items, index), index) == items
  {
    var twice := TogglePrefix(TogglePrefix(items, index), index);
    assert forall i :: 0 <= i < |items| ==> twice[i] == items[i];
  }

  /** A toggle keeps the text array the store holds and keeps both arrays aligned. */
  lemma TogglePrefixKeepsTexts(items: seq<TodoItem>, index: int)
    ensures ToPlanRow(TogglePrefix(items, index)).text == ToPlanRow(items).text
    ensures |ToPlanRow(TogglePrefix(items, index)).completed| == |ToPlanRow(items).text|
  {
  }

  /** The first `m` items checked and the rest not. */
  predicate CheckedUpTo(items: seq<TodoItem>, m: int) {
    forall i :: 0 <= i < |items| ==> items[i].completed == (i < m)
  }

  /** Starting from a plan whose first `m` days are checked, toggling a later
      day `index` leaves days `m..index` checked and unchecks the first `m`:
      the toggle flips, it does not extend. */
  lemma ToggleAfterCheckedPrefix(items: seq<TodoItem>, m: int, index: int)
    requires CheckedUpTo(items, m)
    requires m <= index
    ensures forall i :: 0 <= i < |items| ==>
              TogglePrefix(items, index)[i].completed == (m <= i <= index)
  {
  }

  /** Starting from an unchecked plan, toggling day `index` checks exactly the
      days up to it. */
  lemma ToggleFromUnchecked(items: seq<TodoItem>, index: int)
    requires CheckedUpTo(items, 0)
    ensures CheckedUpTo(TogglePrefix(items, index), index + 1)
  {
    if index >= 0 {
      ToggleAfterCheckedPrefix(items, 0, index);
    }
  }

  /** `toggleCustom`'s update: every item with the id is replaced by a flipped
      copy of the first such item; an unknown id changes nothing. */
  function ToggleById(items: seq<TodoItem>, id: string): (r: seq<TodoItem>)
    ensures |r| == |items|
    ensures forall i :: 0 <= i < |items| && items[i].id != id ==> r[i] == items[i]
    ensures FindFirst(items, IdOf, id).None? ==> r == items
    ensures FindFirst(items, IdOf, id).Some? ==>
              forall i :: 0 <= i < |items| && items[i].id == id ==> r[i] == Flip(FindFirst(items, IdOf, id).value)
  {
    match FindFirst(items, IdOf, id)
    case None => items
    case Some(item) =>
      seq(|items|, i requires 0 <= i < |items| => if items[i].id == id then Flip(item) else items[i])
  }

  /** With unique ids, toggling flips exactly the one item that has the id. */
  lemma ToggleByIdFlipsOne(items: seq<TodoItem>, k: nat)
    requires UniqueKeys(items, IdOf) && k < |items|
    ensures ToggleById(items, items[k].id) == items[k := Flip(items[k])]
  {
    var id := items[k].id;
    var found := FindFirst(items, IdOf, id);
    var j :| 0 <= j < |items| && items[j] == found.value && found.value.id == id
             && forall i :: 0 <= i < j ==> items[i].id != id;
    assert j == k;
    var r := ToggleById(items, id);
    assert forall i :: 0 <= i < |items| ==> r[i] == items[k := Flip(items[k])][i];
  }

  /** With unique ids, toggling the same item twice restores the list. */
  lemma ToggleByIdTwice(items: seq<TodoItem>, id: string)
    requires UniqueKeys(items, IdOf)
    ensures ToggleById(ToggleById(items, id), id) == items
  {
    if found :| 0 <= found < |items| && items[found].id == id {
      ToggleByIdFlipsOne(items, found);
      var once := items[found := Flip(items[found])];
      assert UniqueKeys(once, IdOf) by {
        assert forall i :: 0 <= i < |once| ==> once[i].id == items[i].id;
      }
      ToggleByIdFlipsOne(once, found);
      assert once[found := Flip(once[found])] == items;
    }
  }

  /** `deleteCustom`'s filter: drop every item with the id, keep the rest in order. */
  function DeleteById(items: seq<TodoItem>, id: string): (r: seq<TodoItem>)
    ensures |r| <= |items|
    ensures forall i :: 0 <= i < |r| ==> r[i].id != id && r[i] in items
    ensures forall i :: 0 <= i < |items| && items[i].id != id ==> items[i] in r
  {
    if |items| == 0 then []
    else
      var rest := DeleteById(items[1..], id);
      assert forall i :: 1 <= i < |items| ==> items[i] == items[1..][i - 1];
      if items[0].id == id then rest else [items[0]] + rest
  }

  /** Deleting distributes over concatenation, so the kept items stay in their order. */
  lemma {:induction false} DeleteByIdAppend(a: seq<TodoItem>, b: seq<TodoItem>, id: string)
    ensures DeleteById(a + b, id) == DeleteById(a, id) + DeleteById(b, id)
  {
    if |a| > 0 {
      assert (a + b)[1..] == a[1..] + b;
      DeleteByIdAppend(a[1..], b, id);
    } else {
      assert a + b == b;
    }
  }

  /** Deleting an id nobody has changes nothing. */
  lemma {:induction false} DeleteUnknownId(items: seq<TodoItem>, id: string)
    requires forall i :: 0 <= i < |items| ==> items[i].id != id
    ensures DeleteById(items, id) == items
  {
    if |items| > 0 {
      DeleteUnknownId(items[1..], id);
    }
  }

  /** Adding a task under a fresh id and deleting that id restores the list. */
  lemma AddThenDelete(items: seq<TodoItem>, added: TodoItem)
    requires forall i :: 0 <= i < |items| ==> items[i].id != added.id
    ensures DeleteById(items + [added], added.id) == items
  {
    DeleteByIdAppend(items, [added], added.id);
    DeleteUnknownId(items, added.id);
  }

  /** The page's local state. */
  class TodoPage {
    var planItems: seq<TodoItem>
    var customItems: seq<TodoItem>
    var newTask: string

    constructor ()
      ensures planItems == [] && customItems == [] && newTask == ""
    {
      planItems := [];
      customItems := [];
      newTask := "";
    }

    /** `loadPlan`: `rows` is what the store returned (None on error); only the
        oldest plan row is shown, and nothing changes without one. */
    method LoadPlanRows(signedIn: bool, rows: Option<seq<PlanRow>>)
      modifies this
      ensures signedIn && rows.Some? && |rows.value| > 0 ==> planItems == LoadPlan(rows.value[0])
      ensures !(signedIn && rows.Some? && |rows.value| > 0) ==> planItems == old(planItems)
      ensures customItems == old(customItems) && newTask == old(newTask)
    {
      if !signedIn { return; }
      if rows.None? || |rows.value| == 0 { return; }
      planItems := LoadPlan(rows.value[0]);
    }

    /** `togglePlanItem`; the write-back that follows is not awaited for its result. */
    method TogglePlanItem(signedIn: bool, index: int)
      modifies this
      ensures signedIn && |old(planItems)| > 0 ==> planItems == TogglePrefix(old(planItems), index)
      ensures !signedIn || |old(planItems)| == 0 ==> planItems == old(planItems)
      ensures customItems == old(customItems) && newTask == old(newTask)
    {
      if !signedIn || |planItems| == 0 { return; }
      planItems := TogglePrefix(planItems, index);
    }

    /** `resetPlanTodos`: the plan list is emptied whatever the delete returned. */
    method ResetPlanTodos(signedIn: bool)
      modifies this
      ensures signedIn ==> planItems == []
      ensures !signedIn ==> planItems == old(planItems)
      ensures customItems == old(customItems) && newTask == old(newTask)
    {
      if !signedIn { return; }
      planItems := [];
    }

    /** The task input's `onChange`. */
    method SetNewTask(text: string)
      modifies this
      ensures newTask == text
      ensures planItems == old(planItems) && customItems == old(customItems)
    {
      newTask := text;
    }

    /** `addNewTask`: `insertedId` is the id of the row the store created, or
        None when the insert failed. Blank input is ignored. */
    method AddNewTask(signedIn: bool, insertedId: Option<string>)
      modifies this
      ensures Trim(old(newTask)) != "" && signedIn && insertedId.Some? ==>
                customItems == old(customItems) + [TodoItem(insertedId.value, old(newTask), false, Custom)]
                && newTask == ""
      ensures !(Trim(old(newTask)) != "" && signedIn && insertedId.Some?) ==>
                customItems == old(customItems) && newTask == old(newTask)
      ensures planItems == old(planItems)
    {
      if Trim(newTask) == "" || !signedIn { return; }
      if insertedId.Some? {
        customItems := customItems + [TodoItem(insertedId.value, newTask, false, Custom)];
        newTask := "";
      }
    }

    /** `toggleCustom`. */
    method ToggleCustom(signedIn: bool, id: string)
      modifies this
      ensures signedIn ==> customItems == ToggleById(old(customItems), id)
      ensures !signedIn ==> customItems == old(customItems)
      ensures planItems == old(planItems) && newTask == old(newTask)
    {
      var item := FindFirst(customItems, IdOf, id);
      if item.None? || !signedIn { return; }
      customItems := ToggleById(customItems, id);
    }

    /** `deleteCustom`: the list is filtered whatever the delete returned. */
    method DeleteCustom(id: string)
      modifies this
      ensures customItems == DeleteById(old(customItems), id)
      ensures planItems == old(planItems) && newTask == old(newTask)
    {
      customItems := DeleteById(customItems, id);
    }
  }
}
