/** The list operations of the test-plan page (TestPlanPage.tsx) on the ordered list of
    test cases: the per-case selection and expansion flags, the draft inserted at the
    head, removal by id with its one-slot undo, and removal of a set of ids. */
module Collection {
  import opened Common
  import opened Text
  import opened Types
  import opened Paging

  // ------------------------------------------------------------------ flags

  /** `handleToggleSelect(id)`: flips `isSelected` on the cases with that id and on no
      other; nothing else about the list changes. */
  function ToggleSelect(cases: seq<TestCase>, id: string): (r: seq<TestCase>)
    ensures |r| == |cases|
    ensures forall i :: 0 <= i < |r| ==> r[i].(isSelected := cases[i].isSelected) == cases[i]
    ensures forall i :: 0 <= i < |r| ==> (r[i].isSelected != cases[i].isSelected <==> cases[i].id == id)
  {
    seq(|cases|, i requires 0 <= i < |cases| =>
      if cases[i].id == id then cases[i].(isSelected := !cases[i].isSelected) else cases[i])
  }

  /** `handleToggleExpand(id)`: flips `isExpanded` on the cases with that id and on no
      other; nothing else about the list changes. */
  function ToggleExpand(cases: seq<TestCase>, id: string): (r: seq<TestCase>)
    ensures |r| == |cases|
    ensures forall i :: 0 <= i < |r| ==> r[i].(isExpanded := cases[i].isExpanded) == cases[i]
    ensures forall i :: 0 <= i < |r| ==> (r[i].isExpanded != cases[i].isExpanded <==> cases[i].id == id)
  {
    seq(|cases|, i requires 0 <= i < |cases| =>
      if cases[i].id == id then cases[i].(isExpanded := !cases[i].isExpanded) else cases[i])
  }

  /** Toggling the same case twice restores the list. */
  lemma ToggleTwiceRestores(cases: seq<TestCase>, id: string)
    ensures ToggleSelect(ToggleSelect(cases, id), id) == cases
    ensures ToggleExpand(ToggleExpand(cases, id), id) == cases
  {
    var s := ToggleSelect(ToggleSelect(cases, id), id);
    assert forall i :: 0 <= i < |cases| ==> s[i] == cases[i];
    var e := ToggleExpand(ToggleExpand(cases, id), id);
    assert forall i :: 0 <= i < |cases| ==> e[i] == cases[i];
  }

  /** `handleSelectAll` (`b` true) and `handleUnselectAll` (`b` false). */
  function SetAllSelected(cases: seq<TestCase>, b: bool): (r: seq<TestCase>)
    ensures |r| == |cases|
    ensures forall i :: 0 <= i < |r| ==> r[i].isSelected == b && r[i].(isSelected := cases[i].isSelected) == cases[i]
  {
    seq(|cases|, i requires 0 <= i < |cases| => cases[i].(isSelected := b))
  }

  /** Every case's `isExpanded` set to `b`, nothing else changed. */
  function SetAllExpanded(cases: seq<TestCase>, b: bool): (r: seq<TestCase>)
    ensures |r| == |cases|
    ensures forall i :: 0 <= i < |r| ==> r[i].isExpanded == b && r[i].(isExpanded := cases[i].isExpanded) == cases[i]
  {
    seq(|cases|, i requires 0 <= i < |cases| => cases[i].(isExpanded := b))
  }

  /** `allExpanded`: the shown page is not empty and every case on it is expanded. */
  predicate AllExpanded(page: seq<TestCase>) {
    |page| > 0 && forall i :: 0 <= i < |page| ==> page[i].isExpanded
  }

  /** `handleToggleAllExpansion`: the decision is taken on the shown page only, and the
      result is written to every case of the whole list. */
  function ToggleAllExpansion(cases: seq<TestCase>, page: nat): (r: seq<TestCase>)
    requires page >= 1
    ensures |r| == |cases|
    ensures forall i :: 0 <= i < |r| ==>
      r[i].isExpanded == !AllExpanded(PageSlice(cases, page)) &&
      r[i].(isExpanded := cases[i].isExpanded) == cases[i]
  {
    SetAllExpanded(cases, !AllExpanded(PageSlice(cases, page)))
  }

  /** On a page that shows cases, the toggle flips the page's `allExpanded`: a fully
      expanded page collapses, any other page becomes fully expanded. */
  lemma ToggleAllFlipsPage(cases: seq<TestCase>, page: nat)
    requires page >= 1 && PageSlice(cases, page) != []
    ensures AllExpanded(PageSlice(ToggleAllExpansion(cases, page), page)) == !AllExpanded(PageSlice(cases, page))
  {
    var r := ToggleAllExpansion(cases, page);
    var before := PageSlice(cases, page);
    var after := PageSlice(r, page);
    assert |after| == |before|;
    assert after[0].isExpanded == !AllExpanded(before);
    if !AllExpanded(before) {
      assert forall i :: 0 <= i < |after| ==> after[i] == r[PageStart(page) + i];
    }
  }

  /** The toggle's label as written: the same text whichever way the button will act. */
  function ToggleAllLabelAsWritten(allExpanded: bool): string {
    if allExpanded then "Collapse All" else "Collapse All"
  }

  /** On a page with a collapsed case the button as written reads "Collapse All" although
      clicking it expands every case. */
  lemma ToggleAllLabelMisleads(c: TestCase)
    requires !c.isExpanded
    ensures ToggleAllLabelAsWritten(AllExpanded(PageSlice([c], 1))) == "Collapse All"
    ensures ToggleAllExpansion([c], 1)[0].isExpanded
  {
    assert PageSlice([c], 1) == [c];
  }

  /** The label the icon beside it evidently means: it names what a click will do. */
  function ToggleAllLabel(cases: seq<TestCase>, page: nat): (r: string)
    requires page >= 1
    ensures r == "Expand All" <==> |cases| > 0 && forall i :: 0 <= i < |cases| ==> ToggleAllExpansion(cases, page)[i].isExpanded
    ensures r == "Collapse All" <==> |cases| > 0 && forall i :: 0 <= i < |cases| ==> !ToggleAllExpansion(cases, page)[i].isExpanded
  {
    if |cases| == 0 then ""
    else
      assert ToggleAllExpansion(cases, page)[0].isExpanded == !AllExpanded(PageSlice(cases, page));
      if AllExpanded(PageSlice(cases, page)) then "Collapse All" else "Expand All"
  }

  // ------------------------------------------------------------------ counts

  predicate IsSelectedCase(c: TestCase) {
    c.isSelected
  }

  predicate IsUnselectedCase(c: TestCase) {
    !c.isSelected
  }

  /** `selectedCount`. */
  function SelectedCount(cases: seq<TestCase>): (r: nat)
    ensures r <= |cases|
    ensures r == 0 <==> forall i :: 0 <= i < |cases| ==> !cases[i].isSelected
  {
    var sel := Filter(cases, IsSelectedCase);
    assert sel != [] ==> sel[0] in cases && sel[0].isSelected;
    assert forall i :: 0 <= i < |cases| && cases[i].isSelected ==> cases[i] in sel;
    |sel|
  }

  /** `allSelected`: there are cases and every one of them is selected. */
  predicate AllSelected(cases: seq<TestCase>) {
    |cases| > 0 && SelectedCount(cases) == |cases|
  }

  /** `allSelected` holds exactly when the list is non-empty and no case is unselected;
      so "Select All" is offered exactly when some case is unselected. */
  lemma AllSelectedIff(cases: seq<TestCase>)
    ensures AllSelected(cases) <==> |cases| > 0 && forall i :: 0 <= i < |cases| ==> cases[i].isSelected
  {
    FilterFullIff(cases, IsSelectedCase);
  }

  /** After "Select All" every case is selected; after "Unselect All" none is. */
  lemma SelectAllThenCount(cases: seq<TestCase>)
    ensures |cases| > 0 ==> AllSelected(SetAllSelected(cases, true))
    ensures SelectedCount(SetAllSelected(cases, false)) == 0
  {
    AllSelectedIff(SetAllSelected(cases, true));
  }

  // ------------------------------------------------------------------ draft

  /** The id prefix of a case added by hand. */
  const DraftPrefix: string := "TC-MANUAL-"

  /** The three placeholder lines of a new case. */
  const DraftSteps: string := "1. \n2. \n3. Verify Result: "

  /** Three separator-free pieces joined by line feeds split back into those pieces. */
  lemma SplitThree(a: string, b: string, c: string)
    requires '\n' !in a && '\n' !in b && '\n' !in c
    ensures Split(a + ['\n'] + b + ['\n'] + c, '\n') == [a, b, c]
  {
    assert a + ['\n'] + b + ['\n'] + c == a + ['\n'] + (b + ['\n'] + c);
    SplitFirst(a, b + ['\n'] + c, '\n');
    SplitFirst(b, c, '\n');
  }

  /** The draft text splits into its three numbered lines. */
  lemma DraftLines()
    ensures Split(DraftSteps, '\n') == ["1. ", "2. ", "3. Verify Result: "]
  {
    var a, b, c := "1. ", "2. ", "3. Verify Result: ";
    assert DraftSteps == a + ['\n'] + b + ['\n'] + c;
    SplitThree(a, b, c);
  }

  /** The case `handleAddNewTestCase` creates at time `now` (milliseconds). */
  function DraftCase(now: nat): (r: TestCase)
    ensures StartsWith(r.id, DraftPrefix) && r.id[|DraftPrefix|..] == NatToString(now)
    ensures r.title == "New Manual Test Case" && r.steps == DraftSteps
    ensures !r.isSelected && r.isExpanded
    ensures r.stepsArray.Some? && |r.stepsArray.value| == 3
    ensures forall i :: 0 <= i < 3 ==> r.stepsArray.value[i].stepNumber == i + 1
    ensures forall i :: 0 <= i < 3 ==> r.stepsArray.value[i].expectedResult == ""
    ensures r.stepsArray.value[0].action == "" && r.stepsArray.value[1].action == ""
    ensures r.stepsArray.value[2].action == "Verify Result"
  {
    var r := TestCase(
      DraftPrefix + NatToString(now), "New Manual Test Case", None, None, None, DraftSteps,
      Some([TestStep(1, "", ""), TestStep(2, "", ""), TestStep(3, "Verify Result", "")]),
      None, None, None, false, true);
    assert r.id[..|DraftPrefix|] == DraftPrefix;
    r
  }

  /** The list after adding a draft: exactly one new case in front, the rest as before. */
  function AddDraft(cases: seq<TestCase>, now: nat): (r: seq<TestCase>)
    ensures |r| == |cases| + 1 && r[1..] == cases
    ensures StartsWith(r[0].id, DraftPrefix) && !r[0].isSelected && r[0].isExpanded
  {
    [DraftCase(now)] + cases
  }

  // ------------------------------------------------------------------ removal

  /** `findIndex(tc => tc.id === id)`: the first position holding that id. */
  function FindIndex(cases: seq<TestCase>, id: string): (r: Option<nat>)
    ensures r.None? <==> !HasId(cases, id)
    ensures r.Some? ==> r.value < |cases| && cases[r.value].id == id
    ensures r.Some? ==> forall j :: 0 <= j < r.value ==> cases[j].id != id
  {
    if cases == [] then None
    else if cases[0].id == id then Some(0)
    else
      var rest := FindIndex(cases[1..], id);
      if rest.Some? then Some(rest.value + 1)
      else
        assert forall i :: 1 <= i < |cases| ==> cases[i] == cases[1..][i - 1];
        None
  }

  /** `filter(tc => !ids.has(tc.id))`: the cases whose id is not in `ids`, in order. */
  function RemoveIds(cases: seq<TestCase>, ids: set<string>): (r: seq<TestCase>)
    ensures |r| <= |cases|
    ensures forall i :: 0 <= i < |r| ==> r[i].id !in ids
  {
    if cases == [] then []
    else (if cases[0].id in ids then [] else [cases[0]]) + RemoveIds(cases[1..], ids)
  }

  /** The removal keeps every case whose id is not listed and nothing else. */
  lemma {:induction false} RemoveIdsMembers(cases: seq<TestCase>, ids: set<string>)
    ensures forall c :: c in RemoveIds(cases, ids) <==> c in cases && c.id !in ids
  {
    if cases != [] {
      RemoveIdsMembers(cases[1..], ids);
      assert forall c :: c in cases <==> c == cases[0] || c in cases[1..];
    }
  }

  /** Removal distributes over concatenation, so the kept cases keep their order. */
  lemma {:induction false} RemoveIdsAppend(a: seq<TestCase>, b: seq<TestCase>, ids: set<string>)
    ensures RemoveIds(a + b, ids) == RemoveIds(a, ids) + RemoveIds(b, ids)
  {
    if a == [] {
      assert a + b == b;
    } else {
      assert (a + b)[1..] == a[1..] + b;
      RemoveIdsAppend(a[1..], b, ids);
    }
  }

  /** Nothing is removed when no case carries one of the ids. */
  lemma {:induction false} RemoveIdsAbsent(cases: seq<TestCase>, ids: set<string>)
    requires forall i :: 0 <= i < |cases| ==> cases[i].id !in ids
    ensures RemoveIds(cases, ids) == cases
  {
    if cases != [] {
      RemoveIdsAbsent(cases[1..], ids);
    }
  }

  /** Removing the id at position `k` removes exactly that case when no other case has
      that id. */
  lemma {:induction false} RemoveOnly(cases: seq<TestCase>, k: nat)
    requires k < |cases|
    requires forall i :: 0 <= i < |cases| && i != k ==> cases[i].id != cases[k].id
    ensures RemoveIds(cases, {cases[k].id}) == cases[..k] + cases[k + 1..]
  {
    var tail := cases[1..];
    if k == 0 {
      forall i | 0 <= i < |tail| ensures tail[i].id !in {cases[0].id} {
        assert tail[i] == cases[i + 1];
      }
      RemoveIdsAbsent(tail, {cases[0].id});
    } else {
      assert tail[k - 1] == cases[k];
      forall i | 0 <= i < |tail| && i != k - 1 ensures tail[i].id != tail[k - 1].id {
        assert tail[i] == cases[i + 1];
      }
      RemoveOnly(tail, k - 1);
      assert cases[..k] == [cases[0]] + tail[..k - 1];
      assert tail[k..] == cases[k + 1..];
    }
  }

  /** With unique ids, removing the id at position `k` removes exactly that case. */
  lemma RemoveOne(cases: seq<TestCase>, k: nat)
    requires UniqueIds(cases) && k < |cases|
    ensures RemoveIds(cases, {cases[k].id}) == cases[..k] + cases[k + 1..]
  {
    RemoveOnly(cases, k);
  }

  /** `splice(index, 0, x)`: `x` inserted at `index`, clamped to the end of the list. */
  function InsertAt(cases: seq<TestCase>, index: nat, x: TestCase): (r: seq<TestCase>)
    ensures |r| == |cases| + 1
    ensures var k := if index <= |cases| then index else |cases|;
      r[k] == x && r[..k] == cases[..k] && r[k + 1..] == cases[k..]
  {
    var k := if index <= |cases| then index else |cases|;
    var r := cases[..k] + [x] + cases[k..];
    assert r[..k] == cases[..k];
    assert r[k + 1..] == cases[k..];
    r
  }

  /** The undo slot `lastRemoved`: the removed case and the index it had. */
  datatype Removed = Removed(testCase: TestCase, index: nat)

  /** The list and undo slot `confirmRemove` leaves behind for a pending id, or `None`
      when no case has that id. */
  function RemoveCase(cases: seq<TestCase>, id: string): (r: Option<(seq<TestCase>, Removed)>)
    ensures r.None? <==> !HasId(cases, id)
    ensures r.Some? ==> r.value.0 == RemoveIds(cases, {id}) && !HasId(r.value.0, id)
    ensures r.Some? ==> var k := r.value.1.index; k < |cases| && cases[k].id == id && r.value.1.testCase == cases[k]
    ensures r.Some? ==> forall j :: 0 <= j < r.value.1.index ==> cases[j].id != id
  {
    match FindIndex(cases, id)
    case None => None
    case Some(k) => Some((RemoveIds(cases, {id}), Removed(cases[k], k)))
  }

  /** `handleUndoRemove` on a slot: re-inserts the slot's case, or leaves the list alone
      when the slot is empty. */
  function Restore(cases: seq<TestCase>, slot: Option<Removed>): (r: seq<TestCase>)
    ensures slot.None? ==> r == cases
    ensures slot.Some? ==> |r| == |cases| + 1
    ensures slot.Some? ==> var k := if slot.value.index <= |cases| then slot.value.index else |cases|;
      r[..k] == cases[..k] && r[k] == slot.value.testCase && r[k + 1..] == cases[k..]
  {
    match slot
    case None => cases
    case Some(s) => InsertAt(cases, s.index, s.testCase)
  }

  /** Undo completes the removal: with unique ids, re-inserting the slot's case into the
      shortened list gives back the list as it was. */
  lemma UndoRestores(cases: seq<TestCase>, id: string)
    requires UniqueIds(cases) && HasId(cases, id)
    ensures RemoveCase(cases, id).Some? &&
      Restore(RemoveCase(cases, id).value.0, Some(RemoveCase(cases, id).value.1)) == cases
  {
    var k := FindIndex(cases, id).value;
    RemoveOne(cases, k);
    var rest := cases[..k] + cases[k + 1..];
    var r := InsertAt(rest, k, cases[k]);
    assert rest[..k] == cases[..k];
    assert rest[k..] == cases[k + 1..];
    assert r == r[..k] + [r[k]] + r[k + 1..];
    assert cases == cases[..k] + [cases[k]] + cases[k + 1..];
  }

  /** The undo offered by the removal notification, as written: it runs with the slot as
      it was before this removal (`slotBefore`), not the slot the removal just wrote. */
  function NotificationUndoAsWritten(cases: seq<TestCase>, id: string, slotBefore: Option<Removed>): seq<TestCase>
    requires HasId(cases, id)
  {
    Restore(RemoveCase(cases, id).value.0, slotBefore)
  }

  /** After a first removal (the slot was empty) the notification's undo leaves the case
      removed. */
  lemma StaleUndoLosesCase(cases: seq<TestCase>, id: string)
    requires HasId(cases, id)
    ensures NotificationUndoAsWritten(cases, id, None) != cases
    ensures !HasId(NotificationUndoAsWritten(cases, id, None), id)
  {
  }

  // ------------------------------------------------------------------ bulk removal

  /** `new Set(selectedCases.map(tc => tc.id))`. */
  function SelectedIds(cases: seq<TestCase>): (r: set<string>)
    ensures forall i :: 0 <= i < |cases| && cases[i].isSelected ==> cases[i].id in r
    ensures forall x :: x in r ==> exists i :: 0 <= i < |cases| && cases[i].isSelected && cases[i].id == x
  {
    set i | 0 <= i < |cases| && cases[i].isSelected :: cases[i].id
  }

  /** Two id sets that agree on every id of the list remove the same cases. */
  lemma {:induction false} RemoveIdsAgree(cases: seq<TestCase>, a: set<string>, b: set<string>)
    requires forall i :: 0 <= i < |cases| ==> (cases[i].id in a <==> cases[i].id in b)
    ensures RemoveIds(cases, a) == RemoveIds(cases, b)
  {
    if cases != [] {
      RemoveIdsAgree(cases[1..], a, b);
    }
  }

  /** With unique ids, removing the selected ids (bulk delete, bulk upload) keeps exactly
      the unselected cases, in order. */
  lemma {:induction false} RemoveSelectedKeepsUnselected(cases: seq<TestCase>)
    requires UniqueIds(cases)
    ensures RemoveIds(cases, SelectedIds(cases)) == Filter(cases, IsUnselectedCase)
  {
    if cases != [] {
      var tail := cases[1..];
      assert UniqueIds(tail);
      RemoveSelectedKeepsUnselected(tail);
      forall i | 0 <= i < |tail|
        ensures tail[i].id in SelectedIds(cases) <==> tail[i].id in SelectedIds(tail)
      {
        if tail[i].id in SelectedIds(cases) {
          var j :| 0 <= j < |cases| && cases[j].isSelected && cases[j].id == tail[i].id;
          assert j == i + 1;
        }
      }
      RemoveIdsAgree(tail, SelectedIds(cases), SelectedIds(tail));
    }
  }
}
