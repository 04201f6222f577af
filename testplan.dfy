/** The review page of a generated test plan (TestPlanPage.tsx) as an object whose
    handlers update its fields. Server calls are not made: each handler that awaits one
    takes its outcome as a parameter, and handlers whose in-flight state is visible
    (single and bulk upload) are split into the part before the call and the part after
    it. `Date.now()` values arrive as parameters (`now`, `noticeId`). */
module TestPlan {
  import opened Common
  import opened Text
  import opened Types
  import opened Paging
  import opened Collection
  import opened Reconcile

  /** The kinds of notification the page raises; `Warning` is raised by the reload
      fallback although the page's own type lists only the first three. */
  datatype NoticeKind = Success | Error | Info | Warning

  /** A queued notification; `offersUndo` stands for an `onUndo` callback. */
  datatype Notice = Notice(id: nat, message: string, kind: NoticeKind, offersUndo: bool)

  /** Notification.tsx: only a notification without an undo button dismisses itself. */
  predicate AutoDismisses(n: Notice) {
    !n.offersUndo
  }

  /** The queue after raising `n`: appended when notifications are switched on. */
  function Queued(notices: seq<Notice>, show: bool, n: Notice): (r: seq<Notice>)
    ensures show ==> r == notices + [n]
    ensures !show ==> r == notices
  {
    if show then notices + [n] else notices
  }

  /** `handleDismissNotification`: every notification with that id goes, the rest stay in
      order. */
  function WithoutNotice(notices: seq<Notice>, id: nat): (r: seq<Notice>)
    ensures forall n :: n in r <==> n in notices && n.id != id
  {
    Filter(notices, (n: Notice) => n.id != id)
  }

  /** The case waiting in the delete confirmation dialog. */
  datatype PendingDelete = PendingDelete(id: string, title: string)

  /** What the success banner shows after a bulk upload. */
  datatype UploadStats = UploadStats(count: nat, zephyrIds: seq<string>, folderPath: Option<string>)

  /** How the update-then-reload exchange of an edit ended: one of the two calls threw
      (with the error's text), or the reload answered, with or without test cases. */
  datatype UpdateOutcome = UpdateThrew(error: string) | Reply(testCases: Option<seq<ServerCase>>)

  /** How an upload call ended; a successful reply may lack `zephyr_results`. */
  datatype UploadOutcome = UploadFailed | UploadDone(results: Option<ZephyrResults>)

  /** `result.zephyr_results?.test_case_ids || []`. */
  function UploadedIds(results: Option<ZephyrResults>): seq<string> {
    if results.Some? && results.value.testCaseIds.Some? then results.value.testCaseIds.value else []
  }

  /** `result.zephyr_results?.uploaded_count || selectedCases.length`: a missing or zero
      count falls back to the number of cases sent. */
  function UploadedCount(results: Option<ZephyrResults>, sent: nat): (r: nat)
    ensures results.Some? && results.value.uploadedCount.Some? && results.value.uploadedCount.value != 0 ==>
      r == results.value.uploadedCount.value
    ensures results.None? || results.value.uploadedCount.None? || results.value.uploadedCount.value == 0 ==>
      r == sent
    ensures r == 0 ==> sent == 0
  {
    if results.Some? && results.value.uploadedCount.Some? && results.value.uploadedCount.value != 0
    then results.value.uploadedCount.value else sent
  }

  /** The ids of a list of cases. */
  function IdsOf(cases: seq<TestCase>): (r: set<string>)
    ensures forall i :: 0 <= i < |cases| ==> cases[i].id in r
  {
    set i | 0 <= i < |cases| :: cases[i].id
  }

  /** The ids of the selected cases are the ids of the list of selected cases. */
  lemma IdsOfSelected(cases: seq<TestCase>)
    ensures IdsOf(Filter(cases, IsSelectedCase)) == SelectedIds(cases)
  {
    var sel := Filter(cases, IsSelectedCase);
    forall x | x in SelectedIds(cases) ensures x in IdsOf(sel) {
      var i :| 0 <= i < |cases| && cases[i].isSelected && cases[i].id == x;
      assert cases[i] in sel;
      var j :| 0 <= j < |sel| && sel[j] == cases[i];
    }
    forall x | x in IdsOf(sel) ensures x in SelectedIds(cases) {
      var j :| 0 <= j < |sel| && sel[j].id == x;
      assert sel[j] in cases;
      var i :| 0 <= i < |cases| && cases[i] == sel[j];
    }
  }

  function RemovedMessage(title: string, serverOk: bool): string {
    if serverOk then "Removed: \"" + title + "\" and updated test plan."
    else "Removed: \"" + title + "\" locally, but failed to update test plan on server."
  }

  function DeletedMessage(n: nat, serverOk: bool): string {
    "Deleted " + NatToString(n) + " test case" + (if n > 1 then "s" else "")
    + (if serverOk then " and updated test plan." else " locally, but failed to update test plan on server.")
  }

  function UploadedMessage(title: string, n: nat): string {
    "Uploaded: \"" + title + "\" (" + NatToString(n) + " test cases)"
  }

  class TestPlanPage {
    const issueKey: string
    var testCases: seq<TestCase>
    var currentPage: nat
    var notifications: seq<Notice>
    var showNotifications: bool
    var highlightAssertions: bool
    var testCaseToDelete: Option<PendingDelete>
    var lastRemoved: Option<Removed>
    var showBulkDeleteModal: bool
    var showSuccessModal: bool
    var uploadStats: Option<UploadStats>
    var uploadingCardId: Option<string>
    var isBulkUploading: bool

    /** The page number is always a page (`useState(1)` and every later write keep it at
        least 1). */
    ghost predicate Valid()
      reads this
    {
      currentPage >= 1
    }

    /** The page shows one of the list's pages. */
    predicate PageInRange()
      reads this
    {
      InRange(currentPage, |testCases|)
    }

    constructor (initialTestCases: seq<TestCase>, key: string)
      ensures Valid() && PageInRange()
      ensures issueKey == key && testCases == initialTestCases && currentPage == 1
      ensures notifications == [] && showNotifications && highlightAssertions
      ensures testCaseToDelete.None? && lastRemoved.None? && !showBulkDeleteModal
      ensures !showSuccessModal && uploadStats.None? && uploadingCardId.None? && !isBulkUploading
    {
      issueKey := key;
      testCases := initialTestCases;
      currentPage := 1;
      notifications := [];
      showNotifications := true;
      highlightAssertions := true;
      testCaseToDelete := None;
      lastRemoved := None;
      showBulkDeleteModal := false;
      showSuccessModal := false;
      uploadStats := None;
      uploadingCardId := None;
      isBulkUploading := false;
    }

    // -------------------------------------------------------------- derived values

    /** `paginatedTestCases`. */
    function Paginated(): seq<TestCase>
      reads this
      requires Valid()
    {
      PageSlice(testCases, currentPage)
    }

    /** `!!uploadingCardId`: a single upload is in flight (an empty id reads as none). */
    predicate UploadingCard()
      reads this
    {
      uploadingCardId.Some? && uploadingCardId.value != ""
    }

    /** The action bar's `isUploading`: some upload is in flight. */
    predicate AnyUploading()
      reads this
    {
      isBulkUploading || UploadingCard()
    }

    /** The action bar's upload button is disabled with nothing selected or while any
        upload is in flight. */
    predicate BulkUploadDisabled()
      reads this
    {
      SelectedCount(testCases) == 0 || AnyUploading()
    }

    /** The pager is shown only when there is more than one page. */
    predicate ShowsPager()
      reads this
    {
      TotalPages(|testCases|) > 1
    }

    // -------------------------------------------------------------- notifications

    /** `triggerNotification`: queued only while notifications are switched on. */
    method Notify(message: string, kind: NoticeKind, offersUndo: bool, noticeId: nat)
      modifies this`notifications
      ensures notifications == Queued(old(notifications), showNotifications, Notice(noticeId, message, kind, offersUndo))
    {
      if showNotifications {
        notifications := notifications + [Notice(noticeId, message, kind, offersUndo)];
      }
    }

    method DismissNotification(id: nat)
      modifies this`notifications
      ensures notifications == WithoutNotice(old(notifications), id)
    {
      notifications := WithoutNotice(notifications, id);
    }

    /** The header's notification switch. */
    method ToggleNotifications()
      modifies this`showNotifications
      ensures showNotifications == !old(showNotifications)
    {
      showNotifications := !showNotifications;
    }

    /** The header's assertion-highlight switch. */
    method ToggleHighlightAssertions()
      modifies this`highlightAssertions
      ensures highlightAssertions == !old(highlightAssertions)
    {
      highlightAssertions := !highlightAssertions;
    }

    // -------------------------------------------------------------- paging and flags

    /** `handlePageChange`: follows only an in-range request. */
    method HandlePageChange(page: int)
      requires Valid()
      modifies this`currentPage
      ensures Valid()
      ensures currentPage == PageChange(old(currentPage), page, |testCases|)
      ensures old(PageInRange()) ==> PageInRange()
    {
      if 1 <= page && page <= TotalPages(|testCases|) {
        currentPage := page;
      }
    }

    method HandleToggleSelect(id: string)
      modifies this`testCases
      ensures testCases == ToggleSelect(old(testCases), id)
    {
      testCases := ToggleSelect(testCases, id);
    }

    method HandleToggleExpand(id: string)
      modifies this`testCases
      ensures testCases == ToggleExpand(old(testCases), id)
    {
      testCases := ToggleExpand(testCases, id);
    }

    method HandleSelectAll()
      modifies this`testCases
      ensures testCases == SetAllSelected(old(testCases), true)
      ensures |testCases| > 0 ==> AllSelected(testCases)
    {
      testCases := SetAllSelected(testCases, true);
      SelectAllThenCount(old(testCases));
    }

    method HandleUnselectAll()
      modifies this`testCases
      ensures testCases == SetAllSelected(old(testCases), false)
      ensures SelectedCount(testCases) == 0
    {
      testCases := SetAllSelected(testCases, false);
      SelectAllThenCount(old(testCases));
    }

    /** `handleToggleAllExpansion`: decided on the shown page, written to every case. */
    method HandleToggleAllExpansion()
      requires Valid()
      modifies this`testCases
      ensures testCases == ToggleAllExpansion(old(testCases), currentPage)
      ensures old(Paginated()) != [] ==> AllExpanded(Paginated()) == !old(AllExpanded(Paginated()))
    {
      if Paginated() != [] {
        ToggleAllFlipsPage(testCases, currentPage);
      }
      testCases := ToggleAllExpansion(testCases, currentPage);
    }

    // -------------------------------------------------------------- draft

    /** `handleAddNewTestCase`: the draft goes in front and the first page is shown,
        whatever the server answers; only the notification tells the outcome apart.
        Returns the list sent to the server. */
    method HandleAddNewTestCase(now: nat, serverOk: bool, noticeId: nat) returns (sent: seq<TestCase>)
      modifies this`testCases, this`currentPage, this`notifications
      ensures testCases == AddDraft(old(testCases), now) && sent == testCases
      ensures currentPage == 1 && PageInRange() && Paginated()[0] == DraftCase(now)
      ensures notifications == Queued(old(notifications), showNotifications,
        if serverOk then Notice(noticeId, "Added a new blank test case and updated test plan.", Success, false)
        else Notice(noticeId, "Added test case locally, but failed to update test plan on server.", Error, false))
    {
      testCases := AddDraft(testCases, now);
      currentPage := 1;
      sent := testCases;
      if serverOk {
        Notify("Added a new blank test case and updated test plan.", Success, false, noticeId);
      } else {
        Notify("Added test case locally, but failed to update test plan on server.", Error, false, noticeId);
      }
    }

    // -------------------------------------------------------------- single removal and undo

    /** `handleRemoveTestCase`: opens the confirmation dialog for that case. */
    method HandleRemoveTestCase(id: string, title: string)
      modifies this`testCaseToDelete
      ensures testCaseToDelete == Some(PendingDelete(id, title))
    {
      testCaseToDelete := Some(PendingDelete(id, title));
    }

    /** The dialog's cancel button. */
    method CancelRemove()
      modifies this`testCaseToDelete
      ensures testCaseToDelete.None?
    {
      testCaseToDelete := None;
    }

    /** `confirmRemove`. Without a pending case, or when no case has its id, nothing
        changes (the dialog stays open in the second case). Otherwise every case with the
        id is removed, the undo slot is overwritten with the first of them and its index,
        the page steps back when it fell off the end, a notification offering undo is
        queued and the dialog closes. With unique ids the page stays in range and undo
        restores the list. */
    method ConfirmRemove(serverOk: bool, noticeId: nat)
      requires Valid()
      modifies this`testCases, this`currentPage, this`lastRemoved, this`notifications, this`testCaseToDelete
      ensures Valid()
      ensures old(testCaseToDelete).None? || !HasId(old(testCases), old(testCaseToDelete).value.id) ==>
        testCases == old(testCases) && currentPage == old(currentPage) && lastRemoved == old(lastRemoved) &&
        notifications == old(notifications) && testCaseToDelete == old(testCaseToDelete)
      ensures old(testCaseToDelete).Some? && HasId(old(testCases), old(testCaseToDelete).value.id) ==>
        var p := old(testCaseToDelete).value;
        var k := FindIndex(old(testCases), p.id).value;
        && testCases == RemoveIds(old(testCases), {p.id})
        && lastRemoved == Some(Removed(old(testCases)[k], k))
        && currentPage == PageAfterRemove(old(currentPage), |testCases|)
        && notifications == Queued(old(notifications), showNotifications,
             Notice(noticeId, RemovedMessage(p.title, serverOk), if serverOk then Info else Error, true))
        && testCaseToDelete.None?
        && (old(UniqueIds(testCases)) ==> Restore(testCases, lastRemoved) == old(testCases))
        && (old(UniqueIds(testCases) && PageInRange()) ==> PageInRange())
    {
      if testCaseToDelete.None? {
        return;
      }
      var pending := testCaseToDelete.value;
      var removal := RemoveCase(testCases, pending.id);
      if removal.None? {
        return;
      }
      if UniqueIds(testCases) {
        UndoRestores(testCases, pending.id);
        RemoveOne(testCases, removal.value.1.index);
      }
      lastRemoved := Some(removal.value.1);
      testCases := removal.value.0;
      currentPage := PageAfterRemove(currentPage, |testCases|);
      Notify(RemovedMessage(pending.title, serverOk), if serverOk then Info else Error, true, noticeId);
      testCaseToDelete := None;
    }

    /** `handleUndoRemove`: re-inserts the slot's case at its index (clamped to the list's
        end) and empties the slot, so a second undo does nothing. */
    method HandleUndoRemove()
      modifies this`testCases, this`lastRemoved
      ensures testCases == Restore(old(testCases), old(lastRemoved))
      ensures lastRemoved.None?
    {
      if lastRemoved.Some? {
        testCases := InsertAt(testCases, lastRemoved.value.index, lastRemoved.value.testCase);
        lastRemoved := None;
      }
    }

    // -------------------------------------------------------------- bulk delete

    /** `handleBulkDelete`: with nothing selected an error is raised, otherwise the
        confirmation dialog opens. */
    method HandleBulkDelete(noticeId: nat)
      modifies this`notifications, this`showBulkDeleteModal
      ensures SelectedCount(testCases) == 0 ==>
        notifications == Queued(old(notifications), showNotifications,
          Notice(noticeId, "No test cases selected for deletion.", Error, false)) &&
        showBulkDeleteModal == old(showBulkDeleteModal)
      ensures SelectedCount(testCases) > 0 ==> notifications == old(notifications) && showBulkDeleteModal
    {
      if SelectedCount(testCases) == 0 {
        Notify("No test cases selected for deletion.", Error, false, noticeId);
        return;
      }
      showBulkDeleteModal := true;
    }

    method CancelBulkDelete()
      modifies this`showBulkDeleteModal
      ensures !showBulkDeleteModal
    {
      showBulkDeleteModal := false;
    }

    /** `confirmBulkDelete`: with nothing selected nothing changes; otherwise every case
        sharing an id with a selected case goes, the page is clamped into range, the count
        is reported and the dialog closes. With unique ids exactly the unselected cases
        remain, in order. */
    method ConfirmBulkDelete(serverOk: bool, noticeId: nat)
      requires Valid()
      modifies this`testCases, this`currentPage, this`notifications, this`showBulkDeleteModal
      ensures Valid()
      ensures old(SelectedCount(testCases)) == 0 ==>
        testCases == old(testCases) && currentPage == old(currentPage) &&
        notifications == old(notifications) && showBulkDeleteModal == old(showBulkDeleteModal)
      ensures old(SelectedCount(testCases)) > 0 ==>
        && testCases == RemoveIds(old(testCases), old(SelectedIds(testCases)))
        && currentPage == ClampPage(old(currentPage), |testCases|) && PageInRange()
        && notifications == Queued(old(notifications), showNotifications,
             Notice(noticeId, DeletedMessage(old(SelectedCount(testCases)), serverOk), if serverOk then Success else Error, false))
        && !showBulkDeleteModal
        && (old(UniqueIds(testCases)) ==> testCases == Filter(old(testCases), IsUnselectedCase))
    {
      var n := SelectedCount(testCases);
      if n == 0 {
        return;
      }
      if UniqueIds(testCases) {
        RemoveSelectedKeepsUnselected(testCases);
      }
      testCases := RemoveIds(testCases, SelectedIds(testCases));
      currentPage := ClampPage(currentPage, |testCases|);
      Notify(DeletedMessage(n, serverOk), if serverOk then Success else Error, false, noticeId);
      showBulkDeleteModal := false;
    }

    // -------------------------------------------------------------- edit

    /** `handleUpdateTestCase`. An unknown id raises an error and nothing is sent.
        Otherwise the edited list is sent (`sent`); when the exchange throws nothing
        changes locally; when the reload carries test cases the list is rebuilt from
        them; otherwise only title and text of the edited case change. */
    method HandleUpdateTestCase(id: string, newTitle: string, newSteps: string, outcome: UpdateOutcome, noticeId: nat)
      returns (sent: Option<seq<TestCase>>)
      modifies this`testCases, this`notifications
      ensures !HasId(old(testCases), id) ==>
        sent.None? && testCases == old(testCases) &&
        notifications == Queued(old(notifications), showNotifications, Notice(noticeId, "Test case not found.", Error, false))
      ensures HasId(old(testCases), id) ==> sent == Some(EditedCases(old(testCases), id, newTitle, newSteps))
      ensures HasId(old(testCases), id) && outcome.UpdateThrew? ==>
        testCases == old(testCases) &&
        notifications == Queued(old(notifications), showNotifications,
          Notice(noticeId, "Failed to update test plan on server: " + outcome.error, Error, false))
      ensures HasId(old(testCases), id) && outcome.Reply? && outcome.testCases.Some? ==>
        testCases == ReconcileCases(old(testCases), outcome.testCases.value, issueKey) &&
        notifications == Queued(old(notifications), showNotifications,
          Notice(noticeId, "Test case updated and test plan saved.", Success, false))
      ensures HasId(old(testCases), id) && outcome.Reply? && outcome.testCases.None? ==>
        testCases == LocalEdit(old(testCases), id, newTitle, newSteps) &&
        notifications == Queued(old(notifications), showNotifications,
          Notice(noticeId, "Test case updated, but failed to reload from server.", Warning, false))
    {
      if FindIndex(testCases, id).None? {
        Notify("Test case not found.", Error, false, noticeId);
        return None;
      }
      sent := Some(EditedCases(testCases, id, newTitle, newSteps));
      match outcome {
        case UpdateThrew(error) =>
          Notify("Failed to update test plan on server: " + error, Error, false, noticeId);
        case Reply(Some(servers)) =>
          testCases := ReconcileCases(testCases, servers, issueKey);
          Notify("Test case updated and test plan saved.", Success, false, noticeId);
        case Reply(None) =>
          testCases := LocalEdit(testCases, id, newTitle, newSteps);
          Notify("Test case updated, but failed to reload from server.", Warning, false, noticeId);
      }
    }

    // -------------------------------------------------------------- single upload

    /** The part of `handleUploadSingle` before the upload call: refused while any upload
        is in flight, otherwise the card is marked as uploading. */
    method BeginUploadSingle(tc: TestCase) returns (started: bool)
      modifies this`uploadingCardId
      ensures started <==> !old(AnyUploading())
      ensures started ==> uploadingCardId == Some(tc.id)
      ensures !started ==> uploadingCardId == old(uploadingCardId)
    {
      if isBulkUploading || UploadingCard() {
        return false;
      }
      uploadingCardId := Some(tc.id);
      started := true;
    }

    /** The part of `handleUploadSingle` after the call: on success the cases with the
        uploaded id leave the list and the page steps back if it fell off the end; on
        failure the list is untouched; either way the card is no longer uploading. */
    method FinishUploadSingle(tc: TestCase, outcome: UploadOutcome, noticeId: nat)
      requires Valid()
      modifies this`testCases, this`currentPage, this`notifications, this`uploadingCardId
      ensures Valid() && uploadingCardId.None?
      ensures outcome.UploadFailed? ==>
        testCases == old(testCases) && currentPage == old(currentPage) &&
        notifications == Queued(old(notifications), showNotifications,
          Notice(noticeId, "Failed to upload test case.", Error, false))
      ensures outcome.UploadDone? ==>
        && testCases == RemoveIds(old(testCases), {tc.id})
        && currentPage == PageAfterRemove(old(currentPage), |testCases|)
        && notifications == Queued(old(notifications), showNotifications,
             Notice(noticeId, UploadedMessage(tc.title, |UploadedIds(outcome.results)|), Success, false))
        && (old(UniqueIds(testCases) && PageInRange()) && tc in old(testCases) ==> PageInRange())
    {
      match outcome {
        case UploadFailed =>
          Notify("Failed to upload test case.", Error, false, noticeId);
        case UploadDone(results) =>
          Notify(UploadedMessage(tc.title, |UploadedIds(results)|), Success, false, noticeId);
          if UniqueIds(testCases) && tc in testCases {
            var k :| 0 <= k < |testCases| && testCases[k] == tc;
            RemoveOne(testCases, k);
          }
          testCases := RemoveIds(testCases, {tc.id});
          currentPage := PageAfterRemove(currentPage, |testCases|);
      }
      uploadingCardId := None;
    }

    // -------------------------------------------------------------- bulk upload

    /** The action bar's upload button, disabled with nothing selected or while any upload
        is in flight, and the part of `handleBulkUpload` before the upload call: a refused
        click changes nothing; otherwise the bulk upload is marked in flight and the
        selected cases, which are what gets sent, are returned. (The handler's own
        "No test cases selected for upload." error needs an empty selection, which the
        disabled button never lets through.) */
    method BeginBulkUpload() returns (sent: Option<seq<TestCase>>)
      modifies this`isBulkUploading
      ensures sent.None? <==> old(BulkUploadDisabled())
      ensures sent.None? ==> isBulkUploading == old(isBulkUploading)
      ensures sent.Some? ==> sent.value == Filter(testCases, IsSelectedCase) && sent.value != [] && isBulkUploading
    {
      if BulkUploadDisabled() {
        return None;
      }
      var selected := Filter(testCases, IsSelectedCase);
      isBulkUploading := true;
      sent := Some(selected);
    }

    /** The part of `handleBulkUpload` after the call: on success the banner shows the
        reported count (or the number sent), the cases sharing an id with a sent case leave
        the list and the page is clamped into range; on failure the list is untouched;
        either way the bulk upload is over. */
    method FinishBulkUpload(selected: seq<TestCase>, outcome: UploadOutcome, noticeId: nat)
      requires Valid()
      modifies this`testCases, this`currentPage, this`notifications, this`isBulkUploading,
        this`uploadStats, this`showSuccessModal
      ensures Valid() && !isBulkUploading
      ensures outcome.UploadFailed? ==>
        testCases == old(testCases) && currentPage == old(currentPage) &&
        uploadStats == old(uploadStats) && showSuccessModal == old(showSuccessModal) &&
        notifications == Queued(old(notifications), showNotifications,
          Notice(noticeId, "Failed to upload test cases. Please try again.", Error, false))
      ensures outcome.UploadDone? ==>
        && uploadStats == Some(UploadStats(UploadedCount(outcome.results, |selected|), UploadedIds(outcome.results),
             if outcome.results.Some? then outcome.results.value.folderPath else None))
        && showSuccessModal
        && testCases == RemoveIds(old(testCases), IdsOf(selected))
        && currentPage == ClampPage(old(currentPage), |testCases|) && PageInRange()
        && notifications == old(notifications)
        && (old(UniqueIds(testCases)) && selected == old(Filter(testCases, IsSelectedCase)) ==>
              testCases == Filter(old(testCases), IsUnselectedCase))
    {
      match outcome {
        case UploadFailed =>
          Notify("Failed to upload test cases. Please try again.", Error, false, noticeId);
        case UploadDone(results) =>
          uploadStats := Some(UploadStats(UploadedCount(results, |selected|), UploadedIds(results),
            if results.Some? then results.value.folderPath else None));
          showSuccessModal := true;
          if UniqueIds(testCases) && selected == Filter(testCases, IsSelectedCase) {
            IdsOfSelected(testCases);
            RemoveSelectedKeepsUnselected(testCases);
          }
          testCases := RemoveIds(testCases, IdsOf(selected));
          currentPage := ClampPage(currentPage, |testCases|);
      }
      isBulkUploading := false;
    }

    /** The banner's close button (and its "Create Another Test Plan" button, which also
        leaves the page). */
    method CloseSuccessModal()
      modifies this`showSuccessModal
      ensures !showSuccessModal
    {
      showSuccessModal := false;
    }
  }
}
