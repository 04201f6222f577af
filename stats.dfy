/** The history half of the statistics page (StatsPage.tsx): the run history fetched in
    pages of twenty and appended by "load more", the status filter, the duration text,
    and the set of expanded history items whose details are fetched on first expansion.
    The history service is not called: its answers arrive through `FinishFetchHistory`
    and `FinishDetails`. */
module Stats {
  import opened Common
  import opened Text
  import opened Types

  /** `ITEMS_PER_PAGE` of the history list. */
  const HistoryPageSize: nat := 20

  const HistoryLoadError: string := "Failed to load history."
  const DetailsLoadError: string := "Failed to load test plan details."

  /** The status filter buttons. */
  datatype StatusFilter = AllRuns | SuccessRuns | FailedRuns

  /** An error notice of the page (its only kind), with its `Date.now()` id. */
  datatype StatsNotice = StatsNotice(id: nat, message: string)

  // ------------------------------------------------------------------ the filter

  /** Whether `item` passes the filter: every item for "all", otherwise the items whose
      status is the filter's name. */
  predicate Passes(filter: StatusFilter, item: HistoryItem) {
    match filter
    case AllRuns => true
    case SuccessRuns => item.status == "success"
    case FailedRuns => item.status == "failed"
  }

  /** `filteredHistory`: the whole history for "all"; otherwise exactly the items with the
      chosen status, in history order. */
  function FilteredHistory(history: seq<HistoryItem>, filter: StatusFilter): (r: seq<HistoryItem>)
    ensures filter.AllRuns? ==> r == history
    ensures |r| <= |history|
    ensures filter.SuccessRuns? ==> forall h :: h in r <==> h in history && h.status == "success"
    ensures filter.FailedRuns? ==> forall h :: h in r <==> h in history && h.status == "failed"
  {
    var r := Filter(history, h => Passes(filter, h));
    if filter.AllRuns? then
      FilterKeepsAll(history, h => Passes(filter, h));
      r
    else r
  }

  /** Loading more history and then filtering shows the old filtered items followed by
      the new page's filtered items: the filter never reorders across pages. */
  lemma FilterAfterLoadMore(history: seq<HistoryItem>, page: seq<HistoryItem>, filter: StatusFilter)
    ensures FilteredHistory(history + page, filter) == FilteredHistory(history, filter) + FilteredHistory(page, filter)
  {
    FilterAppend(history, page, h => Passes(filter, h));
  }

  /** No item is both a success and a failure: the two filtered views together never
      exceed the history. */
  lemma StatusViewsDisjoint(history: seq<HistoryItem>)
    ensures |FilteredHistory(history, SuccessRuns)| + |FilteredHistory(history, FailedRuns)| <= |history|
    decreases |history|
  {
    if history != [] {
      StatusViewsDisjoint(history[1..]);
      assert history == [history[0]] + history[1..];
      FilterAfterLoadMore([history[0]], history[1..], SuccessRuns);
      FilterAfterLoadMore([history[0]], history[1..], FailedRuns);
    }
  }

  // ------------------------------------------------------------------ durations

  /** `formatDuration`: "N/A" for a missing or zero duration, whole seconds below a minute
      as "<s>s", and otherwise minutes and the remaining seconds as "<m>m <r>s". */
  function FormatDuration(duration: Option<int>): (r: string)
    ensures duration.None? || duration == Some(0) ==> r == "N/A"
    ensures duration.Some? && duration.value != 0 && duration.value < 60 ==> r == IntToString(duration.value) + "s"
    ensures duration.Some? && duration.value >= 60 ==>
      r == NatToString(duration.value / 60) + "m " + NatToString(duration.value % 60) + "s" &&
      60 * (duration.value / 60) + duration.value % 60 == duration.value && duration.value % 60 < 60
  {
    if duration.None? || duration.value == 0 then "N/A"
    else
      var s := duration.value;
      if s < 60 then IntToString(s) + "s"
      else NatToString(s / 60) + "m " + NatToString(s % 60) + "s"
  }

  /** Reads a positive duration back from its text: "<m>m <r>s" or "<s>s". */
  function ReadDuration(text: string): nat {
    if 'm' in text then
      var i := IndexOf(text, 'm');
      var rest := text[i + 1..];
      60 * DigitsValue(text[..i]) + (if |rest| >= 2 then DigitsValue(rest[1..|rest| - 1]) else 0)
    else if text == [] then 0
    else DigitsValue(text[..|text| - 1])
  }

  /** Digit text holds no 'm'. */
  lemma NoMInDigits(s: string)
    requires AllDigits(s)
    ensures 'm' !in s
  {
  }

  /** Every positive duration's text reads back as that duration: the minutes and the
      remaining seconds recombine to the total. */
  lemma FormatDurationReadsBack(seconds: nat)
    requires seconds >= 1
    ensures ReadDuration(FormatDuration(Some(seconds))) == seconds
  {
    var t := FormatDuration(Some(seconds));
    if seconds < 60 {
      var a := NatToString(seconds);
      NoMInDigits(a);
      assert t == a + "s";
      assert t[..|t| - 1] == a;
      DigitsValueOfNatToString(seconds);
    } else {
      var a, b := NatToString(seconds / 60), NatToString(seconds % 60);
      NoMInDigits(a);
      assert t == a + "m " + b + "s";
      assert t[|a|] == 'm';
      assert forall k :: 0 <= k < |a| ==> t[k] == a[k];
      var i := IndexOf(t, 'm');
      assert forall k :: 0 <= k < i ==> t[k] == t[..i][k];
      assert i == |a|;
      assert t[..i] == a;
      var rest := t[i + 1..];
      assert rest == " " + b + "s";
      assert rest[1..|rest| - 1] == b;
      DigitsValueOfNatToString(seconds / 60);
      DigitsValueOfNatToString(seconds % 60);
    }
  }

  // ------------------------------------------------------------------ expansion

  /** The expanded set after a toggle of `id`. */
  function Toggled(expanded: set<string>, id: string): (r: set<string>)
    ensures id in r <==> id !in expanded
    ensures forall x :: x != id ==> (x in r <==> x in expanded)
  {
    if id in expanded then expanded - {id} else expanded + {id}
  }

  /** Toggling an item twice leaves the expanded set as it was. */
  lemma ToggleTwiceRestores(expanded: set<string>, id: string)
    ensures Toggled(Toggled(expanded, id), id) == expanded
  {
  }

  /** `history.find(h => h.id === id)`: the position of the first item with that id. */
  function FindItem(history: seq<HistoryItem>, id: string): Option<nat> {
    FirstIndex(history, (h: HistoryItem) => h.id == id)
  }

  /** The history after the details of `id` arrive: every item with that id is replaced by
      them, the others stay, in place. */
  function ReplaceItem(history: seq<HistoryItem>, id: string, details: HistoryItem): (r: seq<HistoryItem>)
    ensures |r| == |history|
    ensures forall k :: 0 <= k < |r| ==> r[k] == if history[k].id == id then details else history[k]
  {
    seq(|history|, k requires 0 <= k < |history| => if history[k].id == id then details else history[k])
  }

  class StatsPage {
    var history: seq<HistoryItem>
    var isLoadingHistory: bool
    var notifications: seq<StatsNotice>
    var expandedItems: set<string>
    var loadingDetails: set<string>
    var historyPage: nat
    var hasMoreHistory: bool
    var statusFilter: StatusFilter

    /** The page as it mounts, before the first history page arrives. */
    constructor ()
      ensures history == [] && isLoadingHistory && notifications == []
      ensures expandedItems == {} && loadingDetails == {}
      ensures historyPage == 0 && hasMoreHistory && statusFilter == AllRuns
    {
      history := [];
      isLoadingHistory := true;
      notifications := [];
      expandedItems := {};
      loadingDetails := {};
      historyPage := 0;
      hasMoreHistory := true;
      statusFilter := AllRuns;
    }

    /** The items the list shows. */
    function Shown(): seq<HistoryItem>
      reads this
    {
      FilteredHistory(history, statusFilter)
    }

    /** `fetchHistory(page)` up to its await: loading, and the request is for twenty items
        from the page's first one. */
    method BeginFetchHistory(page: nat) returns (limit: nat, offset: nat)
      modifies this`isLoadingHistory
      ensures isLoadingHistory
      ensures limit == HistoryPageSize && offset == page * HistoryPageSize
    {
      isLoadingHistory := true;
      limit := HistoryPageSize;
      offset := page * HistoryPageSize;
    }

    /** The history service's answer (`None` when it threw). A page is appended or replaces
        the history, and more is offered exactly when the page was full; a failure leaves
        the history and adds an error notice. Loading is over either way. */
    method FinishFetchHistory(append: bool, answer: Option<seq<HistoryItem>>, noticeId: nat)
      modifies this`history, this`hasMoreHistory, this`notifications, this`isLoadingHistory
      ensures !isLoadingHistory
      ensures answer.Some? ==> history == (if append then old(history) + answer.value else answer.value)
      ensures answer.Some? ==> (hasMoreHistory <==> |answer.value| == HistoryPageSize) && notifications == old(notifications)
      ensures answer.None? ==> history == old(history) && hasMoreHistory == old(hasMoreHistory)
      ensures answer.None? ==> notifications == old(notifications) + [StatsNotice(noticeId, HistoryLoadError)]
    {
      if answer.Some? {
        if append {
          history := history + answer.value;
        } else {
          history := answer.value;
        }
        hasMoreHistory := |answer.value| == HistoryPageSize;
      } else {
        notifications := notifications + [StatsNotice(noticeId, HistoryLoadError)];
      }
      isLoadingHistory := false;
    }

    /** The "Load More" button, shown only while more history is offered and none is
        loading, and `loadMore`: a click on it requests the page exactly one past the
        current, to be appended, as a (limit, offset) pair; without the button nothing
        changes. */
    method LoadMore() returns (request: Option<(nat, nat)>)
      modifies this`historyPage, this`isLoadingHistory
      ensures request.Some? <==> old(hasMoreHistory && !isLoadingHistory)
      ensures request.None? ==> historyPage == old(historyPage) && isLoadingHistory == old(isLoadingHistory)
      ensures request.Some? ==> historyPage == old(historyPage) + 1 && isLoadingHistory
      ensures request.Some? ==> request.value == (HistoryPageSize, old(historyPage) * HistoryPageSize + HistoryPageSize)
    {
      if !hasMoreHistory || isLoadingHistory {
        return None;
      }
      historyPage := historyPage + 1;
      var limit, offset := BeginFetchHistory(historyPage);
      request := Some((limit, offset));
    }

    /** A status filter button. */
    method SetStatusFilter(filter: StatusFilter)
      modifies this`statusFilter
      ensures statusFilter == filter
    {
      statusFilter := filter;
    }

    /** Closing a notice removes every notice with its id. */
    method DismissNotification(id: nat)
      modifies this`notifications
      ensures notifications == Filter(old(notifications), (n: StatsNotice) => n.id != id)
      ensures forall n :: n in notifications <==> n in old(notifications) && n.id != id
    {
      notifications := Filter(notifications, (n: StatsNotice) => n.id != id);
    }

    /** `toggleExpand` up to its await: an expanded item collapses; a collapsed one expands
        and, when the first history item with its id has no test plan yet, its details are
        marked loading and fetched (the result is `true`). */
    method ToggleExpand(id: string) returns (fetch: bool)
      modifies this`expandedItems, this`loadingDetails
      ensures expandedItems == Toggled(old(expandedItems), id)
      ensures fetch <==> id !in old(expandedItems) && FindItem(history, id).Some? &&
                         history[FindItem(history, id).value].testPlan.None?
      ensures loadingDetails == if fetch then old(loadingDetails) + {id} else old(loadingDetails)
    {
      if id in expandedItems {
        expandedItems := expandedItems - {id};
        fetch := false;
      } else {
        expandedItems := expandedItems + {id};
        var item := FindItem(history, id);
        fetch := item.Some? && history[item.value].testPlan.None?;
        if fetch {
          loadingDetails := loadingDetails + {id};
        }
      }
    }

    /** The details' answer (`None` when it threw): they replace the items with that id, or
        an error notice is added; the id is no longer loading either way. */
    method FinishDetails(id: string, answer: Option<HistoryItem>, noticeId: nat)
      modifies this`history, this`notifications, this`loadingDetails
      ensures loadingDetails == old(loadingDetails) - {id}
      ensures answer.Some? ==> history == ReplaceItem(old(history), id, answer.value) && notifications == old(notifications)
      ensures answer.None? ==> history == old(history)
      ensures answer.None? ==> notifications == old(notifications) + [StatsNotice(noticeId, DetailsLoadError)]
    {
      if answer.Some? {
        history := ReplaceItem(history, id, answer.value);
      } else {
        notifications := notifications + [StatsNotice(noticeId, DetailsLoadError)];
      }
      loadingDetails := loadingDetails - {id};
    }
  }
}
