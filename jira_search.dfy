/** The story search page (JiraSearchPage.tsx): a query box whose debounced search fills a
    dropdown of stories, the selected story, and the generate button that starts a
    generation through the shared provider. The search service is not called: its answer
    arrives through `FinishSearch`; the 300 ms debounce is the gap between `SearchEffect`
    and `BeginSearch`. */
module JiraSearch {
  import opened Common
  import opened Text
  import opened Types
  import opened Generation

  /** The effect's early exit: no search for a blank query, nor for the query that is the
      selected story's own title. */
  predicate SearchSuppressed(query: string, selected: Option<JiraStory>) {
    IsBlank(query) || (selected.Some? && selected.value.title == query)
  }

  /** Once a story is selected its title is the query, so no search follows; a blank
      title would be suppressed anyway. */
  lemma SelectionSuppressesSearch(story: JiraStory)
    ensures SearchSuppressed(story.title, Some(story))
  {
  }

  /** With no selection (as after every edit of the query), exactly the non-blank queries
      are searched. */
  lemma EditedQuerySearchedIffNotBlank(query: string)
    ensures !SearchSuppressed(query, None) <==> exists i :: 0 <= i < |query| && !IsSpace(query[i])
  {
    BlankIffAllSpace(query);
  }

  /** `!selectedStory || isGenerating`: the generate button's disabled state, which is
      also the handler's early return. */
  predicate GenerateDisabled(selected: Option<JiraStory>, isGenerating: bool) {
    selected.None? || isGenerating
  }

  /** The arguments `handleGenerate` forwards for `story`: its id as the issue key, the
      upload flag, the project key only when uploading, and the folder id only when it is
      not empty. */
  function GenerateArgs(story: JiraStory, uploadToZephyr: bool, projectKey: string, folderId: string): (r: GenerateRequest)
    ensures r.issueKey == story.id && r.uploadToZephyr == uploadToZephyr
    ensures r.projectKey.Some? <==> uploadToZephyr
    ensures r.projectKey.Some? ==> r.projectKey.value == projectKey
    ensures r.folderId.None? <==> folderId == ""
    ensures r.folderId.Some? ==> r.folderId.value == folderId
  {
    GenerateRequest(story.id, uploadToZephyr,
      if uploadToZephyr then Some(projectKey) else None,
      if folderId != "" then Some(folderId) else None)
  }

  class JiraSearchPage {
    var query: string
    var results: seq<JiraStory>
    var selectedStory: Option<JiraStory>
    var isSearching: bool
    var isDropdownVisible: bool
    var uploadToZephyr: bool
    var projectKey: string
    var folderId: string

    /** The page as it mounts: empty query, no results, nothing selected, no upload. */
    constructor ()
      ensures query == "" && results == [] && selectedStory.None?
      ensures !isSearching && !isDropdownVisible
      ensures !uploadToZephyr && projectKey == "" && folderId == ""
    {
      query := "";
      results := [];
      selectedStory := None;
      isSearching := false;
      isDropdownVisible := false;
      uploadToZephyr := false;
      projectKey := "";
      folderId := "";
    }

    /** The search effect, run after the query or the selection changed. When the search
        is suppressed the results are emptied and the dropdown hidden; otherwise nothing
        changes yet and a search is scheduled. */
    method SearchEffect() returns (scheduled: bool)
      modifies this`results, this`isDropdownVisible
      ensures scheduled <==> !SearchSuppressed(query, selectedStory)
      ensures !scheduled ==> results == [] && !isDropdownVisible
      ensures scheduled ==> results == old(results) && isDropdownVisible == old(isDropdownVisible)
    {
      if IsBlank(query) || (selectedStory.Some? && selectedStory.value.title == query) {
        results := [];
        isDropdownVisible := false;
        scheduled := false;
      } else {
        scheduled := true;
      }
    }

    /** The debounce timer fires: the search is under way. */
    method BeginSearch()
      modifies this`isSearching
      ensures isSearching
    {
      isSearching := true;
    }

    /** The search's answer: `Some(stories)` on success, `None` when the call threw. On
        success the stories are the results and the dropdown shows exactly when there are
        any; on failure both are cleared. The search is over either way. */
    method FinishSearch(answer: Option<seq<JiraStory>>)
      modifies this`results, this`isDropdownVisible, this`isSearching
      ensures !isSearching
      ensures answer.Some? ==> results == answer.value && (isDropdownVisible <==> |answer.value| > 0)
      ensures answer.None? ==> results == [] && !isDropdownVisible
    {
      if answer.Some? {
        results := answer.value;
        isDropdownVisible := |answer.value| > 0;
      } else {
        results := [];
        isDropdownVisible := false;
      }
      isSearching := false;
    }

    /** Typing in the box: the new text is the query and the selection is dropped. */
    method HandleInputChange(value: string)
      modifies this`query, this`selectedStory
      ensures query == value && selectedStory.None?
    {
      query := value;
      selectedStory := None;
    }

    /** Picking a story from the dropdown, whose list shows the results only while it is
        visible and no search runs: the story is selected, its title fills the box and the
        dropdown closes, so the search the change triggers is suppressed. A story the list
        does not show cannot be picked, and nothing changes. */
    method HandleSelectStory(story: JiraStory) returns (taken: bool)
      modifies this`query, this`selectedStory, this`isDropdownVisible
      ensures taken <==> old(isDropdownVisible) && !isSearching && story in results
      ensures taken ==> selectedStory == Some(story) && query == story.title && !isDropdownVisible
      ensures taken ==> SearchSuppressed(query, selectedStory)
      ensures !taken ==> query == old(query) && selectedStory == old(selectedStory) && isDropdownVisible == old(isDropdownVisible)
    {
      taken := isDropdownVisible && !isSearching && story in results;
      if taken {
        selectedStory := Some(story);
        query := story.title;
        isDropdownVisible := false;
      }
    }

    /** A mouse press outside the search box closes the dropdown. */
    method ClickOutside()
      modifies this`isDropdownVisible
      ensures !isDropdownVisible
    {
      isDropdownVisible := false;
    }

    /** Focusing the box reopens the dropdown when the query is not blank and there are
        results; otherwise the dropdown is left as it was. */
    method Focus()
      modifies this`isDropdownVisible
      ensures !IsBlank(query) && |results| > 0 ==> isDropdownVisible
      ensures IsBlank(query) || |results| == 0 ==> isDropdownVisible == old(isDropdownVisible)
    {
      if !IsBlank(query) && |results| > 0 {
        isDropdownVisible := true;
      }
    }

    /** The upload options panel is shown only while a story is selected and no
        generation runs. */
    predicate ShowsUploadOptions(provider: GenerationProvider)
      reads this`selectedStory, provider`state
    {
      selectedStory.Some? && !provider.state.isGenerating
    }

    /** The upload checkbox, part of the options panel. */
    method SetUploadToZephyr(provider: GenerationProvider, value: bool) returns (taken: bool)
      modifies this`uploadToZephyr
      ensures taken <==> ShowsUploadOptions(provider)
      ensures uploadToZephyr == if taken then value else old(uploadToZephyr)
    {
      taken := ShowsUploadOptions(provider);
      if taken {
        uploadToZephyr := value;
      }
    }

    /** The project key input, shown in the options panel only while uploading is on. */
    method SetProjectKey(provider: GenerationProvider, value: string) returns (taken: bool)
      modifies this`projectKey
      ensures taken <==> ShowsUploadOptions(provider) && uploadToZephyr
      ensures projectKey == if taken then value else old(projectKey)
    {
      taken := ShowsUploadOptions(provider) && uploadToZephyr;
      if taken {
        projectKey := value;
      }
    }

    /** The folder id input, shown in the options panel only while uploading is on. */
    method SetFolderId(provider: GenerationProvider, value: string) returns (taken: bool)
      modifies this`folderId
      ensures taken <==> ShowsUploadOptions(provider) && uploadToZephyr
      ensures folderId == if taken then value else old(folderId)
    {
      taken := ShowsUploadOptions(provider) && uploadToZephyr;
      if taken {
        folderId := value;
      }
    }

    /** `handleGenerate` up to the provider's await: with no selected story or while a
        generation runs nothing happens; otherwise the provider starts a generation for
        the selected story with the forwarded arguments, and the request it sends is
        returned. */
    method HandleGenerate(provider: GenerationProvider) returns (request: Option<GenerateRequest>)
      modifies provider`state
      ensures request.None? <==> GenerateDisabled(selectedStory, old(provider.state.isGenerating))
      ensures request.None? ==> provider.state == old(provider.state)
      ensures request.Some? ==>
        request.value == GenerateArgs(selectedStory.value, uploadToZephyr, projectKey, folderId) &&
        Context(provider.state, provider.showToast) ==
          Apply(old(Context(provider.state, provider.showToast)), Start(selectedStory.value.id, selectedStory.value.title))
    {
      if selectedStory.None? || provider.state.isGenerating {
        request := None;
        return;
      }
      var story := selectedStory.value;
      var sent := provider.StartGeneration(story.id, story.title, uploadToZephyr,
        if uploadToZephyr then Some(projectKey) else None,
        if folderId != "" then Some(folderId) else None);
      request := Some(sent);
    }
  }
}
