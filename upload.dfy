/** The upload-to-test-cycle form (UploadView.tsx): a cycle name, a target folder chosen
    among the latest folder, an existing one or a new path, and the upload of the selected
    cases. The folder listing and the upload service are not called: their answers arrive
    through `FinishFetchFolders` and `FinishUpload`. */
module Upload {
  import opened Common
  import opened Text
  import opened Types

  /** A cycle folder as the folder service lists it. */
  datatype Folder = Folder(id: string, name: string, path: string)

  /** The three ways to choose the target folder. */
  datatype FolderOption = Latest | Select | Create

  /** What `uploadToTestCycle` is called with; `folderPath` is `None` for `undefined`. */
  datatype CycleUploadRequest = CycleUploadRequest(
    issueKey: string, testCases: seq<TestCase>, projectKey: string, cycleName: string, folderPath: Option<string>)

  /** The upload's answer: the call threw (with the error's message when it was an
      `Error`), or it answered with a success flag and possibly a list of errors. */
  datatype CycleUploadOutcome =
    | CycleUploadThrew(message: Option<string>)
    | CycleUploadAnswered(success: bool, errors: Option<seq<string>>)

  const FolderLoadError: string := "Failed to load cycle folders. You can still create a new folder."
  const UploadFailed: string := "Upload failed"

  // ------------------------------------------------------------------ the cycle name

  /** The suffix of the default cycle name: a space, an en dash, a space and "Test Cycle". */
  const CycleSuffix: string := " \U{2013} Test Cycle"

  /** The name the form starts with: the issue key followed by the suffix. */
  function DefaultCycleName(issueKey: string): (r: string)
    ensures StartsWith(r, issueKey)
    ensures r[|issueKey|..] == CycleSuffix
  {
    var r := issueKey + CycleSuffix;
    assert r[..|issueKey|] == issueKey;
    r
  }

  /** The default name is never blank, so it never blocks an upload by itself. */
  lemma DefaultCycleNameNotBlank(issueKey: string)
    ensures !IsBlank(DefaultCycleName(issueKey))
  {
    var r := DefaultCycleName(issueKey);
    BlankIffAllSpace(r);
    assert r[|issueKey| + 3] == 'T';
  }

  /** The name as the source file spells it: the en dash's UTF-8 bytes read as three
      Mac Roman characters. */
  function CycleNameAsWritten(issueKey: string): string {
    issueKey + " \U{201A}\U{00C4}\U{00EC} Test Cycle"
  }

  /** The spelled-out name shows three stray characters where the dash belongs, so it
      differs from the intended name for every issue key. */
  lemma CycleNameAsWrittenIsGarbled(issueKey: string)
    ensures CycleNameAsWritten(issueKey) != DefaultCycleName(issueKey)
    ensures CycleNameAsWritten(issueKey)[|issueKey| + 1] == '\U{201A}'
  {
    var w := CycleNameAsWritten(issueKey);
    var d := DefaultCycleName(issueKey);
    assert w[|issueKey| + 1] == '\U{201A}';
    assert d[|issueKey| + 1] == '\U{2013}';
  }

  // ------------------------------------------------------------------ folders

  /** A folder whose name or path, lower-cased, contains `term`. */
  predicate FolderMatches(f: Folder, term: string) {
    Contains(ToLower(f.name), term) || Contains(ToLower(f.path), term)
  }

  /** `filteredFolders`: every folder for a blank search term; otherwise, in their order,
      the folders whose name or path contains the lower-cased term. */
  function FilteredFolders(folders: seq<Folder>, searchTerm: string): (r: seq<Folder>)
    ensures IsBlank(searchTerm) ==> r == folders
    ensures |r| <= |folders|
    ensures !IsBlank(searchTerm) ==> forall f :: f in r <==> f in folders && FolderMatches(f, ToLower(searchTerm))
  {
    if IsBlank(searchTerm) then folders
    else
      var term := ToLower(searchTerm);
      Filter(folders, f => FolderMatches(f, term))
  }

  /** Lower-casing neither adds nor removes whitespace. */
  lemma ToLowerKeepsBlank(s: string)
    ensures IsBlank(ToLower(s)) <==> IsBlank(s)
  {
    BlankIffAllSpace(s);
    BlankIffAllSpace(ToLower(s));
  }

  /** The filter ignores the search term's case: two terms that lower-case alike select
      the same folders. */
  lemma FilterIgnoresTermCase(folders: seq<Folder>, a: string, b: string)
    requires ToLower(a) == ToLower(b)
    ensures FilteredFolders(folders, a) == FilteredFolders(folders, b)
  {
    ToLowerKeepsBlank(a);
    ToLowerKeepsBlank(b);
  }

  /** `folders.find(f => f.id === id)`: the position of the first folder with that id. */
  function FirstWithId(folders: seq<Folder>, id: string): Option<nat> {
    FirstIndex(folders, (f: Folder) => f.id == id)
  }

  /** `selectedFolder`: the first folder with the selected id, if any. */
  function SelectedFolder(folders: seq<Folder>, id: string): (r: Option<Folder>)
    ensures r.Some? <==> exists k :: 0 <= k < |folders| && folders[k].id == id
    ensures r.Some? ==> r.value in folders && r.value.id == id
  {
    var k := FirstWithId(folders, id);
    if k.Some? then Some(folders[k.value]) else None
  }

  /** `effectiveFolderPath`: the latest folder's path, the selected folder's path, or the
      trimmed custom path, each only when it exists; nothing otherwise. */
  function EffectivePath(option: FolderOption, latest: Option<Folder>, selected: Option<Folder>, customPath: string): (r: Option<string>)
    ensures option.Latest? ==> r == if latest.Some? then Some(latest.value.path) else None
    ensures option.Select? ==> r == if selected.Some? then Some(selected.value.path) else None
    ensures option.Create? ==> (r.Some? <==> !IsBlank(customPath))
    ensures option.Create? && r.Some? ==> r.value == Trim(customPath) && !IsBlank(r.value)
  {
    match option
    case Latest => if latest.Some? then Some(latest.value.path) else None
    case Select => if selected.Some? then Some(selected.value.path) else None
    case Create =>
      if IsBlank(customPath) then None
      else
        TrimIdempotent(customPath);
        Some(Trim(customPath))
  }

  /** `effectiveFolderPath || undefined`: an empty path is not sent either. */
  function SentPath(path: Option<string>): (r: Option<string>)
    ensures r.Some? <==> path.Some? && path.value != ""
    ensures r.Some? ==> r == path
  {
    if path.Some? && path.value != "" then path else None
  }

  /** `isValid`: some cases are selected, the cycle name is not blank, and a new folder
      has a path that is not blank. */
  predicate IsValid(selectedCount: nat, cycleName: string, option: FolderOption, customPath: string) {
    selectedCount > 0 && !IsBlank(cycleName) && !(option.Create? && IsBlank(customPath))
  }

  /** A valid upload to a new folder always sends that folder's trimmed path. */
  lemma ValidCreateSendsPath(selectedCount: nat, cycleName: string, latest: Option<Folder>, selected: Option<Folder>, customPath: string)
    requires IsValid(selectedCount, cycleName, Create, customPath)
    ensures SentPath(EffectivePath(Create, latest, selected, customPath)) == Some(Trim(customPath))
  {
    BlankIffAllSpace(customPath);
  }

  /** Choosing an existing folder is valid even when no folder has the chosen id; the
      upload then goes without a folder path. */
  lemma SelectWithoutFolderStillValid(selectedCount: nat, cycleName: string, folders: seq<Folder>, id: string, latest: Option<Folder>, customPath: string)
    requires selectedCount > 0 && !IsBlank(cycleName)
    requires forall k :: 0 <= k < |folders| ==> folders[k].id != id
    ensures IsValid(selectedCount, cycleName, Select, customPath)
    ensures SentPath(EffectivePath(Select, latest, SelectedFolder(folders, id), customPath)).None?
  {
  }

  /** The error shown after an upload that did not succeed: the listed errors joined by
      ", ", or "Upload failed" when that is empty; for a thrown error its message, or
      "Upload failed" when it had none. */
  function UploadErrorMessage(outcome: CycleUploadOutcome): (r: string)
    requires !(outcome.CycleUploadAnswered? && outcome.success)
    ensures outcome.CycleUploadAnswered? ==> r != ""
    ensures outcome.CycleUploadAnswered? && (outcome.errors.None? || outcome.errors.value == []) ==> r == UploadFailed
    ensures outcome.CycleUploadAnswered? && outcome.errors.Some? && |outcome.errors.value| == 1 && outcome.errors.value[0] != "" ==>
      r == outcome.errors.value[0]
    ensures outcome.CycleUploadAnswered? && outcome.errors.Some? && Join(outcome.errors.value, ", ") != "" ==>
      r == Join(outcome.errors.value, ", ")
    ensures outcome.CycleUploadThrew? ==> r == outcome.message.GetOr(UploadFailed)
  {
    match outcome
    case CycleUploadThrew(m) => m.GetOr(UploadFailed)
    case CycleUploadAnswered(_, errors) =>
      if errors.Some? && Join(errors.value, ", ") != "" then Join(errors.value, ", ") else UploadFailed
  }

  /** With two or more errors the message lists every one of them, in order, each but the
      last followed by ", ", and holds nothing else. */
  lemma UploadErrorListsEveryError(outcome: CycleUploadOutcome)
    requires outcome.CycleUploadAnswered? && !outcome.success
    requires outcome.errors.Some? && |outcome.errors.value| >= 2
    ensures var r, errs := UploadErrorMessage(outcome), outcome.errors.value;
      |r| + 2 == JoinOffset(errs, ", ", |errs|) &&
      (forall i :: 0 <= i < |errs| ==> OccursAt(r, errs[i], JoinOffset(errs, ", ", i))) &&
      (forall i :: 0 <= i < |errs| - 1 ==> OccursAt(r, ", ", JoinOffset(errs, ", ", i) + |errs[i]|))
  {
    var errs := outcome.errors.value;
    JoinLayout(errs, ", ");
    assert Join(errs, ", ") != "";
  }

  class UploadView {
    const issueKey: string
    const projectKey: string
    const selectedTestCases: seq<TestCase>
    var cycleName: string
    var folderOption: FolderOption
    var selectedFolderId: string
    var customFolderPath: string
    var searchTerm: string
    var isLoadingFolders: bool
    var isUploading: bool
    var folders: seq<Folder>
    var latestFolder: Option<Folder>
    var error: Option<string>

    /** The form as it mounts, after the effect that names the cycle. */
    constructor (issueKey: string, projectKey: string, selectedTestCases: seq<TestCase>)
      ensures this.issueKey == issueKey && this.projectKey == projectKey
      ensures this.selectedTestCases == selectedTestCases
      ensures cycleName == DefaultCycleName(issueKey) && folderOption == Latest
      ensures selectedFolderId == "" && customFolderPath == "" && searchTerm == ""
      ensures !isLoadingFolders && !isUploading
      ensures folders == [] && latestFolder.None? && error.None?
    {
      this.issueKey := issueKey;
      this.projectKey := projectKey;
      this.selectedTestCases := selectedTestCases;
      cycleName := DefaultCycleName(issueKey);
      folderOption := Latest;
      selectedFolderId := "";
      customFolderPath := "";
      searchTerm := "";
      isLoadingFolders := false;
      isUploading := false;
      folders := [];
      latestFolder := None;
      error := None;
    }

    function Selected(): Option<Folder>
      reads this
    {
      SelectedFolder(folders, selectedFolderId)
    }

    function Path(): Option<string>
      reads this
    {
      EffectivePath(folderOption, latestFolder, Selected(), customFolderPath)
    }

    predicate Valid()
      reads this
    {
      IsValid(|selectedTestCases|, cycleName, folderOption, customFolderPath)
    }

    /** `fetchFolders` up to its await: loading, with the error cleared. */
    method BeginFetchFolders()
      modifies this`isLoadingFolders, this`error
      ensures isLoadingFolders && error.None?
    {
      isLoadingFolders := true;
      error := None;
    }

    /** The folder listing's answer (`None` when it threw). A list replaces the folders and,
        when it is not empty, its last folder becomes the latest one and the selected one;
        an empty list leaves both as they were. A failure sets the error and leaves the
        folders alone. Loading is over either way. */
    method FinishFetchFolders(answer: Option<seq<Folder>>)
      modifies this`folders, this`latestFolder, this`selectedFolderId, this`error, this`isLoadingFolders
      ensures !isLoadingFolders
      ensures answer.Some? ==> folders == answer.value && error == old(error)
      ensures answer.Some? && answer.value != [] ==>
        latestFolder == Some(answer.value[|answer.value| - 1]) && selectedFolderId == answer.value[|answer.value| - 1].id &&
        Selected().Some?
      ensures answer.Some? && answer.value == [] ==>
        latestFolder == old(latestFolder) && selectedFolderId == old(selectedFolderId)
      ensures answer.None? ==>
        folders == old(folders) && latestFolder == old(latestFolder) && selectedFolderId == old(selectedFolderId) &&
        error == Some(FolderLoadError)
    {
      if answer.Some? {
        var fetched := answer.value;
        folders := fetched;
        if |fetched| > 0 {
          var latest := fetched[|fetched| - 1];
          latestFolder := Some(latest);
          selectedFolderId := latest.id;
        }
      } else {
        error := Some(FolderLoadError);
      }
      isLoadingFolders := false;
    }

    /** A folder option radio: "latest" needs a latest folder and "select" a non-empty
        list; none can change during an upload. Returns whether the option was taken. */
    method ChooseFolderOption(option: FolderOption) returns (taken: bool)
      modifies this`folderOption
      ensures taken <==> !isUploading && (option.Latest? ==> latestFolder.Some?) && (option.Select? ==> folders != [])
      ensures folderOption == if taken then option else old(folderOption)
    {
      taken := !isUploading && (option.Latest? ==> latestFolder.Some?) && (option.Select? ==> folders != []);
      if taken {
        folderOption := option;
      }
    }

    /** Whether the folder list shows a button for a folder with that id: the list is
        open ("select" chosen), not loading, and the folder passes the search. */
    predicate FolderListed(id: string)
      reads this`folderOption, this`isLoadingFolders, this`folders, this`searchTerm
    {
      folderOption.Select? && !isLoadingFolders &&
      exists k :: 0 <= k < |FilteredFolders(folders, searchTerm)| && FilteredFolders(folders, searchTerm)[k].id == id
    }

    /** A click on a listed folder's button, which is disabled during an upload. Returns
        whether the click selected it. */
    method ClickFolder(id: string) returns (taken: bool)
      modifies this`selectedFolderId
      ensures taken <==> FolderListed(id) && !isUploading
      ensures selectedFolderId == if taken then id else old(selectedFolderId)
    {
      taken := FolderListed(id) && !isUploading;
      if taken {
        selectedFolderId := id;
      }
    }

    /** The cycle name input, disabled during an upload. */
    method SetCycleName(value: string) returns (taken: bool)
      modifies this`cycleName
      ensures taken <==> !isUploading
      ensures cycleName == if taken then value else old(cycleName)
    {
      taken := !isUploading;
      if taken {
        cycleName := value;
      }
    }

    /** The new folder path input, shown only while "create" is chosen and disabled
        during an upload. */
    method SetCustomFolderPath(value: string) returns (taken: bool)
      modifies this`customFolderPath
      ensures taken <==> folderOption.Create? && !isUploading
      ensures customFolderPath == if taken then value else old(customFolderPath)
    {
      taken := folderOption.Create? && !isUploading;
      if taken {
        customFolderPath := value;
      }
    }

    /** The folder search input, shown only while "select" is chosen and disabled during
        an upload or while the folders load. */
    method SetSearchTerm(value: string) returns (taken: bool)
      modifies this`searchTerm
      ensures taken <==> folderOption.Select? && !isUploading && !isLoadingFolders
      ensures searchTerm == if taken then value else old(searchTerm)
    {
      taken := folderOption.Select? && !isUploading && !isLoadingFolders;
      if taken {
        searchTerm := value;
      }
    }

    /** The upload button, disabled while the form is not valid or an upload runs, and
        `handleUpload` up to its await: a refused click changes nothing; otherwise the
        upload starts with the error cleared, and the request carries the selected cases, the trimmed cycle name and the effective path (an empty one is not
        sent). */
    method BeginUpload() returns (request: Option<CycleUploadRequest>)
      modifies this`isUploading, this`error
      ensures request.None? <==> !Valid() || old(isUploading)
      ensures request.None? ==> isUploading == old(isUploading) && error == old(error)
      ensures request.Some? ==> isUploading && error.None?
      ensures request.Some? ==>
        request.value == CycleUploadRequest(issueKey, selectedTestCases, projectKey, Trim(cycleName), SentPath(Path()))
      ensures request.Some? ==> !IsBlank(request.value.cycleName)
      ensures request.Some? && folderOption.Create? ==> request.value.folderPath == Some(Trim(customFolderPath))
    {
      if !Valid() || isUploading {
        request := None;
        return;
      }
      isUploading := true;
      error := None;
      var path := Path();
      TrimIdempotent(cycleName);
      if folderOption.Create? {
        ValidCreateSendsPath(|selectedTestCases|, cycleName, latestFolder, Selected(), customFolderPath);
      }
      request := Some(CycleUploadRequest(issueKey, selectedTestCases, projectKey, Trim(cycleName),
        if path.Some? && path.value != "" then path else None));
    }

    /** The upload's answer: a success is handed on (the result is `true`) and leaves the
        error alone; anything else sets the error message. The upload is over either way. */
    method FinishUpload(outcome: CycleUploadOutcome) returns (succeeded: bool)
      modifies this`isUploading, this`error
      ensures !isUploading
      ensures succeeded <==> outcome.CycleUploadAnswered? && outcome.success
      ensures succeeded ==> error == old(error)
      ensures !succeeded ==> error == Some(UploadErrorMessage(outcome))
    {
      succeeded := outcome.CycleUploadAnswered? && outcome.success;
      if !succeeded {
        error := Some(UploadErrorMessage(outcome));
      }
      isUploading := false;
    }
  }
}
