/** The records of `types.ts` that the core works on. Optional TypeScript
    properties become `Option`s; UI-only flags are plain booleans. */
module Types {
  import opened Common

  /** One structured step (`TestStep`, types.ts). A missing or zero step number is 0. */
  datatype TestStep = TestStep(stepNumber: nat, action: string, expectedResult: string)

  /** One reviewable test case (`TestCase`, types.ts). `steps` is the free text shown in
      the editor, `stepsArray` the structured form; `isSelected`/`isExpanded` never reach
      the server. */
  datatype TestCase = TestCase(
    id: string,
    title: string,
    description: Option<string>,
    preconditions: Option<string>,
    expectedResult: Option<string>,
    steps: string,
    stepsArray: Option<seq<TestStep>>,
    priority: Option<string>,
    testType: Option<string>,
    tags: Option<seq<string>>,
    isSelected: bool,
    isExpanded: bool)

  /** A test case as the server returns it (`TestCaseAPI`, types.ts) together with the
      `id` the page reads from it. Every use of that id is a JavaScript truth test, so a
      missing id and an empty one behave alike: both are "" here. */
  datatype ServerCase = ServerCase(
    id: string,
    title: string,
    description: Option<string>,
    preconditions: Option<string>,
    expectedResult: Option<string>,
    steps: seq<TestStep>,
    priority: Option<string>,
    testType: Option<string>,
    tags: Option<seq<string>>)

  /** A work item found by the story search (`JiraStory`, types.ts). */
  datatype JiraStory = JiraStory(id: string, title: string, description: string, updated: Option<string>)

  /** What the upload service reports (`ZephyrResults`, types.ts). */
  datatype ZephyrResults = ZephyrResults(
    testCaseIds: Option<seq<string>>,
    uploadedCount: Option<nat>,
    folderPath: Option<string>)

  /** One past generation run (`HistoryItem`, types.ts); `testPlan` holds the plan's
      test cases when the details have been loaded. Durations are whole seconds. */
  datatype HistoryItem = HistoryItem(
    id: string,
    storyKey: string,
    createdAt: string,
    testCount: nat,
    status: string,
    duration: Option<int>,
    zephyrIds: Option<seq<string>>,
    testPlan: Option<seq<ServerCase>>)

  /** `ids.has(tc.id)` over the cases' ids. */
  predicate HasId(cases: seq<TestCase>, id: string) {
    exists i :: 0 <= i < |cases| && cases[i].id == id
  }

  /** No two cases share an id. */
  predicate UniqueIds(cases: seq<TestCase>) {
    forall i, j :: 0 <= i < j < |cases| ==> cases[i].id != cases[j].id
  }
}
