/** The pure parts of saving an edited test case (`handleUpdateTestCase`,
    TestPlanPage.tsx): the list sent to the server with the edit applied, the list
    rebuilt from the server's reply with the UI flags carried over, and the local
    fallback used when the reply has no test cases. */
module Reconcile {
  import opened Common
  import opened Text
  import opened Types
  import opened StepCodec
  import opened Collection

  // ------------------------------------------------------------------ the edit

  /** The list sent to the server: the cases with the edited id get the new title and
      text, and structured steps parsed from the text (the old ones when it is blank);
      every other case is sent as it is. */
  function EditedCases(cases: seq<TestCase>, id: string, newTitle: string, newSteps: string): (r: seq<TestCase>)
    ensures |r| == |cases|
    ensures forall i :: 0 <= i < |r| && cases[i].id != id ==> r[i] == cases[i]
    ensures forall i :: 0 <= i < |r| && cases[i].id == id ==>
      r[i] == cases[i].(title := newTitle, steps := newSteps,
                        stepsArray := Some(StepsAfterEdit(cases[i].stepsArray, newSteps)))
  {
    seq(|cases|, i requires 0 <= i < |cases| =>
      if cases[i].id == id then
        cases[i].(title := newTitle, steps := newSteps,
                  stepsArray := Some(StepsAfterEdit(cases[i].stepsArray, newSteps)))
      else cases[i])
  }

  /** Saving a case whose text is the printed form of its structured steps, without
      touching the text, sends those same structured steps. */
  lemma SaveUneditedSendsSameSteps(cases: seq<TestCase>, i: nat, newTitle: string)
    requires i < |cases| && cases[i].stepsArray.Some? && AllPrintable(cases[i].stepsArray.value)
    requires cases[i].steps == PrintSteps(cases[i].stepsArray.value)
    ensures EditedCases(cases, cases[i].id, newTitle, cases[i].steps)[i].stepsArray == cases[i].stepsArray
  {
    SaveUneditedKeepsSteps(cases[i].stepsArray.value);
  }

  /** The parser's loop over the kinds of the draft's three lines. */
  lemma RunOfDraftKinds()
    ensures Finish(Run(ParseState(None, []), [Continuation("1."), Continuation("2."), StepStart(3, "Verify Result:")]))
      == [TestStep(3, "Verify Result:", "")]
  {
    var kinds := [Continuation("1."), Continuation("2."), StepStart(3, "Verify Result:")];
    assert kinds[1..] == [Continuation("2."), StepStart(3, "Verify Result:")];
    assert kinds[1..][1..] == [StepStart(3, "Verify Result:")];
    assert kinds[1..][1..][1..] == [];
  }

  /** The draft's last line starts step 3. */
  lemma ClassifyDraftCheckLine()
    ensures Classify("3. Verify Result: ") == StepStart(3, "Verify Result:")
  {
    var text := "Verify Result:";
    assert "3. Verify Result: " == ['3', '.', ' '] + text + " ";
    assert text[0] == 'V' && text[|text| - 1] == ':';
    ClassifyNumberedLine('3', text, " ");
  }

  /** The placeholder text of a new case parses to a single step: the two bare numbers
      come before any step has begun and are dropped, and the last line becomes step 3
      with action "Verify Result:". */
  lemma DraftTextParsesToOneStep()
    ensures ParseSteps(DraftSteps) == [TestStep(3, "Verify Result:", "")]
  {
    DraftLines();
    ParseOfThreeLines(DraftSteps, "1. ", "2. ", "3. Verify Result: ");
    ClassifyBareNumber('1');
    ClassifyBareNumber('2');
    ClassifyDraftCheckLine();
    RunOfDraftKinds();
  }

  /** Saving a new case without touching its text replaces its three placeholder steps by
      the single step its text parses to. */
  lemma SavingUntouchedDraftSendsOneStep(cases: seq<TestCase>, now: nat, newTitle: string)
    ensures var sent := EditedCases(AddDraft(cases, now), DraftCase(now).id, newTitle, DraftSteps);
      sent[0].stepsArray == Some([TestStep(3, "Verify Result:", "")]) &&
      sent[0].stepsArray != DraftCase(now).stepsArray
  {
    DraftTextParsesToOneStep();
    BlankIffAllSpace(DraftSteps);
    assert !IsSpace(DraftSteps[0]);
  }

  /** The fallback when the reply lacks `test_plan.test_cases`: only title and text of the
      edited cases change; their structured steps stay as they were. */
  function LocalEdit(cases: seq<TestCase>, id: string, newTitle: string, newSteps: string): (r: seq<TestCase>)
    ensures |r| == |cases|
    ensures forall i :: 0 <= i < |r| && cases[i].id != id ==> r[i] == cases[i]
    ensures forall i :: 0 <= i < |r| && cases[i].id == id ==>
      r[i].title == newTitle && r[i].steps == newSteps &&
      r[i].(title := cases[i].title, steps := cases[i].steps) == cases[i]
  {
    seq(|cases|, i requires 0 <= i < |cases| =>
      if cases[i].id == id then cases[i].(title := newTitle, steps := newSteps) else cases[i])
  }

  // ------------------------------------------------------------------ reconciliation

  /** `TC-${issueKey}-${index + 1}`: the id of the server case at `index` when it has none. */
  function GeneratedId(issueKey: string, index: nat): (r: string)
    ensures StartsWith(r, "TC-" + issueKey + "-")
  {
    var p := "TC-" + issueKey + "-";
    var r := p + NatToString(index + 1);
    assert r[..|p|] == p;
    r
  }

  /** Different positions get different generated ids. */
  lemma GeneratedIdsDistinct(issueKey: string, i: nat, j: nat)
    requires i != j
    ensures GeneratedId(issueKey, i) != GeneratedId(issueKey, j)
  {
    var p := "TC-" + issueKey + "-";
    var a, b := NatToString(i + 1), NatToString(j + 1);
    if GeneratedId(issueKey, i) == GeneratedId(issueKey, j) {
      assert (p + a)[|p|..] == a;
      assert (p + b)[|p|..] == b;
      DigitsValueOfNatToString(i + 1);
      DigitsValueOfNatToString(j + 1);
      assert false;
    }
  }

  /** The id a reloaded case gets: the server's, or the generated one when the server gives
      none. */
  function ReloadedId(server: ServerCase, issueKey: string, index: nat): (r: string)
    ensures r != ""
    ensures server.id != "" ==> r == server.id
    ensures server.id == "" ==> r == GeneratedId(issueKey, index)
  {
    if server.id != "" then server.id else GeneratedId(issueKey, index)
  }

  /** The three tests of the `find`: the same id (when the server gives one), the
      generated id of the position, or the same title (when the server gives no id). */
  predicate Matches(local: TestCase, server: ServerCase, issueKey: string, index: nat) {
    || (server.id != "" && local.id == server.id)
    || local.id == GeneratedId(issueKey, index)
    || (server.id == "" && local.title == server.title)
  }

  /** `testCases.find(...)`: the position of the first local case passing any of the
      three tests. */
  function FirstMatch(locals: seq<TestCase>, server: ServerCase, issueKey: string, index: nat): (r: Option<nat>)
    ensures r.None? <==> forall k :: 0 <= k < |locals| ==> !Matches(locals[k], server, issueKey, index)
    ensures r.Some? ==> r.value < |locals| && Matches(locals[r.value], server, issueKey, index)
    ensures r.Some? ==> forall k :: 0 <= k < r.value ==> !Matches(locals[k], server, issueKey, index)
    decreases |locals|
  {
    if locals == [] then None
    else if Matches(locals[0], server, issueKey, index) then Some(0)
    else
      var rest := FirstMatch(locals[1..], server, issueKey, index);
      assert forall k :: 1 <= k < |locals| ==> locals[k] == locals[1..][k - 1];
      if rest.Some? then Some(rest.value + 1) else None
  }

  /** `existingTc?.isSelected || false`. */
  function CarriedSelected(locals: seq<TestCase>, m: Option<nat>): bool
    requires m.Some? ==> m.value < |locals|
  {
    m.Some? && locals[m.value].isSelected
  }

  /** `existingTc?.isExpanded || false`. */
  function CarriedExpanded(locals: seq<TestCase>, m: Option<nat>): bool
    requires m.Some? ==> m.value < |locals|
  {
    m.Some? && locals[m.value].isExpanded
  }

  /** The UI form of the server case at `index`: its id, its fields, its steps printed as
      text and kept as structured steps, and the flags of the first local match. */
  function Reloaded(locals: seq<TestCase>, server: ServerCase, issueKey: string, index: nat): TestCase {
    var m := FirstMatch(locals, server, issueKey, index);
    TestCase(
      ReloadedId(server, issueKey, index), server.title, server.description, server.preconditions,
      server.expectedResult, PrintSteps(server.steps), Some(server.steps), server.priority,
      server.testType, server.tags, CarriedSelected(locals, m), CarriedExpanded(locals, m))
  }

  /** The list rebuilt from the server's reply: one case per server case, in server order,
      with the server's fields, an id that is never empty, and flags that come from the
      first local case matching it, false when none does. */
  function ReconcileCases(locals: seq<TestCase>, servers: seq<ServerCase>, issueKey: string): (r: seq<TestCase>)
    ensures |r| == |servers|
    ensures forall i :: 0 <= i < |r| ==>
      r[i].id == ReloadedId(servers[i], issueKey, i) && r[i].title == servers[i].title &&
      r[i].description == servers[i].description && r[i].preconditions == servers[i].preconditions &&
      r[i].expectedResult == servers[i].expectedResult && r[i].priority == servers[i].priority &&
      r[i].testType == servers[i].testType && r[i].tags == servers[i].tags &&
      r[i].steps == PrintSteps(servers[i].steps) && r[i].stepsArray == Some(servers[i].steps)
    ensures forall i :: 0 <= i < |r| ==>
      var m := FirstMatch(locals, servers[i], issueKey, i);
      r[i].isSelected == (m.Some? && locals[m.value].isSelected) &&
      r[i].isExpanded == (m.Some? && locals[m.value].isExpanded)
  {
    seq(|servers|, i requires 0 <= i < |servers| => Reloaded(locals, servers[i], issueKey, i))
  }

  /** The flags of a reloaded case come from the earliest local case that passes any test;
      a later local case with the exact id does not win over it. */
  lemma FlagsFromEarliestMatch(locals: seq<TestCase>, servers: seq<ServerCase>, issueKey: string, i: nat, k: nat)
    requires i < |servers| && k < |locals|
    requires Matches(locals[k], servers[i], issueKey, i)
    requires forall j :: 0 <= j < k ==> !Matches(locals[j], servers[i], issueKey, i)
    ensures ReconcileCases(locals, servers, issueKey)[i].isSelected == locals[k].isSelected
    ensures ReconcileCases(locals, servers, issueKey)[i].isExpanded == locals[k].isExpanded
  {
    var m := FirstMatch(locals, servers[i], issueKey, i);
    assert m.Some?;
  }

  /** A server case no local case matches comes back unselected and collapsed. */
  lemma UnmatchedComesBackCleared(locals: seq<TestCase>, servers: seq<ServerCase>, issueKey: string, i: nat)
    requires i < |servers|
    requires forall k :: 0 <= k < |locals| ==> !Matches(locals[k], servers[i], issueKey, i)
    ensures !ReconcileCases(locals, servers, issueKey)[i].isSelected
    ensures !ReconcileCases(locals, servers, issueKey)[i].isExpanded
  {
  }

  /** A case that keeps its id across the round trip keeps its flags when no earlier local
      case passes a test for it. */
  lemma SameIdKeepsFlags(locals: seq<TestCase>, servers: seq<ServerCase>, issueKey: string, i: nat, k: nat)
    requires i < |servers| && k < |locals|
    requires servers[i].id != "" && locals[k].id == servers[i].id
    requires forall j :: 0 <= j < k ==> !Matches(locals[j], servers[i], issueKey, i)
    ensures ReconcileCases(locals, servers, issueKey)[i].isSelected == locals[k].isSelected
    ensures ReconcileCases(locals, servers, issueKey)[i].isExpanded == locals[k].isExpanded
  {
    FlagsFromEarliestMatch(locals, servers, issueKey, i, k);
  }

  /** Two server cases without an id come back with different ids. */
  lemma ReloadedIdsDistinct(servers: seq<ServerCase>, issueKey: string, i: nat, j: nat)
    requires i < j < |servers|
    requires servers[i].id == "" && servers[j].id == ""
    ensures ReloadedId(servers[i], issueKey, i) != ReloadedId(servers[j], issueKey, j)
  {
    GeneratedIdsDistinct(issueKey, i, j);
  }

  /** A reloaded case's text parses back to its structured steps, so saving it without
      touching the text sends the server's steps unchanged. */
  lemma ReloadedTextParsesToSteps(locals: seq<TestCase>, servers: seq<ServerCase>, issueKey: string, i: nat)
    requires i < |servers| && AllPrintable(servers[i].steps)
    ensures var r := ReconcileCases(locals, servers, issueKey);
      ParseSteps(r[i].steps) == servers[i].steps &&
      EditedCases(r, r[i].id, r[i].title, r[i].steps)[i].stepsArray == Some(servers[i].steps)
  {
    var r := ReconcileCases(locals, servers, issueKey);
    ParsePrintRoundTrip(servers[i].steps);
    SaveUneditedSendsSameSteps(r, i, r[i].title);
  }
}
