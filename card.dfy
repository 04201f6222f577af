/** One test case card (TestCaseCard.tsx): its edit mode and the title and text buffers
    being edited, the save and cancel buttons, the upload and remove buttons, and the
    highlighting of assertion lines in the displayed text. The page's callbacks are not
    called: a button's handler returns the call it would make. */
module Card {
  import opened Common
  import opened Text
  import opened Types
  import opened Collection

  /** The call `onUpdate(id, title, steps)` makes to the page. */
  datatype UpdateCall = UpdateCall(id: string, newTitle: string, newSteps: string)

  /** A case the page just added as a draft. */
  predicate IsDraftId(id: string) {
    StartsWith(id, DraftPrefix)
  }

  /** A displayed line is highlighted when highlighting is on and it mentions "verify" in
      any case. */
  predicate Highlighted(line: string, highlightAssertions: bool) {
    highlightAssertions && Contains(ToLower(line), "verify")
  }

  /** The displayed lines of a case's text (`steps.split('\n')`) and, for each, whether it
      is highlighted. */
  function HighlightedLines(steps: string, highlightAssertions: bool): (r: seq<bool>)
    ensures |r| == |Split(steps, '\n')| && |r| >= 1
    ensures forall i :: 0 <= i < |r| ==> (r[i] <==> Highlighted(Split(steps, '\n')[i], highlightAssertions))
    ensures !highlightAssertions ==> forall i :: 0 <= i < |r| ==> !r[i]
  {
    var lines := Split(steps, '\n');
    seq(|lines|, i requires 0 <= i < |lines| => Highlighted(lines[i], highlightAssertions))
  }

  /** A line is highlighted exactly when "verify" occurs in it, lower-cased, at some
      position. */
  lemma HighlightedIffOccurs(line: string)
    ensures Highlighted(line, true) <==> exists j :: OccursAt(ToLower(line), "verify", j)
  {
    ContainsIffWindow(ToLower(line), "verify");
  }

  /** A text shorter than "verify" never contains it. */
  lemma {:induction false} ShortLineNotHighlighted(line: string)
    requires |line| < 6
    ensures !Contains(ToLower(line), "verify")
  {
    ContainsIffWindow(ToLower(line), "verify");
  }

  /** The draft's last line mentions "verify" from its fourth character on. */
  lemma CheckLineMentionsVerify()
    ensures Contains(ToLower("3. Verify Result: "), "verify")
  {
    var c := "3. Verify Result: ";
    var l := ToLower(c);
    assert l[3] == 'v' && l[4] == 'e' && l[5] == 'r' && l[6] == 'i' && l[7] == 'f' && l[8] == 'y';
    assert l[3..9] == "verify";
    assert OccursAt(l, "verify", 3);
    ContainsIffWindow(l, "verify");
  }

  /** A text of three lines is displayed as those three lines, each highlighted by its own
      content. */
  lemma HighlightsOfThree(text: string, a: string, b: string, c: string, on: bool)
    requires Split(text, '\n') == [a, b, c]
    ensures HighlightedLines(text, on) == [Highlighted(a, on), Highlighted(b, on), Highlighted(c, on)]
  {
  }

  /** A new draft shows three lines, and only its last, "3. Verify Result: ", is
      highlighted. */
  lemma DraftHighlightsItsCheckLine()
    ensures HighlightedLines(DraftSteps, true) == [false, false, true]
  {
    DraftLines();
    HighlightsOfThree(DraftSteps, "1. ", "2. ", "3. Verify Result: ", true);
    ShortLineNotHighlighted("1. ");
    ShortLineNotHighlighted("2. ");
    CheckLineMentionsVerify();
  }

  class TestCaseCard {
    var testCase: TestCase
    var isEditing: bool
    var editedTitle: string
    var editedSteps: string

    /** The card as it mounts: the buffers hold the case's title and text, and a draft
        opens in edit mode. */
    constructor (testCase: TestCase)
      ensures this.testCase == testCase
      ensures isEditing <==> IsDraftId(testCase.id)
      ensures editedTitle == testCase.title && editedSteps == testCase.steps
    {
      this.testCase := testCase;
      isEditing := StartsWith(testCase.id, DraftPrefix);
      editedTitle := testCase.title;
      editedSteps := testCase.steps;
    }

    /** The page passes a new version of the case: a new draft id turns edit mode on, and a
        changed title or text resets both buffers; otherwise the buffers are kept. */
    method ReceiveCase(tc: TestCase)
      modifies this
      ensures testCase == tc
      ensures isEditing == (old(isEditing) || (tc.id != old(testCase.id) && IsDraftId(tc.id)))
      ensures tc.title != old(testCase.title) || tc.steps != old(testCase.steps) ==>
        editedTitle == tc.title && editedSteps == tc.steps
      ensures tc.title == old(testCase.title) && tc.steps == old(testCase.steps) ==>
        editedTitle == old(editedTitle) && editedSteps == old(editedSteps)
    {
      var previous := testCase;
      testCase := tc;
      if tc.id != previous.id && StartsWith(tc.id, DraftPrefix) {
        isEditing := true;
      }
      if tc.title != previous.title || tc.steps != previous.steps {
        editedTitle := tc.title;
        editedSteps := tc.steps;
      }
    }

    /** A double click or the edit button. */
    method StartEditing()
      modifies this`isEditing
      ensures isEditing
    {
      isEditing := true;
    }

    /** Typing in the title input, which exists only in edit mode. */
    method EditTitle(value: string) returns (taken: bool)
      modifies this`editedTitle
      ensures taken <==> isEditing
      ensures editedTitle == if taken then value else old(editedTitle)
    {
      taken := isEditing;
      if taken {
        editedTitle := value;
      }
    }

    /** Typing in the text area, which exists only in edit mode. */
    method EditSteps(value: string) returns (taken: bool)
      modifies this`editedSteps
      ensures taken <==> isEditing
      ensures editedSteps == if taken then value else old(editedSteps)
    {
      taken := isEditing;
      if taken {
        editedSteps := value;
      }
    }

    /** The save button, which exists only in edit mode: one update call with the case's
        id and both buffers, and edit mode ends. */
    method Save() returns (call: Option<UpdateCall>)
      modifies this`isEditing
      ensures call.Some? <==> old(isEditing)
      ensures call.Some? ==> call.value == UpdateCall(testCase.id, editedTitle, editedSteps)
      ensures !isEditing
    {
      if !isEditing {
        return None;
      }
      call := Some(UpdateCall(testCase.id, editedTitle, editedSteps));
      isEditing := false;
    }

    /** The cancel button, which exists only in edit mode: both buffers go back to the
        case's title and text, edit mode ends, and no update is made. Outside edit mode
        nothing changes. */
    method Cancel() returns (taken: bool)
      modifies this`editedTitle, this`editedSteps, this`isEditing
      ensures taken <==> old(isEditing)
      ensures taken ==> editedTitle == testCase.title && editedSteps == testCase.steps
      ensures !taken ==> editedTitle == old(editedTitle) && editedSteps == old(editedSteps)
      ensures !isEditing
    {
      taken := isEditing;
      if taken {
        editedTitle := testCase.title;
        editedSteps := testCase.steps;
        isEditing := false;
      }
    }

    /** The upload button, shown only outside edit mode and disabled while an upload of
        this card runs: the case handed to `onUploadSingle`, if the click goes through. */
    method ClickUpload(isUploading: bool) returns (sent: Option<TestCase>)
      ensures sent.Some? <==> !isEditing && !isUploading
      ensures sent.Some? ==> sent.value == testCase
    {
      sent := if !isEditing && !isUploading then Some(testCase) else None;
    }

    /** The remove button, shown only outside edit mode: the id and title handed to
        `onRemove`. */
    method ClickRemove() returns (sent: Option<(string, string)>)
      ensures sent.Some? <==> !isEditing
      ensures sent.Some? ==> sent.value == (testCase.id, testCase.title)
    {
      sent := if !isEditing then Some((testCase.id, testCase.title)) else None;
    }
  }
}
