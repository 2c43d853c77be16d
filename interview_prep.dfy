/** The interview preparation page: an uploaded resume file, a target role, a
    generate button that (after a delay) fills in six canned questions, and
    per-question hint panels that open and close. */
module InterviewPrep {
  import opened Wrappers

  /** The part of a browser `File` the page keeps. */
  datatype UploadedFile = UploadedFile(name: string)

  datatype Question = Question(id: string, question: string, hint: string, isOpen: bool)

  /** The questions the generate timer installs, every hint closed. */
  const GeneratedQuestions: seq<Question> := [
    Question("1", "Tell me about yourself and your experience.",
      "Focus on your relevant experience, key achievements, and what drives you professionally. Keep it concise (2-3 minutes) and tailor it to the role.", false),
    Question("2", "What's your experience with React and modern frontend frameworks?",
      "Discuss specific projects, challenges you've overcome, and your understanding of React concepts like hooks, state management, and performance optimization.", false),
    Question("3", "Describe a challenging project you worked on and how you handled it.",
      "Use the STAR method (Situation, Task, Action, Result). Focus on technical challenges and how you collaborated with your team.", false),
    Question("4", "How do you approach debugging complex issues?",
      "Walk through your systematic approach: reproducing the issue, isolating the problem, using debugging tools, and verifying the fix.", false),
    Question("5", "Where do you see yourself in 5 years?",
      "Show ambition while being realistic. Discuss skills you want to develop and how they align with the company's growth.", false),
    Question("6", "How do you handle disagreements with team members?",
      "Emphasize communication, active listening, and finding common ground. Give a specific example if possible.", false)
  ]

  /** The generated list has six questions with distinct ids, all closed. */
  lemma GeneratedQuestionsShape()
    ensures |GeneratedQuestions| == 6
    ensures forall i, j :: 0 <= i < j < |GeneratedQuestions| ==> GeneratedQuestions[i].id != GeneratedQuestions[j].id
    ensures forall i :: 0 <= i < |GeneratedQuestions| ==> !GeneratedQuestions[i].isOpen
  {
    var ids := ["1", "2", "3", "4", "5", "6"];
    assert forall i :: 0 <= i < 6 ==> GeneratedQuestions[i].id == ids[i];
  }

  /** `questions.map(q => q.id === id ? { ...q, isOpen: !q.isOpen } : q)`. */
  function ToggledQuestions(qs: seq<Question>, id: string): (r: seq<Question>)
    ensures |r| == |qs|
    ensures forall i :: 0 <= i < |qs| ==>
      r[i].id == qs[i].id && r[i].question == qs[i].question && r[i].hint == qs[i].hint
    ensures forall i :: 0 <= i < |qs| ==> (r[i].isOpen != qs[i].isOpen <==> qs[i].id == id)
  {
    seq(|qs|, i requires 0 <= i < |qs| =>
      if qs[i].id == id then qs[i].(isOpen := !qs[i].isOpen) else qs[i])
  }

  /** Toggling an id no question carries leaves the list as it was. */
  lemma ToggleUnknownId(qs: seq<Question>, id: string)
    requires forall i :: 0 <= i < |qs| ==> qs[i].id != id
    ensures ToggledQuestions(qs, id) == qs
  {
    var r := ToggledQuestions(qs, id);
    assert forall i :: 0 <= i < |qs| ==> r[i] == qs[i];
  }

  /** Toggling the same question twice gives back the list. */
  lemma ToggleQuestionTwice(qs: seq<Question>, id: string)
    ensures ToggledQuestions(ToggledQuestions(qs, id), id) == qs
  {
    var r := ToggledQuestions(ToggledQuestions(qs, id), id);
    assert forall i :: 0 <= i < |qs| ==> r[i] == qs[i];
  }

  /** Toggling two questions commutes. */
  lemma TogglesCommute(qs: seq<Question>, a: string, b: string)
    ensures ToggledQuestions(ToggledQuestions(qs, a), b) == ToggledQuestions(ToggledQuestions(qs, b), a)
  {
    var x := ToggledQuestions(ToggledQuestions(qs, a), b);
    var y := ToggledQuestions(ToggledQuestions(qs, b), a);
    assert forall i :: 0 <= i < |qs| ==> x[i] == y[i];
  }

  /** `handleFileChange`: the first selected file replaces the kept one; a
      missing or empty file list keeps it. */
  function ChosenFile(current: Option<UploadedFile>, files: Option<seq<UploadedFile>>): (r: Option<UploadedFile>)
    ensures files.Some? && |files.value| > 0 ==> r == Some(files.value[0])
    ensures (files.None? || files.value == []) ==> r == current
  {
    if files.Some? && |files.value| > 0 then Some(files.value[0]) else current
  }

  class InterviewPrepPage {
    var file: Option<UploadedFile>
    var targetRole: string
    var isGenerating: bool
    var questions: seq<Question>

    constructor ()
      ensures file.None? && targetRole == "" && !isGenerating && questions == []
    {
      file := None;
      targetRole := "";
      isGenerating := false;
      questions := [];
    }

    /** The generate button's `disabled`: `!file || !targetRole || isGenerating`. */
    function GenerateButtonDisabled(): (disabled: bool)
      reads this
      ensures !disabled <==> file.Some? && targetRole != "" && !isGenerating
    {
      file.None? || targetRole == "" || isGenerating
    }

    /** The output column shows the question list once there is one, the
        "No Questions Yet" placeholder before. */
    function ShowsQuestions(): (shown: bool)
      reads this
      ensures shown <==> questions != []
    {
      |questions| > 0
    }

    method HandleFileChange(files: Option<seq<UploadedFile>>)
      modifies this`file
      ensures file == ChosenFile(old(file), files)
    {
      if files.Some? && |files.value| > 0 {
        file := Some(files.value[0]);
      }
    }

    method SetTargetRole(value: string)
      modifies this`targetRole
      ensures targetRole == value
    {
      targetRole := value;
    }

    /** `handleGenerate`: generation starts; the questions arrive with the timer. */
    method HandleGenerate()
      modifies this`isGenerating
      ensures isGenerating
    {
      isGenerating := true;
    }

    /** The timer callback of `handleGenerate`. */
    method FinishGenerate()
      modifies this`questions, this`isGenerating
      ensures questions == GeneratedQuestions && !isGenerating
    {
      questions := GeneratedQuestions;
      isGenerating := false;
    }

    method ToggleQuestion(id: string)
      modifies this`questions
      ensures questions == ToggledQuestions(old(questions), id)
    {
      questions := ToggledQuestions(questions, id);
    }
  }

  /** From a fresh page, choosing a file and typing a role enables generating;
      once it starts the button is disabled again, and when the timer fires
      six closed questions are shown. */
  method GenerateFlow(f: UploadedFile, role: string) returns (page: InterviewPrepPage)
    requires role != ""
    ensures !page.GenerateButtonDisabled() && page.ShowsQuestions()
    ensures page.questions == GeneratedQuestions && page.file == Some(f) && page.targetRole == role
  {
    page := new InterviewPrepPage();
    assert page.GenerateButtonDisabled();
    page.HandleFileChange(Some([f]));
    page.SetTargetRole(role);
    assert !page.GenerateButtonDisabled();
    page.HandleGenerate();
    assert page.GenerateButtonDisabled();
    page.FinishGenerate();
    GeneratedQuestionsShape();
  }
}
