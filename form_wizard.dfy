/**
 * The multi-step intake form: the answer record, the step labels derived from the
 * user's stage, the per-step validator, the step-to-content dispatch, and the wizard
 * state (current step, record, error messages, saved record) with its transitions.
 */
module FormWizard {
  import opened Wrappers
  import opened Text
  import opened Tags

  /** `UserStage`: "school" | "12th-pass" | "college" | "" (unset). */
  datatype Stage = School | TwelfthPass | College | Unset

  /** `FormData`; the optional members of the interface are `Option`s. */
  datatype Form = Form(
    stage: Stage,
    name: string,
    age: string,
    email: string,
    phone: string,
    class10Marks: string,
    class12Marks: Option<string>,
    stream: string,
    currentCourse: Option<string>,
    skills: seq<string>,
    interests: seq<string>,
    careerGoals: string,
    examResults: Option<string>,
    performance: Option<seq<int>>,
    goalShift: Option<string>,
    preferredLocation: string,
    budgetRange: string,
    timeCommitment: string,
    learningStyle: string)

  /** The record the wizard starts from. */
  const InitialForm := Form(
    Unset, "", "", "", "", "", None, "", None, [], [], "", None, Some([75]), None, "", "", "", "")

  /** The key under which the finished record is stored for the results page. */
  const StorageKey := "futureGazeFormData"

  // ---------------------------------------------------------------------------
  // Step labels

  const StageSelectionLabel := "Stage Selection"
  const PersonalInfoLabel := "Personal Info"
  const ContactDetailsLabel := "Contact Details"
  const AcademicDetailsLabel := "Academic Details"
  const ExamResultsLabel := "Exam Results"
  const CurrentPerformanceLabel := "Current Performance"
  const SkillsAndInterestsLabel := "Skills & Interests"
  const PreferencesLabel := "Preferences"
  const GoalsLabel := "Goals"
  const GoalsAndChangesLabel := "Goals & Changes"

  const BaseSteps := [StageSelectionLabel, PersonalInfoLabel, ContactDetailsLabel]

  /** `getSteps`: the step labels, a function of the stage alone. */
  function Steps(stage: Stage): (r: seq<string>)
    ensures |r| >= 3 && r[..3] == BaseSteps
  {
    match stage
    case School =>
      BaseSteps + [AcademicDetailsLabel, SkillsAndInterestsLabel, PreferencesLabel, GoalsLabel]
    case TwelfthPass =>
      BaseSteps + [AcademicDetailsLabel, ExamResultsLabel, SkillsAndInterestsLabel, PreferencesLabel,
                   GoalsLabel]
    case College =>
      BaseSteps + [AcademicDetailsLabel, CurrentPerformanceLabel, SkillsAndInterestsLabel,
                   PreferencesLabel, GoalsAndChangesLabel]
    case Unset =>
      BaseSteps
  }

  /** Lengths and distinguishing labels of the four step sequences. */
  lemma StepsPerStage()
    ensures |Steps(Unset)| == 3
    ensures |Steps(School)| == 7 && Steps(School)[4] == "Skills & Interests"
    ensures |Steps(TwelfthPass)| == 8 && Steps(TwelfthPass)[4] == "Exam Results"
    ensures |Steps(College)| == 8 && Steps(College)[4] == "Current Performance"
    ensures Steps(College)[7] == "Goals & Changes"
    ensures forall st :: |Steps(st)| > 3 <==> st != Unset
  {
  }

  // ---------------------------------------------------------------------------
  // Validation

  const StageRequired := "Please select your current stage"
  const NameRequired := "Name is required"
  const AgeRequired := "Age is required"
  const EmailRequired := "Email is required"
  const EmailInvalid := "Invalid email format"
  const MarksRequired := "10th marks are required"
  const StreamRequired := "Stream selection is required"

  /** The keys of the error map: the names of the fields that are checked. */
  datatype Field = StageField | NameField | AgeField | EmailField | Class10MarksField | StreamField

  /** The message for the email field, if any: a blank address is missing, else it must match. */
  function EmailCheck(email: string): Option<string> {
    if Trim(email) == "" then Some(EmailRequired)
    else if !HasEmailShape(email) then Some(EmailInvalid)
    else None
  }

  /** Two optional messages as a map: the first under `a` when `ma` is set, likewise `b`. */
  function TwoChecks(a: Field, ma: Option<string>, b: Field, mb: Option<string>): map<Field, string>
    requires a != b
  {
    match (ma, mb)
    case (Some(x), Some(y)) => map[a := x, b := y]
    case (Some(x), None) => map[a := x]
    case (None, Some(y)) => map[b := y]
    case (None, None) => map[]
  }

  /**
   * The error map `validateStep` builds for step index `step`, keyed by field.
   * It looks at the index, not at the step's label.
   */
  function StepErrors(step: int, f: Form): map<Field, string> {
    if step == 0 then
      if f.stage == Unset then map[StageField := StageRequired] else map[]
    else if step == 1 then
      TwoChecks(NameField, if Trim(f.name) == "" then Some(NameRequired) else None,
                AgeField, if f.age == "" then Some(AgeRequired) else None)
    else if step == 2 then
      if EmailCheck(f.email).Some? then map[EmailField := EmailCheck(f.email).value] else map[]
    else if step == 3 then
      TwoChecks(Class10MarksField, if f.class10Marks == "" then Some(MarksRequired) else None,
                StreamField, if f.stream == "" then Some(StreamRequired) else None)
    else
      map[]
  }

  /** Step 0 fails exactly when no stage is chosen. */
  lemma StageStepFailsIffUnset(f: Form)
    ensures StepErrors(0, f) != map[] <==> f.stage == Unset
    ensures StepErrors(0, f).Keys <= {StageField}
  {
    if f.stage == Unset {
      assert StageField in StepErrors(0, f);
    }
  }

  /** Step 1 fails exactly when the name is blank or the age is empty (the age is not trimmed). */
  lemma PersonalStepFailsIff(f: Form)
    ensures StepErrors(1, f) != map[] <==> Blank(f.name) || f.age == ""
    ensures NameField in StepErrors(1, f) <==> Blank(f.name)
    ensures AgeField in StepErrors(1, f) <==> f.age == ""
    ensures StepErrors(1, f).Keys <= {NameField, AgeField}
  {
    TrimEmptyIffBlank(f.name);
  }

  /**
   * Step 2 gives at most one message, on `email`: "required" when the address is blank,
   * otherwise "invalid" unless the pattern matches somewhere in it; the phone is never read.
   */
  lemma ContactStepErrors(f: Form)
    ensures Blank(f.email) ==> StepErrors(2, f) == map[EmailField := EmailRequired]
    ensures !Blank(f.email) && !EmailRegexMatches(f.email) ==>
              StepErrors(2, f) == map[EmailField := EmailInvalid]
    ensures !Blank(f.email) && EmailRegexMatches(f.email) ==> StepErrors(2, f) == map[]
  {
    EmailCheckMeaning(f.email);
  }

  /** The email message in terms of blankness and the regular expression. */
  lemma EmailCheckMeaning(email: string)
    ensures Blank(email) ==> EmailCheck(email) == Some(EmailRequired)
    ensures !Blank(email) && !EmailRegexMatches(email) ==> EmailCheck(email) == Some(EmailInvalid)
    ensures !Blank(email) && EmailRegexMatches(email) ==> EmailCheck(email) == None
  {
    TrimEmptyIffBlank(email);
    EmailShapeIffRegex(email);
  }

  /** Step 3 fails exactly when the 10th marks or the stream are empty. */
  lemma AcademicStepFailsIff(f: Form)
    ensures StepErrors(3, f) != map[] <==> f.class10Marks == "" || f.stream == ""
    ensures StepErrors(3, f).Keys <= {Class10MarksField, StreamField}
  {
    if f.class10Marks == "" {
      assert Class10MarksField in StepErrors(3, f);
    } else if f.stream == "" {
      assert StreamField in StepErrors(3, f);
    }
  }

  /** Every index from 4 on passes, whatever the record holds. */
  lemma LaterStepsPass(step: int, f: Form)
    requires step >= 4
    ensures StepErrors(step, f) == map[]
  {
  }

  /** Past step 0 the stage does not take part in validation, and the phone never does. */
  lemma ValidationIgnoresStageAndPhone(step: int, f: Form, st: Stage, p: string)
    ensures step != 0 ==> StepErrors(step, f.(stage := st)) == StepErrors(step, f)
    ensures StepErrors(step, f.(phone := p)) == StepErrors(step, f)
  {
  }

  /** The contact step accepts "a@b.co". */
  lemma EmailCheckAcceptsPlain()
    ensures EmailCheck("a@b.co") == None
  {
    assert ShapeAt("a@b.co", 1, 3);
    assert Trim("a@b.co") != "" by {
      TrimEmptyIffBlank("a@b.co");
      assert !IsSpace("a@b.co"[0]);
    }
  }

  /** The match is unanchored: "x y@z.w" is accepted although it contains a space. */
  lemma EmailCheckUnanchored()
    ensures EmailCheck("x y@z.w") == None
  {
    var s := "x y@z.w";
    assert |s| == 7 && s[0] == 'x' && s[2] == 'y' && s[3] == '@' && s[4] == 'z' && s[5] == '.' && s[6] == 'w';
    assert ShapeAt(s, 3, 5);
    assert !Blank(s) by { assert !IsSpace(s[0]); }
    TrimEmptyIffBlank(s);
  }

  /** "not-an-email" is present but rejected as malformed. */
  lemma EmailCheckRejectsMalformed()
    ensures EmailCheck("not-an-email") == Some(EmailInvalid)
  {
    EmailShapeExamples();
    assert Trim("not-an-email") != "" by {
      TrimEmptyIffBlank("not-an-email");
      assert !IsSpace("not-an-email"[0]);
    }
  }

  /** A whitespace-only address counts as missing, not as malformed. */
  lemma EmailCheckBlankIsMissing()
    ensures EmailCheck(" \t") == Some(EmailRequired)
  {
    var blank := " \t";
    assert blank[0] == ' ' && blank[1] == '\t' && |blank| == 2;
    assert Blank(blank);
    TrimEmptyIffBlank(blank);
  }

  // ---------------------------------------------------------------------------
  // Step content

  /** What the body of the form shows for a step. */
  datatype Role =
    | StageSelection | PersonalInfo | ContactDetails | AcademicDetails
    | ExamResults | CurrentPerformance | SkillsAndInterests | Preferences | Goals
    | Nothing

  /** The content a step label announces. */
  function LabelRole(caption: string): Role {
    if caption == StageSelectionLabel then StageSelection
    else if caption == PersonalInfoLabel then PersonalInfo
    else if caption == ContactDetailsLabel then ContactDetails
    else if caption == AcademicDetailsLabel then AcademicDetails
    else if caption == ExamResultsLabel then ExamResults
    else if caption == CurrentPerformanceLabel then CurrentPerformance
    else if caption == SkillsAndInterestsLabel then SkillsAndInterests
    else if caption == PreferencesLabel then Preferences
    else if caption == GoalsLabel || caption == GoalsAndChangesLabel then Goals
    else Nothing
  }

  /**
   * `renderStepContent` as written: a first-match switch in which `case 4` comes before
   * the cases relative to the number of steps, and returns nothing unless the stage is
   * 12th-pass or college.
   */
  function RenderedRole(stage: Stage, step: int): Role {
    var n := |Steps(stage)|;
    if step == 0 then StageSelection
    else if step == 1 then PersonalInfo
    else if step == 2 then ContactDetails
    else if step == 3 then AcademicDetails
    else if step == 4 then
      if stage == TwelfthPass then ExamResults
      else if stage == College then CurrentPerformance
      else Nothing
    else if step == n - 3 then SkillsAndInterests
    else if step == n - 2 then Preferences
    else if step == n - 1 then Goals
    else Nothing
  }

  /**
   * As written, a school student never sees the skills and interests content: index 4 is
   * labelled "Skills & Interests" and shows nothing.
   */
  lemma SchoolSkillsNeverRendered()
    ensures Steps(School)[4] == SkillsAndInterestsLabel && RenderedRole(School, 4) == Nothing
    ensures forall i :: RenderedRole(School, i) != SkillsAndInterests
  {
  }

  /** For the other stages the content shown at every index is the one its label announces. */
  lemma RenderedRoleMatchesLabelOtherwise(stage: Stage, i: int)
    requires stage != School && 0 <= i < |Steps(stage)|
    ensures RenderedRole(stage, i) == LabelRole(Steps(stage)[i])
    ensures stage != Unset ==>
              RenderedRole(stage, 5) == SkillsAndInterests &&
              RenderedRole(stage, 6) == Preferences &&
              RenderedRole(stage, 7) == Goals
  {
  }

  /** The dispatch with `case 4` taken only by the stages that have a step of their own there. */
  function IntendedRole(stage: Stage, step: int): Role {
    var n := |Steps(stage)|;
    if step == 0 then StageSelection
    else if step == 1 then PersonalInfo
    else if step == 2 then ContactDetails
    else if step == 3 then AcademicDetails
    else if step == 4 && stage == TwelfthPass then ExamResults
    else if step == 4 && stage == College then CurrentPerformance
    else if step == n - 3 then SkillsAndInterests
    else if step == n - 2 then Preferences
    else if step == n - 1 then Goals
    else Nothing
  }

  /** With that dispatch, every stage shows at every index the content its label announces. */
  lemma IntendedRoleMatchesLabel(stage: Stage, i: int)
    requires 0 <= i < |Steps(stage)|
    ensures IntendedRole(stage, i) == LabelRole(Steps(stage)[i])
    ensures IntendedRole(stage, i) != Nothing
  {
  }

  // ---------------------------------------------------------------------------
  // Field edits

  /** The `onChange` handlers of the text inputs, selects and slider (all but the stage). */
  datatype FieldEdit =
    | SetName(name: string) | SetAge(age: string) | SetEmail(email: string)
    | SetPhone(phone: string) | SetClass10Marks(class10Marks: string)
    | SetClass12Marks(class12Marks: string) | SetStream(stream: string)
    | SetCurrentCourse(currentCourse: string) | SetExamResults(examResults: string)
    | SetPerformance(performance: seq<int>) | SetCareerGoals(careerGoals: string)
    | SetGoalShift(goalShift: string) | SetPreferredLocation(preferredLocation: string)
    | SetBudgetRange(budgetRange: string) | SetTimeCommitment(timeCommitment: string)
    | SetLearningStyle(learningStyle: string)

  /** `{ ...prev, field: value }` for one edit. */
  function ApplyEdit(f: Form, e: FieldEdit): Form {
    match e
    case SetName(v) => f.(name := v)
    case SetAge(v) => f.(age := v)
    case SetEmail(v) => f.(email := v)
    case SetPhone(v) => f.(phone := v)
    case SetClass10Marks(v) => f.(class10Marks := v)
    case SetClass12Marks(v) => f.(class12Marks := Some(v))
    case SetStream(v) => f.(stream := v)
    case SetCurrentCourse(v) => f.(currentCourse := Some(v))
    case SetExamResults(v) => f.(examResults := Some(v))
    case SetPerformance(v) => f.(performance := Some(v))
    case SetCareerGoals(v) => f.(careerGoals := v)
    case SetGoalShift(v) => f.(goalShift := Some(v))
    case SetPreferredLocation(v) => f.(preferredLocation := v)
    case SetBudgetRange(v) => f.(budgetRange := v)
    case SetTimeCommitment(v) => f.(timeCommitment := v)
    case SetLearningStyle(v) => f.(learningStyle := v)
  }

  /** No field edit touches the stage or the tag lists. */
  lemma ApplyEditKeepsStageAndTags(f: Form, e: FieldEdit)
    ensures ApplyEdit(f, e).stage == f.stage
    ensures ApplyEdit(f, e).skills == f.skills && ApplyEdit(f, e).interests == f.interests
  {
  }

  // ---------------------------------------------------------------------------
  // The wizard

  class Wizard {
    var currentStep: int
    var form: Form
    var errors: map<Field, string>
    var saved: Option<Form>

    /** The step index is in range for the current stage, and the tag lists hold no duplicates. */
    ghost predicate Valid()
      reads this
    {
      0 <= currentStep < |Steps(form.stage)| &&
      NoDuplicates(form.skills) && NoDuplicates(form.interests)
    }

    constructor ()
      ensures Valid()
      ensures currentStep == 0 && form == InitialForm && errors == map[] && saved == None
    {
      currentStep := 0;
      form := InitialForm;
      errors := map[];
      saved := None;
    }

    /** `validateStep`: builds a fresh error map for the current index and replaces `errors`. */
    method ValidateStep() returns (ok: bool)
      requires Valid()
      modifies this`errors
      ensures Valid()
      ensures errors == StepErrors(currentStep, form)
      ensures ok <==> errors == map[]
    {
      var newErrors: map<Field, string> := map[];
      if currentStep == 0 {
        if form.stage == Unset { newErrors := newErrors[StageField := StageRequired]; }
        assert newErrors == StepErrors(0, form);
      } else if currentStep == 1 {
        if Trim(form.name) == "" { newErrors := newErrors[NameField := NameRequired]; }
        if form.age == "" { newErrors := newErrors[AgeField := AgeRequired]; }
        assert newErrors == StepErrors(1, form);
      } else if currentStep == 2 {
        if Trim(form.email) == "" {
          newErrors := newErrors[EmailField := EmailRequired];
        } else if !HasEmailShape(form.email) {
          newErrors := newErrors[EmailField := EmailInvalid];
        }
        assert newErrors == StepErrors(2, form);
      } else if currentStep == 3 {
        if form.class10Marks == "" { newErrors := newErrors[Class10MarksField := MarksRequired]; }
        if form.stream == "" { newErrors := newErrors[StreamField := StreamRequired]; }
        assert newErrors == StepErrors(3, form);
      }
      errors := newErrors;
      ok := newErrors == map[];
    }

    /**
     * `handleNext`: validate; on success advance one step, or on the last step save the
     * record (under `StorageKey`) and stay.
     */
    method Next()
      requires Valid()
      modifies this`currentStep, this`errors, this`saved
      ensures Valid()
      ensures form == old(form)
      ensures errors == StepErrors(old(currentStep), form)
      ensures errors != map[] ==> currentStep == old(currentStep) && saved == old(saved)
      ensures errors == map[] && old(currentStep) < |Steps(form.stage)| - 1 ==>
                currentStep == old(currentStep) + 1 && saved == old(saved)
      ensures errors == map[] && old(currentStep) == |Steps(form.stage)| - 1 ==>
                currentStep == old(currentStep) && saved == Some(form)
    {
      var ok := ValidateStep();
      if !ok {
        return;
      }
      var steps := Steps(form.stage);
      if currentStep < |steps| - 1 {
        currentStep := currentStep + 1;
      } else {
        saved := Some(form);
      }
    }

    /** `handlePrevious`: step back unless at the first step; nothing is validated. */
    method Previous()
      requires Valid()
      modifies this`currentStep
      ensures Valid()
      ensures currentStep == if old(currentStep) > 0 then old(currentStep) - 1 else 0
      ensures form == old(form) && errors == old(errors) && saved == old(saved)
    {
      if currentStep > 0 {
        currentStep := currentStep - 1;
      }
    }

    /** The stage radio's handler; the radio group is shown only on step 0. */
    method SetStage(stage: Stage)
      requires Valid() && currentStep == 0
      modifies this`form
      ensures Valid()
      ensures form == old(form).(stage := stage)
    {
      form := form.(stage := stage);
    }

    /** Any other field's handler. */
    method EditField(e: FieldEdit)
      requires Valid()
      modifies this`form
      ensures Valid()
      ensures form == ApplyEdit(old(form), e)
    {
      ApplyEditKeepsStageAndTags(form, e);
      form := ApplyEdit(form, e);
    }

    /** `handleSkillToggle`. */
    method ToggleSkill(skill: string)
      requires Valid()
      modifies this`form
      ensures Valid()
      ensures form == old(form).(skills := Toggle(old(form).skills, skill))
      ensures skill in form.skills <==> skill !in old(form).skills
    {
      ToggleKeepsDistinct(form.skills, skill);
      ToggleFlipsMembership(form.skills, skill);
      form := form.(skills := Toggle(form.skills, skill));
    }

    /** `handleInterestToggle`. */
    method ToggleInterest(interest: string)
      requires Valid()
      modifies this`form
      ensures Valid()
      ensures form == old(form).(interests := Toggle(old(form).interests, interest))
      ensures interest in form.interests <==> interest !in old(form).interests
    {
      ToggleKeepsDistinct(form.interests, interest);
      ToggleFlipsMembership(form.interests, interest);
      form := form.(interests := Toggle(form.interests, interest));
    }
  }

  /** With no stage chosen, `Next` from the first step is refused with the stage message. */
  method NextWithoutStageIsRefused()
  {
    var w := new Wizard();
    w.Next();
    assert w.errors == map[StageField := StageRequired];
    assert StageField in w.errors;
    assert w.currentStep == 0 && w.saved == None;
  }
}
