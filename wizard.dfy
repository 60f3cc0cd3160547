/** The multi-step registration wizard: a step counter and the accumulated
    nine-field record, and the three step forms it renders one at a time.

    The step forms are modelled by the callbacks they invoke (see module
    Callbacks); `Run` gives their meaning against the wizard's handlers, and
    `Transition` is one user action on whatever screen is shown. The class
    `MultiStepForm` holds the state and is proved against `Transition`.
 */
module Wizard {

  import opened Callbacks
  import PersonalInfoForm
  import AddressInfoForm
  import AccountInfoForm

  const FieldNames: set<string> :=
    {"fullName", "email", "dateOfBirth", "streetAddress", "city", "state", "zipCode", "username", "password"}

  /** The record the wizard starts with: all nine fields, each empty. */
  const InitialFormData: map<string, string> := map[
    "fullName" := "", "email" := "", "dateOfBirth" := "",
    "streetAddress" := "", "city" := "", "state" := "", "zipCode" := "",
    "username" := "", "password" := ""]

  /** Merging the same data twice is merging it once. */
  lemma MergeIdempotent(formData: map<string, string>, newData: map<string, string>)
    ensures Merge(Merge(formData, newData), newData) == Merge(formData, newData)
  {
  }

  /** A step form submits the whole record it was given, with its own fields
      overwritten; merging that has the same effect as merging only those fields. */
  lemma MergeOfSubmittedValues(formData: map<string, string>, entered: map<string, string>)
    ensures Merge(formData, Merge(formData, entered)) == Merge(formData, entered)
  {
  }

  datatype WizardState = WizardState(step: int, formData: map<string, string>)

  const Initial := WizardState(1, InitialFormData)

  /** Which form the wizard renders for a step; nothing is rendered outside 1..3. */
  datatype Screen = PersonalScreen | AddressScreen | AccountScreen | NoScreen

  function ScreenOf(step: int): Screen
  {
    if step == 1 then PersonalScreen
    else if step == 2 then AddressScreen
    else if step == 3 then AccountScreen
    else NoScreen
  }

  /** What the user submits on a screen: the values of that screen's fields. */
  datatype StepInput =
    | PersonalInput(personal: PersonalInfoForm.PersonalValues)
    | AddressInput(address: AddressInfoForm.AddressValues)
    | AccountInput(account: AccountInfoForm.AccountValues)

  datatype UserAction = Submit(input: StepInput) | PressPrevious

  /** The wizard's handlers: `handleFormDataChange`, `handleNextStep` and
      `handlePrevStep`. The step handlers carry no bounds check. */
  function Apply(s: WizardState, c: Callback): WizardState
  {
    match c
    case OnChange(d) => s.(formData := Merge(s.formData, d))
    case OnNext => s.(step := s.step + 1)
    case OnPrev => s.(step := s.step - 1)
  }

  /** Callbacks invoked one after the other. */
  function Run(s: WizardState, calls: seq<Callback>): WizardState
    decreases |calls|
  {
    if calls == [] then s else Run(Apply(s, calls[0]), calls[1..])
  }

  /** The callbacks a user action invokes on the screen that is shown. The first
      screen receives no `onPrev` and shows no Previous button; the last
      receives no `onNext`. An input for another screen cannot be submitted,
      since that form is not rendered. */
  function Calls(s: WizardState, a: UserAction, isEmail: string -> bool): seq<Callback>
  {
    match ScreenOf(s.step)
    case PersonalScreen =>
      (match a
       case Submit(PersonalInput(v)) => PersonalInfoForm.HandleSubmit(s.formData, v, isEmail)
       case _ => [])
    case AddressScreen =>
      (match a
       case Submit(AddressInput(v)) => AddressInfoForm.HandleSubmit(s.formData, v)
       case PressPrevious => AddressInfoForm.Previous()
       case _ => [])
    case AccountScreen =>
      (match a
       case Submit(AccountInput(v)) => AccountInfoForm.HandleSubmit(s.formData, v)
       case PressPrevious => AccountInfoForm.Previous()
       case _ => [])
    case NoScreen => []
  }

  function Transition(s: WizardState, a: UserAction, isEmail: string -> bool): WizardState
  {
    Run(s, Calls(s, a, isEmail))
  }

  lemma RunChangeThenNext(s: WizardState, d: map<string, string>)
    ensures Run(s, [OnChange(d), OnNext]) == WizardState(s.step + 1, Merge(s.formData, d))
  {
    assert [OnChange(d), OnNext][1..] == [OnNext];
    assert [OnNext][1..] == [];
  }

  lemma RunOne(s: WizardState, c: Callback)
    ensures Run(s, [c]) == Apply(s, c)
  {
    assert [c][1..] == [];
  }

  /** The handlers have no bounds check, but the rendered controls keep the
      step between 1 and 3. */
  lemma StepStaysInRange(s: WizardState, a: UserAction, isEmail: string -> bool)
    requires 1 <= s.step <= 3
    ensures 1 <= Transition(s, a, isEmail).step <= 3
  {
    TransitionCases(s, a, isEmail);
  }

  /** The record keeps exactly its nine fields. */
  lemma RecordKeepsItsFields(s: WizardState, a: UserAction, isEmail: string -> bool)
    requires s.formData.Keys == FieldNames
    ensures Transition(s, a, isEmail).formData.Keys == FieldNames
  {
    TransitionCases(s, a, isEmail);
  }

  /** A valid submit on the first step merges the entered fields, then advances. */
  lemma PersonalSubmit(s: WizardState, v: PersonalInfoForm.PersonalValues, isEmail: string -> bool)
    requires s.step == 1
    ensures PersonalInfoForm.Errors(v, isEmail) == map[] ==>
      Transition(s, Submit(PersonalInput(v)), isEmail) == WizardState(2, Merge(s.formData, PersonalInfoForm.Entered(v)))
    ensures PersonalInfoForm.Errors(v, isEmail) != map[] ==>
      Transition(s, Submit(PersonalInput(v)), isEmail) == s
  {
    if PersonalInfoForm.Errors(v, isEmail) == map[] {
      RunChangeThenNext(s, Merge(s.formData, PersonalInfoForm.Entered(v)));
      MergeOfSubmittedValues(s.formData, PersonalInfoForm.Entered(v));
    }
  }

  /** A valid submit on the second step merges the entered fields, then advances. */
  lemma AddressSubmit(s: WizardState, v: AddressInfoForm.AddressValues, isEmail: string -> bool)
    requires s.step == 2
    ensures AddressInfoForm.Errors(v) == map[] ==>
      Transition(s, Submit(AddressInput(v)), isEmail) == WizardState(3, Merge(s.formData, AddressInfoForm.Entered(v)))
    ensures AddressInfoForm.Errors(v) != map[] ==>
      Transition(s, Submit(AddressInput(v)), isEmail) == s
  {
    if AddressInfoForm.Errors(v) == map[] {
      RunChangeThenNext(s, Merge(s.formData, AddressInfoForm.Entered(v)));
      MergeOfSubmittedValues(s.formData, AddressInfoForm.Entered(v));
    }
  }

  /** A valid submit on the last step merges the entered fields and stays on that step. */
  lemma AccountSubmit(s: WizardState, v: AccountInfoForm.AccountValues, isEmail: string -> bool)
    requires s.step == 3
    ensures AccountInfoForm.Errors(v) == map[] ==>
      Transition(s, Submit(AccountInput(v)), isEmail) == WizardState(3, Merge(s.formData, AccountInfoForm.Entered(v)))
    ensures AccountInfoForm.Errors(v) != map[] ==>
      Transition(s, Submit(AccountInput(v)), isEmail) == s
  {
    if AccountInfoForm.Errors(v) == map[] {
      RunOne(s, OnChange(Merge(s.formData, AccountInfoForm.Entered(v))));
      MergeOfSubmittedValues(s.formData, AccountInfoForm.Entered(v));
    }
  }

  /** Previous goes back one step without validating and without passing on
      what was entered; on the first step there is no Previous button. */
  lemma PreviousKeepsRecord(s: WizardState, isEmail: string -> bool)
    ensures s.step == 2 || s.step == 3 ==> Transition(s, PressPrevious, isEmail) == s.(step := s.step - 1)
    ensures s.step == 1 ==> Transition(s, PressPrevious, isEmail) == s
  {
    RunOne(s, OnPrev);
  }

  /** Every action, on every step, in one place. */
  lemma TransitionCases(s: WizardState, a: UserAction, isEmail: string -> bool)
    ensures var t := Transition(s, a, isEmail);
      || t == s
      || (a.PressPrevious? && (s.step == 2 || s.step == 3) && t == s.(step := s.step - 1))
      || (a.Submit? && (s.step == 1 || s.step == 2) && t.step == s.step + 1
          && t.formData == Merge(s.formData, StepEntered(a.input))
          && t.formData.Keys == s.formData.Keys + StepFields(a.input))
      || (a.Submit? && s.step == 3 && t.step == 3
          && t.formData == Merge(s.formData, StepEntered(a.input))
          && t.formData.Keys == s.formData.Keys + StepFields(a.input))
  {
    match a
    case PressPrevious => PreviousKeepsRecord(s, isEmail);
    case Submit(PersonalInput(v)) =>
      if s.step == 1 { PersonalSubmit(s, v, isEmail); }
    case Submit(AddressInput(v)) =>
      if s.step == 2 { AddressSubmit(s, v, isEmail); }
    case Submit(AccountInput(v)) =>
      if s.step == 3 { AccountSubmit(s, v, isEmail); }
  }

  function StepFields(input: StepInput): set<string>
  {
    match input
    case PersonalInput(_) => PersonalInfoForm.Fields
    case AddressInput(_) => AddressInfoForm.Fields
    case AccountInput(_) => AccountInfoForm.Fields
  }

  /** The fields a step's form registers, as entered. */
  function StepEntered(input: StepInput): (m: map<string, string>)
    ensures m.Keys == StepFields(input)
  {
    match input
    case PersonalInput(v) => PersonalInfoForm.Entered(v)
    case AddressInput(v) => AddressInfoForm.Entered(v)
    case AccountInput(v) => AccountInfoForm.Entered(v)
  }

  /** Going back re-shows the values accepted on the step before, because every
      screen starts from the whole accumulated record. */
  lemma BackReshowsAcceptedValues(s: WizardState, v: PersonalInfoForm.PersonalValues, isEmail: string -> bool)
    requires s.step == 1 && PersonalInfoForm.Errors(v, isEmail) == map[]
    ensures var back := Transition(Transition(s, Submit(PersonalInput(v)), isEmail), PressPrevious, isEmail);
      back.step == 1 && PersonalInfoForm.Defaults(back.formData) == v
  {
    PersonalSubmit(s, v, isEmail);
    var t := Transition(s, Submit(PersonalInput(v)), isEmail);
    PreviousKeepsRecord(t, isEmail);
    PersonalInfoForm.DefaultsOfEntered(s.formData, v);
  }

  /** Going back from the last step re-shows the accepted address. */
  lemma BackReshowsAcceptedAddress(s: WizardState, v: AddressInfoForm.AddressValues, isEmail: string -> bool)
    requires s.step == 2 && AddressInfoForm.Errors(v) == map[]
    ensures var back := Transition(Transition(s, Submit(AddressInput(v)), isEmail), PressPrevious, isEmail);
      back.step == 2 && AddressInfoForm.Defaults(back.formData) == v
  {
    AddressSubmit(s, v, isEmail);
    var t := Transition(s, Submit(AddressInput(v)), isEmail);
    PreviousKeepsRecord(t, isEmail);
    AddressInfoForm.DefaultsOfEntered(s.formData, v);
  }

  /** Going back after a submit and submitting the same values again gives the
      same state as the first submit. */
  lemma ReentryIsIdempotent(s: WizardState, input: StepInput, isEmail: string -> bool)
    requires s.step == 1 || s.step == 2
    ensures var t := Transition(s, Submit(input), isEmail);
      t.step == s.step + 1 ==>
        Transition(Transition(t, PressPrevious, isEmail), Submit(input), isEmail) == t
  {
    var t := Transition(s, Submit(input), isEmail);
    if t.step == s.step + 1 {
      PreviousKeepsRecord(t, isEmail);
      var back := t.(step := s.step);
      match input
      case PersonalInput(v) =>
        PersonalSubmit(s, v, isEmail);
        PersonalSubmit(back, v, isEmail);
        MergeIdempotent(s.formData, PersonalInfoForm.Entered(v));
      case AddressInput(v) =>
        AddressSubmit(s, v, isEmail);
        AddressSubmit(back, v, isEmail);
        MergeIdempotent(s.formData, AddressInfoForm.Entered(v));
      case AccountInput(v) =>
    }
  }

  /** Three valid submits from the start reach the last step, and the record then
      holds every field as it was entered on its step. */
  lemma CompletedRecord(
    p: PersonalInfoForm.PersonalValues, a: AddressInfoForm.AddressValues, c: AccountInfoForm.AccountValues,
    isEmail: string -> bool)
    requires PersonalInfoForm.Errors(p, isEmail) == map[]
    requires AddressInfoForm.Errors(a) == map[]
    requires AccountInfoForm.Errors(c) == map[]
    ensures var done := Transition(Transition(Transition(Initial,
        Submit(PersonalInput(p)), isEmail), Submit(AddressInput(a)), isEmail), Submit(AccountInput(c)), isEmail);
      && done.step == 3
      && done.formData.Keys == FieldNames
      && PersonalInfoForm.Defaults(done.formData) == p
      && AddressInfoForm.Defaults(done.formData) == a
      && AccountInfoForm.Defaults(done.formData) == c
  {
    var ep, ea, ec := PersonalInfoForm.Entered(p), AddressInfoForm.Entered(a), AccountInfoForm.Entered(c);
    PersonalSubmit(Initial, p, isEmail);
    var s1 := Transition(Initial, Submit(PersonalInput(p)), isEmail);
    assert s1 == WizardState(2, InitialFormData + ep);
    AddressSubmit(s1, a, isEmail);
    var s2 := Transition(s1, Submit(AddressInput(a)), isEmail);
    assert s2 == WizardState(3, InitialFormData + ep + ea);
    AccountSubmit(s2, c, isEmail);
    var done := Transition(s2, Submit(AccountInput(c)), isEmail);
    assert done == WizardState(3, InitialFormData + ep + ea + ec);
    ThreeStepRecord(p, a, c);
  }

  lemma ThreeStepRecord(p: PersonalInfoForm.PersonalValues, a: AddressInfoForm.AddressValues, c: AccountInfoForm.AccountValues)
    ensures var m := InitialFormData + PersonalInfoForm.Entered(p) + AddressInfoForm.Entered(a) + AccountInfoForm.Entered(c);
      && m.Keys == FieldNames
      && PersonalInfoForm.Defaults(m) == p
      && AddressInfoForm.Defaults(m) == a
      && AccountInfoForm.Defaults(m) == c
  {
    var ep, ea, ec := PersonalInfoForm.Entered(p), AddressInfoForm.Entered(a), AccountInfoForm.Entered(c);
    PersonalInfoForm.DefaultsOfEntered(InitialFormData, p);
    LaterStepsKeepDefaults(InitialFormData + ep, ea + ec, PersonalInfoForm.Fields);
    assert InitialFormData + ep + ea + ec == (InitialFormData + ep) + (ea + ec);
    AddressInfoForm.DefaultsOfEntered(InitialFormData + ep, a);
    LaterStepsKeepDefaults(InitialFormData + ep + ea, ec, AddressInfoForm.Fields);
    AccountInfoForm.DefaultsOfEntered(InitialFormData + ep + ea, c);
  }

  /** Merging fields of other steps leaves a step's own fields as they were. */
  lemma LaterStepsKeepDefaults(m: map<string, string>, later: map<string, string>, fields: set<string>)
    requires later.Keys !! fields
    ensures forall f :: f in fields ==> Lookup(m + later, f) == Lookup(m, f)
  {
  }

  class MultiStepForm {
    var step: int
    var formData: map<string, string>

    function State(): WizardState
      reads this
    {
      WizardState(step, formData)
    }

    constructor ()
      ensures State() == Initial
    {
      step := 1;
      formData := InitialFormData;
    }

    method HandleNextStep()
      modifies this
      ensures step == old(step) + 1 && formData == old(formData)
    {
      step := step + 1;
    }

    method HandlePrevStep()
      modifies this
      ensures step == old(step) - 1 && formData == old(formData)
    {
      step := step - 1;
    }

    method HandleFormDataChange(newData: map<string, string>)
      modifies this
      ensures formData == Merge(old(formData), newData) && step == old(step)
    {
      formData := formData + newData;
    }

    /** One user action on the screen that is shown: each form's submit handler
        calls `onChange` and then, except on the last step, `onNext`; the
        Previous buttons call `onPrev`. */
    method Perform(a: UserAction, isEmail: string -> bool)
      modifies this
      ensures State() == Transition(old(State()), a, isEmail)
    {
      ghost var before := State();
      PreviousKeepsRecord(before, isEmail);
      if step == 1 {
        if a.Submit? && a.input.PersonalInput? {
          var v := a.input.personal;
          PersonalSubmit(before, v, isEmail);
          if PersonalInfoForm.Errors(v, isEmail) == map[] {
            HandleFormDataChange(Merge(formData, PersonalInfoForm.Entered(v)));
            HandleNextStep();
          }
        }
      } else if step == 2 {
        if a.Submit? && a.input.AddressInput? {
          var v := a.input.address;
          AddressSubmit(before, v, isEmail);
          if AddressInfoForm.Errors(v) == map[] {
            HandleFormDataChange(Merge(formData, AddressInfoForm.Entered(v)));
            HandleNextStep();
          }
        } else if a.PressPrevious? {
          HandlePrevStep();
        }
      } else if step == 3 {
        if a.Submit? && a.input.AccountInput? {
          var v := a.input.account;
          AccountSubmit(before, v, isEmail);
          if AccountInfoForm.Errors(v) == map[] {
            HandleFormDataChange(Merge(formData, AccountInfoForm.Entered(v)));
          }
        } else if a.PressPrevious? {
          HandlePrevStep();
        }
      }
    }
  }
}
