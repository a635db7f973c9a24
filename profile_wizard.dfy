/**
 * The four-step profile wizard of client/src/pages/profile/ProfileWizard.tsx: a step
 * cursor gated by per-step validity, the form values and touched fields it keeps, the
 * "same as billing" toggle, and the submission that marks the profile completed.
 *
 * The form's errors are those of its validation schema on the current values (the form
 * revalidates on every change, blur and touch). The mailing fields are conditionally
 * required on a form value `sameAsBilling` that the form never defines, so as written
 * they are never in error.
 */
module ProfileWizard {
  import opened Wrappers
  import opened Session

  /** The steps, by id, in the order the wizard walks them. */
  const StepIds: seq<string> := ["personal", "address", "mailing", "preferences"]
  const LastStep: nat := |StepIds| - 1

  datatype Field =
    | FirstName | LastName | Phone | DateOfBirth
    | AddressLine1 | AddressLine2 | City | State | PostalCode | Country
    | MailingAddressLine1 | MailingAddressLine2 | MailingCity | MailingState | MailingPostalCode | MailingCountry
    | EmailNotifications | SmsNotifications | Language

  /** The text fields: every field but the two notification checkboxes. */
  predicate IsText(f: Field)
  {
    !f.EmailNotifications? && !f.SmsNotifications?
  }

  const PersonalFields: set<Field> := {FirstName, LastName, Phone, DateOfBirth}
  const BillingFields: set<Field> := {AddressLine1, AddressLine2, City, State, PostalCode, Country}
  const MailingFields: set<Field> := {MailingAddressLine1, MailingAddressLine2, MailingCity, MailingState, MailingPostalCode, MailingCountry}
  const AllFields: set<Field> := PersonalFields + BillingFields + MailingFields + {EmailNotifications, SmsNotifications, Language}

  /** The mailing field each billing field is copied into. */
  function MailingOf(f: Field): Field
    requires f in BillingFields
  {
    match f
    case AddressLine1 => MailingAddressLine1
    case AddressLine2 => MailingAddressLine2
    case City => MailingCity
    case State => MailingState
    case PostalCode => MailingPostalCode
    case Country => MailingCountry
  }

  /** The values after checking "same as billing": each mailing value becomes its billing value. */
  function CopyBilling(values: map<Field, string>): (r: map<Field, string>)
    ensures forall f :: f in BillingFields ==> Value(r, MailingOf(f)) == Value(values, f)
    ensures forall f :: f !in MailingFields ==> Value(r, f) == Value(values, f)
  {
    values[MailingAddressLine1 := Value(values, AddressLine1)]
          [MailingAddressLine2 := Value(values, AddressLine2)]
          [MailingCity := Value(values, City)]
          [MailingState := Value(values, State)]
          [MailingPostalCode := Value(values, PostalCode)]
          [MailingCountry := Value(values, Country)]
  }

  /** The inputs a step shows, and so the fields a user can edit or leave there. */
  function StepFields(step: nat, sameAsBilling: bool): set<Field>
  {
    if step == 0 then PersonalFields
    else if step == 1 then BillingFields
    else if step == 2 then (if sameAsBilling then {} else MailingFields)
    else {EmailNotifications, SmsNotifications, Language}
  }

  /** The text values the form starts with; the names come from the signed-in user if known. */
  function InitialValues(user: Option<AuthUser>): (v: map<Field, string>)
    ensures forall f: Field :: IsText(f) <==> f in v
    ensures Value(v, Country) == "United States" && Value(v, MailingCountry) == "United States"
    ensures Value(v, Language) == "en"
    ensures forall f: Field :: f !in {FirstName, LastName, Country, MailingCountry, Language} ==> Value(v, f) == ""
  {
    var first := if user.Some? && user.value.firstName.Some? then user.value.firstName.value else "";
    var last := if user.Some? && user.value.lastName.Some? then user.value.lastName.value else "";
    map[FirstName := first, LastName := last, Phone := "", DateOfBirth := "",
        AddressLine1 := "", AddressLine2 := "", City := "", State := "", PostalCode := "", Country := "United States",
        MailingAddressLine1 := "", MailingAddressLine2 := "", MailingCity := "", MailingState := "",
        MailingPostalCode := "", MailingCountry := "United States", Language := "en"]
  }

  /**
   * Whether the schema rejects field `f` with value `v`: the required strings must not
   * be empty, the birth date must parse as a date (`isDate`, library behaviour), and
   * no other field is constrained.
   */
  predicate HasError(f: Field, v: string, isDate: string -> bool)
  {
    match f
    case FirstName | LastName | Phone | AddressLine1 | City | State | PostalCode | Country => v == ""
    case DateOfBirth => v == "" || !isDate(v)
    case _ => false
  }

  function Value(values: map<Field, string>, f: Field): string
  {
    if f in values then values[f] else ""
  }

  predicate Ok(values: map<Field, string>, f: Field, isDate: string -> bool)
  {
    !HasError(f, Value(values, f), isDate)
  }

  /** `isStepValid` of `goToNextStep`. */
  predicate StepValid(step: nat, values: map<Field, string>, touched: set<Field>, sameAsBilling: bool, isDate: string -> bool)
  {
    if step == 0 then
      Ok(values, FirstName, isDate) && Ok(values, LastName, isDate) && Ok(values, Phone, isDate) &&
      Ok(values, DateOfBirth, isDate) &&
      FirstName in touched && LastName in touched && Phone in touched && DateOfBirth in touched
    else if step == 1 then
      Ok(values, AddressLine1, isDate) && Ok(values, City, isDate) && Ok(values, State, isDate) &&
      Ok(values, PostalCode, isDate) && Ok(values, Country, isDate) &&
      AddressLine1 in touched && City in touched && State in touched && PostalCode in touched
    else if step == 2 then
      sameAsBilling ||
      (Ok(values, MailingAddressLine1, isDate) && Ok(values, MailingCity, isDate) && Ok(values, MailingState, isDate) &&
       Ok(values, MailingPostalCode, isDate) && Ok(values, MailingCountry, isDate))
    else true
  }

  /** The fields `goToNextStep` touches on a step it finds invalid. */
  function StepTouchFields(step: nat, sameAsBilling: bool): set<Field>
  {
    if step == 0 then {FirstName, LastName, Phone, DateOfBirth}
    else if step == 1 then {AddressLine1, City, State, PostalCode, Country}
    else if step == 2 && !sameAsBilling then {MailingAddressLine1, MailingCity, MailingState, MailingPostalCode, MailingCountry}
    else {}
  }

  /** A step's validity depends only on the values of the fields it checks. */
  lemma StepValidReadsChecked(step: nat, v1: map<Field, string>, v2: map<Field, string>, touched: set<Field>,
                              sameAsBilling: bool, isDate: string -> bool)
    requires forall f :: f in StepTouchFields(step, sameAsBilling) ==> Value(v1, f) == Value(v2, f)
    ensures StepValid(step, v1, touched, sameAsBilling, isDate) == StepValid(step, v2, touched, sameAsBilling, isDate)
  {
    if step == 0 {
      assert Value(v1, FirstName) == Value(v2, FirstName) && Value(v1, LastName) == Value(v2, LastName);
      assert Value(v1, Phone) == Value(v2, Phone) && Value(v1, DateOfBirth) == Value(v2, DateOfBirth);
    } else if step == 1 {
      assert Value(v1, AddressLine1) == Value(v2, AddressLine1) && Value(v1, City) == Value(v2, City);
      assert Value(v1, State) == Value(v2, State) && Value(v1, PostalCode) == Value(v2, PostalCode);
      assert Value(v1, Country) == Value(v2, Country);
    } else if step == 2 && !sameAsBilling {
      assert Value(v1, MailingAddressLine1) == Value(v2, MailingAddressLine1);
      assert Value(v1, MailingCity) == Value(v2, MailingCity) && Value(v1, MailingState) == Value(v2, MailingState);
      assert Value(v1, MailingPostalCode) == Value(v2, MailingPostalCode);
      assert Value(v1, MailingCountry) == Value(v2, MailingCountry);
    }
  }

  /** Touching more fields never makes a valid step invalid. */
  lemma StepValidMoreTouched(step: nat, values: map<Field, string>, t1: set<Field>, t2: set<Field>,
                             sameAsBilling: bool, isDate: string -> bool)
    requires t1 <= t2 && StepValid(step, values, t1, sameAsBilling, isDate)
    ensures StepValid(step, values, t2, sameAsBilling, isDate)
  {
  }

  /** The personal and address steps do not look at the "same as billing" box. */
  lemma EarlyStepIgnoresSameAsBilling(step: nat, values: map<Field, string>, touched: set<Field>,
                                      b1: bool, b2: bool, isDate: string -> bool)
    requires step < 2
    ensures StepValid(step, values, touched, b1, isDate) == StepValid(step, values, touched, b2, isDate)
  {
  }

  /** Copying the billing address into the mailing one leaves the earlier steps as valid as they were. */
  lemma CopyBillingKeepsEarlySteps(step: nat, values: map<Field, string>, touched: set<Field>,
                                   b1: bool, b2: bool, isDate: string -> bool)
    requires step < 2
    ensures StepValid(step, CopyBilling(values), touched, b2, isDate) == StepValid(step, values, touched, b1, isDate)
  {
    var r := CopyBilling(values);
    forall f | f in StepTouchFields(step, b2)
      ensures Value(r, f) == Value(values, f)
    {
      assert f !in MailingFields;
    }
    StepValidReadsChecked(step, values, r, touched, b2, isDate);
  }

  /** `AllFields` names every field of the form. */
  lemma AllFieldsComplete(f: Field)
    ensures f in AllFields
  {
  }

  /** The whole form passes the schema. */
  predicate NoErrors(values: map<Field, string>, isDate: string -> bool)
  {
    forall f: Field :: Ok(values, f, isDate)
  }

  /** As written, the mailing step never blocks: its fields are never in error. */
  lemma MailingStepAlwaysValid(values: map<Field, string>, touched: set<Field>, sameAsBilling: bool, isDate: string -> bool)
    ensures StepValid(2, values, touched, sameAsBilling, isDate)
  {
  }

  /** The steps before `step` being valid clears every field the schema checks. */
  lemma EarlierStepsClearSchema(step: nat, values: map<Field, string>, touched: set<Field>,
                                sameAsBilling: bool, isDate: string -> bool)
    requires step >= 2
    requires forall s :: 0 <= s < step ==> StepValid(s, values, touched, sameAsBilling, isDate)
    ensures NoErrors(values, isDate)
  {
    assert StepValid(0, values, touched, sameAsBilling, isDate);
    assert StepValid(1, values, touched, sameAsBilling, isDate);
    forall f: Field
      ensures Ok(values, f, isDate)
    {
    }
  }

  class Wizard {
    var currentStep: nat
    var sameAsBilling: bool
    var values: map<Field, string>
    var emailNotifications: bool
    var smsNotifications: bool
    var touched: set<Field>
    var user: Option<AuthUser>
    var navigatedTo: Option<string>
    const isDate: string -> bool

    /** The cursor is on a step, and every step already passed is still valid. */
    ghost predicate Valid()
      reads this
    {
      currentStep <= LastStep &&
      forall s :: 0 <= s < currentStep ==> StepValid(s, values, touched, sameAsBilling, isDate)
    }

    constructor (signedIn: Option<AuthUser>, isDate: string -> bool)
      ensures Valid()
      ensures currentStep == 0 && sameAsBilling && touched == {} && navigatedTo == None
      ensures values == InitialValues(signedIn) && emailNotifications && !smsNotifications
      ensures user == signedIn && this.isDate == isDate
    {
      currentStep := 0;
      sameAsBilling := true;
      values := InitialValues(signedIn);
      emailNotifications := true;
      smsNotifications := false;
      touched := {};
      user := signedIn;
      navigatedTo := None;
      this.isDate := isDate;
    }

    /** `formik.handleChange` on an input the current step shows. */
    method Edit(f: Field, v: string)
      requires Valid() && IsText(f) && f in StepFields(currentStep, sameAsBilling)
      modifies this`values
      ensures Valid()
      ensures values == old(values)[f := v]
    {
      var before := values;
      values := values[f := v];
      forall s | 0 <= s < currentStep
        ensures StepValid(s, values, touched, sameAsBilling, isDate)
      {
        assert f !in StepTouchFields(s, sameAsBilling);
        StepValidReadsChecked(s, before, values, touched, sameAsBilling, isDate);
      }
    }

    /** `formik.handleBlur` on an input the current step shows: the field becomes touched. */
    method Blur(f: Field)
      requires Valid() && f in StepFields(currentStep, sameAsBilling)
      modifies this`touched
      ensures Valid()
      ensures touched == old(touched) + {f}
    {
      touched := touched + {f};
      forall s | 0 <= s < currentStep
        ensures StepValid(s, values, touched, sameAsBilling, isDate)
      {
        StepValidMoreTouched(s, values, old(touched), touched, sameAsBilling, isDate);
      }
    }

    /** The two notification checkboxes of the preferences step. */
    method SetNotifications(email: bool, sms: bool)
      requires Valid() && currentStep == LastStep
      modifies this`emailNotifications, this`smsNotifications
      ensures Valid()
      ensures emailNotifications == email && smsNotifications == sms
    {
      emailNotifications := email;
      smsNotifications := sms;
    }

    /**
     * `handleSameAsBillingChange`: checking copies the six billing values into the six
     * mailing values and changes nothing else; unchecking changes no value.
     */
    method HandleSameAsBillingChange(checked: bool)
      requires Valid() && currentStep == 2
      modifies this`sameAsBilling, this`values
      ensures Valid()
      ensures sameAsBilling == checked
      ensures !checked ==> values == old(values)
      ensures checked ==> values == CopyBilling(old(values))
    {
      var before := values;
      var wasSame := sameAsBilling;
      sameAsBilling := checked;
      if checked {
        values := CopyBilling(values);
      }
      forall s | 0 <= s < 2
        ensures StepValid(s, values, touched, sameAsBilling, isDate)
      {
        if checked {
          CopyBillingKeepsEarlySteps(s, before, touched, wasSame, sameAsBilling, isDate);
        } else {
          EarlyStepIgnoresSameAsBilling(s, before, touched, wasSame, sameAsBilling, isDate);
        }
      }
    }

    /**
     * `formik.submitForm`: touches every field, and when the schema passes runs
     * `onSubmit`, which records the names and the completed profile on the signed-in
     * user and navigates to the survey.
     */
    method SubmitForm()
      requires Valid()
      modifies this`touched, this`user, this`navigatedTo
      ensures Valid()
      ensures touched == AllFields
      ensures NoErrors(values, isDate) ==>
        user == UpdateUser(old(user), UserPatch(Some(Value(values, FirstName)), Some(Value(values, LastName)), Some(true), None)) &&
        navigatedTo == Some("/survey")
      ensures !NoErrors(values, isDate) ==> user == old(user) && navigatedTo == old(navigatedTo)
    {
      forall f | f in touched
        ensures f in AllFields
      {
        AllFieldsComplete(f);
      }
      touched := AllFields;
      assert forall s :: 0 <= s < currentStep ==> StepValid(s, values, touched, sameAsBilling, isDate) by {
        forall s | 0 <= s < currentStep
          ensures StepValid(s, values, touched, sameAsBilling, isDate)
        {
          StepValidMoreTouched(s, values, old(touched), touched, sameAsBilling, isDate);
        }
      }
      if NoErrors(values, isDate) {
        user := UpdateUser(user, UserPatch(Some(Value(values, FirstName)), Some(Value(values, LastName)), Some(true), None));
        navigatedTo := Some("/survey");
      }
    }

    /**
     * `goToNextStep`: a valid step below the last advances by one; the last step
     * submits; an invalid step stays put and touches its fields.
     */
    method GoToNextStep()
      requires Valid()
      modifies this`currentStep, this`touched, this`user, this`navigatedTo
      ensures Valid()
      ensures var valid := StepValid(old(currentStep), values, old(touched), sameAsBilling, isDate);
        (valid && old(currentStep) < LastStep ==>
          currentStep == old(currentStep) + 1 && touched == old(touched) &&
          user == old(user) && navigatedTo == old(navigatedTo)) &&
        (valid && old(currentStep) == LastStep ==>
          currentStep == old(currentStep) && touched == AllFields &&
          user == UpdateUser(old(user), UserPatch(Some(Value(values, FirstName)), Some(Value(values, LastName)), Some(true), None)) &&
          navigatedTo == Some("/survey")) &&
        (!valid ==>
          currentStep == old(currentStep) && touched == old(touched) + StepTouchFields(old(currentStep), sameAsBilling) &&
          user == old(user) && navigatedTo == old(navigatedTo))
    {
      if StepValid(currentStep, values, touched, sameAsBilling, isDate) {
        if currentStep < LastStep {
          currentStep := currentStep + 1;
        } else {
          EarlierStepsClearSchema(currentStep, values, touched, sameAsBilling, isDate);
          SubmitForm();
        }
      } else {
        touched := touched + StepTouchFields(currentStep, sameAsBilling);
        forall s | 0 <= s < currentStep
          ensures StepValid(s, values, touched, sameAsBilling, isDate)
        {
          StepValidMoreTouched(s, values, old(touched), touched, sameAsBilling, isDate);
        }
      }
    }

    /** `goToPreviousStep`: back one step, without validation; nothing at the first step. */
    method GoToPreviousStep()
      requires Valid()
      modifies this`currentStep
      ensures Valid()
      ensures currentStep == if old(currentStep) > 0 then old(currentStep) - 1 else 0
    {
      if currentStep > 0 {
        currentStep := currentStep - 1;
      }
    }
  }
}
