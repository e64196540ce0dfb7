/**
 * The page that adds a person: the form state and its error map, editing a
 * field, validating the three required fields, and building and saving the
 * new record.
 */
module AddPerson {
  import opened Wrappers
  import opened JsString
  import opened Types
  import Supabase
  import Storage
  import Routes

  /** The keys of the form state. */
  datatype Field =
    | Name | LastName | Address | PersonalCode | PhoneNumber
    | AdditionalInfo | DiseaseOrProblem | Status | EmergencyNote

  /** The form state: every property of a record except `id` and `createdAt`. */
  datatype FormData = FormData(
    name: string,
    lastName: string,
    address: string,
    personalCode: string,
    phoneNumber: string,
    additionalInfo: string,
    diseaseOrProblem: string,
    status: string,
    emergencyNote: string)

  function Get(form: FormData, f: Field): string
  {
    match f
    case Name => form.name
    case LastName => form.lastName
    case Address => form.address
    case PersonalCode => form.personalCode
    case PhoneNumber => form.phoneNumber
    case AdditionalInfo => form.additionalInfo
    case DiseaseOrProblem => form.diseaseOrProblem
    case Status => form.status
    case EmergencyNote => form.emergencyNote
  }

  /** `{ ...prev, [field]: value }`: the named field takes the value, every other field keeps its own. */
  function Set(form: FormData, f: Field, value: string): (r: FormData)
    ensures Get(r, f) == value
    ensures forall g :: g != f ==> Get(r, g) == Get(form, g)
  {
    match f
    case Name => form.(name := value)
    case LastName => form.(lastName := value)
    case Address => form.(address := value)
    case PersonalCode => form.(personalCode := value)
    case PhoneNumber => form.(phoneNumber := value)
    case AdditionalInfo => form.(additionalInfo := value)
    case DiseaseOrProblem => form.(diseaseOrProblem := value)
    case Status => form.(status := value)
    case EmergencyNote => form.(emergencyNote := value)
  }

  /** The initial form: every field empty except the personal code generated for it. */
  function InitialForm(personalCode: string): (form: FormData)
    ensures Get(form, PersonalCode) == personalCode
    ensures forall f :: f != PersonalCode ==> Get(form, f) == ""
  {
    FormData("", "", "", personalCode, "", "", "", "", "")
  }

  const RequiredFields: set<Field> := {Name, LastName, PhoneNumber}

  /** `!value.trim()` */
  predicate IsBlank(value: string)
  {
    Trim(value) == ""
  }

  /** A form passes validation when none of the three required fields is blank. */
  predicate IsComplete(form: FormData)
  {
    !IsBlank(form.name) && !IsBlank(form.lastName) && !IsBlank(form.phoneNumber)
  }

  /** The error map validation produces: a required field that is blank maps to the message. */
  function RequiredErrors(form: FormData, requiredMessage: string): (errors: map<Field, string>)
    ensures errors.Keys <= RequiredFields
    ensures forall f :: f in errors ==> errors[f] == requiredMessage
  {
    map f | f in RequiredFields && IsBlank(Get(form, f)) :: requiredMessage
  }

  /**
   * Validation fails on exactly the required fields that hold only white
   * space, each with the required message; it succeeds exactly when the
   * error map is empty.
   */
  lemma ValidationErrorsKeys(form: FormData, requiredMessage: string, f: Field)
    ensures f in RequiredErrors(form, requiredMessage) <==> f in RequiredFields && AllWhiteSpace(Get(form, f))
    ensures f in RequiredErrors(form, requiredMessage) ==> RequiredErrors(form, requiredMessage)[f] == requiredMessage
  {
    TrimEmptyIff(Get(form, f));
  }

  lemma ValidationSucceeds(form: FormData, requiredMessage: string)
    ensures RequiredErrors(form, requiredMessage) == map[] <==> IsComplete(form)
  {
    var errors := RequiredErrors(form, requiredMessage);
    if IsComplete(form) {
      forall g | g in RequiredFields ensures !IsBlank(Get(form, g)) {
        assert g == Name || g == LastName || g == PhoneNumber;
      }
      assert errors.Keys == {};
    } else if IsBlank(form.name) {
      assert Name in errors;
    } else if IsBlank(form.lastName) {
      assert LastName in errors;
    } else {
      assert PhoneNumber in errors;
    }
  }

  /** Records the required-field error of one field when its value is blank. */
  function CheckRequired(errors: map<Field, string>, f: Field, value: string, requiredMessage: string): map<Field, string>
  {
    if IsBlank(value) then errors[f := requiredMessage] else errors
  }

  /** The three checks of `validateForm`, applied one after another, build the required-field error map. */
  lemma RequiredErrorsInOrder(form: FormData, requiredMessage: string)
    ensures RequiredErrors(form, requiredMessage) ==
      CheckRequired(CheckRequired(CheckRequired(map[], Name, form.name, requiredMessage),
        LastName, form.lastName, requiredMessage), PhoneNumber, form.phoneNumber, requiredMessage)
  {
    var expected := RequiredErrors(form, requiredMessage);
    var built := CheckRequired(CheckRequired(CheckRequired(map[], Name, form.name, requiredMessage),
        LastName, form.lastName, requiredMessage), PhoneNumber, form.phoneNumber, requiredMessage);
    forall f ensures f in built <==> f in expected {
      if f in RequiredFields {
        assert f == Name || f == LastName || f == PhoneNumber;
      }
    }
  }

  /** The optional fields never decide validation: changing one leaves the error map as it was. */
  lemma {:induction false} OptionalFieldsNeverFail(form: FormData, f: Field, value: string, requiredMessage: string)
    requires f !in RequiredFields
    ensures RequiredErrors(Set(form, f, value), requiredMessage) == RequiredErrors(form, requiredMessage)
    ensures IsComplete(Set(form, f, value)) <==> IsComplete(form)
  {
    var form' := Set(form, f, value);
    assert forall g :: g in RequiredFields ==> Get(form', g) == Get(form, g);
  }

  /**
   * Clearing a field's error on edit: a set error of that field becomes
   * `''`, an absent one stays absent, and every other entry is untouched.
   */
  function ClearError(errors: map<Field, string>, f: Field): (r: map<Field, string>)
    ensures f in r <==> f in errors
    ensures f in r ==> r[f] == ""
    ensures forall g :: g != f ==> (g in r <==> g in errors)
    ensures forall g :: g != f && g in r ==> r[g] == errors[g]
  {
    if f in errors && errors[f] != "" then errors[f := ""] else errors
  }

  /** The form part of a record. */
  function FormOf(p: PersonInfo): FormData
  {
    FormData(
      p.name, p.lastName, p.address, p.personalCode, p.phoneNumber,
      p.additionalInfo, p.diseaseOrProblem, p.status, p.emergencyNote)
  }

  const IdPrefix := "person_"

  /**
   * `person_${Date.now()}_${Math.random().toString(36).substring(2, 9)}`:
   * the prefix, the timestamp's numeral, `_`, and at most seven random
   * characters; no `/` unless the random rendering has one.
   */
  function PersonId(timestamp: nat, randomBase36: string): (id: string)
    ensures IdPrefix <= id
    ensures var t := DecimalString(timestamp);
      8 + |t| <= |id| <= 15 + |t| && id[7..7 + |t|] == t && id[7 + |t|] == '_' &&
      id[8 + |t|..] == Substring(randomBase36, 2, 9)
    ensures '/' !in randomBase36 ==> '/' !in id
  {
    var t := DecimalString(timestamp);
    var random := Substring(randomBase36, 2, 9);
    var id := IdPrefix + t + "_" + random;
    assert id == IdPrefix + (t + ("_" + random));
    assert id[7..7 + |t|] == t;
    assert id[8 + |t|..] == random;
    forall i | 0 <= i < |t| ensures t[i] != '/' {
      assert IsDigit(t[i]);
    }
    forall i | 0 <= i < |random| ensures random[i] in randomBase36 {
    }
    id
  }

  /**
   * The timestamp can be read back from the id alone: after the prefix, the
   * leading digit run is the numeral, and it denotes the timestamp.
   */
  lemma PersonIdTimestamp(timestamp: nat, randomBase36: string)
    ensures var id := PersonId(timestamp, randomBase36);
      |IdPrefix| <= |id| && DigitsValue(LeadingDigits(id[|IdPrefix|..])) == timestamp
  {
    var id, t := PersonId(timestamp, randomBase36), DecimalString(timestamp);
    var rest := id[8 + |t|..];
    assert id[|IdPrefix|..] == t + ("_" + rest);
    LeadingDigitsOf(t, "_" + rest);
    DecimalStringRoundTrip(timestamp);
  }

  /** The record `handleSubmit` builds: the form fields plus a fresh id and the creation time. */
  function NewPerson(form: FormData, timestamp: nat, randomBase36: string, createdAt: string): (p: PersonInfo)
    ensures FormOf(p) == form
    ensures p.id == PersonId(timestamp, randomBase36)
    ensures p.createdAt == createdAt
  {
    PersonInfo(
      PersonId(timestamp, randomBase36), form.name, form.lastName, form.address, form.personalCode,
      form.phoneNumber, form.additionalInfo, form.diseaseOrProblem, form.status, form.emergencyNote,
      createdAt)
  }

  /** The page a new record navigates to shows that record: its id comes back out of the route. */
  lemma NewPersonRoutesBack(form: FormData, timestamp: nat, randomBase36: string, createdAt: string)
    requires '/' !in randomBase36
    ensures var id := NewPerson(form, timestamp, randomBase36, createdAt).id;
      Routes.MatchView(Routes.ViewPath(id)) == Some(id)
  {
    var id := NewPerson(form, timestamp, randomBase36, createdAt).id;
    assert id[0] == 'p';
    Routes.ViewRouteRoundTrip(id);
  }

  /** A record built from a form keeps the personal code the form was initialised with. */
  lemma NewPersonKeepsPersonalCode(
    personalCode: string, edits: seq<(Field, string)>, timestamp: nat, randomBase36: string, createdAt: string)
    requires forall i :: 0 <= i < |edits| ==> edits[i].0 != PersonalCode
    ensures NewPerson(Edited(InitialForm(personalCode), edits), timestamp, randomBase36, createdAt).personalCode
      == personalCode
  {
    EditedKeepsPersonalCode(InitialForm(personalCode), edits);
  }

  /** The form after a sequence of field edits. */
  function Edited(form: FormData, edits: seq<(Field, string)>): FormData
    decreases |edits|
  {
    if edits == [] then form else Edited(Set(form, edits[0].0, edits[0].1), edits[1..])
  }

  lemma {:induction false} EditedKeepsPersonalCode(form: FormData, edits: seq<(Field, string)>)
    requires forall i :: 0 <= i < |edits| ==> edits[i].0 != PersonalCode
    ensures Edited(form, edits).personalCode == form.personalCode
    decreases |edits|
  {
    if edits != [] {
      assert edits[0].0 != PersonalCode;
      EditedKeepsPersonalCode(Set(form, edits[0].0, edits[0].1), edits[1..]);
    }
  }

  /** How a submission ends: rejected by validation, saved and navigated, or failed with an alert. */
  datatype SubmitOutcome =
    | Invalid
    | Navigated(person: PersonInfo, query: Storage.Query, path: string)
    | SaveFailed(person: PersonInfo, query: Storage.Query, error: Storage.PostgrestError)

  /** The add-person page's state. */
  class AddPersonPage {
    var formData: FormData
    var errors: map<Field, string>

    /** The personal code is generated once, when the page is created. */
    constructor(timestamp: nat, randomBase36: string)
      ensures formData == InitialForm(Storage.GeneratePersonalCode(timestamp, randomBase36))
      ensures errors == map[]
    {
      formData := InitialForm(Storage.GeneratePersonalCode(timestamp, randomBase36));
      errors := map[];
    }

    /** `updateField`: sets the field and clears that field's error if one is shown. */
    method UpdateField(field: Field, value: string)
      modifies this
      ensures formData == Set(old(formData), field, value)
      ensures errors == ClearError(old(errors), field)
    {
      formData := Set(formData, field, value);
      if field in errors && errors[field] != "" {
        errors := errors[field := ""];
      }
    }

    /** `validateForm`: replaces the error map with the required-field errors and reports whether there are none. */
    method ValidateForm(requiredMessage: string) returns (valid: bool)
      modifies this
      ensures formData == old(formData)
      ensures errors == RequiredErrors(formData, requiredMessage)
      ensures valid <==> IsComplete(formData)
    {
      var newErrors: map<Field, string> := map[];
      if IsBlank(formData.name) {
        newErrors := newErrors[Name := requiredMessage];
      }
      if IsBlank(formData.lastName) {
        newErrors := newErrors[LastName := requiredMessage];
      }
      if IsBlank(formData.phoneNumber) {
        newErrors := newErrors[PhoneNumber := requiredMessage];
      }
      RequiredErrorsInOrder(formData, requiredMessage);
      ValidationSucceeds(formData, requiredMessage);
      errors := newErrors;
      valid := |newErrors| == 0;
    }

    /**
     * `handleSubmit`: an invalid form builds nothing and saves nothing;
     * otherwise the new record is saved, and the page navigates to its view
     * on success or alerts on failure.
     */
    method HandleSubmit(
      requiredMessage: string, timestamp: nat, randomBase36: string, createdAt: string,
      reply: Storage.Reply<seq<Supabase.DatabasePersonInfo>>)
      returns (outcome: SubmitOutcome)
      modifies this
      ensures formData == old(formData)
      ensures errors == RequiredErrors(formData, requiredMessage)
      ensures outcome.Invalid? <==> !IsComplete(formData)
      ensures !outcome.Invalid? ==>
        outcome.person == NewPerson(formData, timestamp, randomBase36, createdAt) &&
        outcome.query == Storage.Insert([Supabase.ToDatabase(outcome.person)])
      ensures outcome.Navigated? <==> IsComplete(formData) && reply.error.None?
      ensures outcome.Navigated? ==> outcome.path == Routes.ViewPath(outcome.person.id)
      ensures outcome.SaveFailed? ==> outcome.error == reply.error.value
    {
      var valid := ValidateForm(requiredMessage);
      if !valid {
        return Invalid;
      }
      var person := NewPerson(formData, timestamp, randomBase36, createdAt);
      var save := Storage.SavePersonInfo(person, reply);
      match save.result
      case Success(_) => outcome := Navigated(person, save.query, Routes.ViewPath(person.id));
      case Failure(e) => outcome := SaveFailed(person, save.query, e);
    }
  }
}
