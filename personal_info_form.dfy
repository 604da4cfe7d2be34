/**
 * The personal-information card of the profile page
 * (src/pages/user-profile/components/PersonalInfoForm.jsx): the form
 * copied from the `user` prop, the input updater, the step-by-step
 * validation of four of the six fields, and save / cancel.
 */
module PersonalInfoForm {
  import opened Common
  import opened JsText
  import opened Patterns

  datatype FormField = Name | Email | Phone | Address | DateOfBirth | EmergencyMedicalInfo

  datatype FormData = FormData(
    name: string,
    email: string,
    phone: string,
    address: string,
    dateOfBirth: string,
    emergencyMedicalInfo: string)

  /** The six fields of the `user` prop the form reads; each may be absent. */
  datatype UserFields = UserFields(
    name: Option<string>,
    email: Option<string>,
    phone: Option<string>,
    address: Option<string>,
    dateOfBirth: Option<string>,
    emergencyMedicalInfo: Option<string>)

  function Get(d: FormData, f: FormField): string {
    match f
    case Name => d.name
    case Email => d.email
    case Phone => d.phone
    case Address => d.address
    case DateOfBirth => d.dateOfBirth
    case EmergencyMedicalInfo => d.emergencyMedicalInfo
  }

  function GetUser(u: UserFields, f: FormField): Option<string> {
    match f
    case Name => u.name
    case Email => u.email
    case Phone => u.phone
    case Address => u.address
    case DateOfBirth => u.dateOfBirth
    case EmergencyMedicalInfo => u.emergencyMedicalInfo
  }

  /** `{ ...prev, [field]: value }`. */
  function With(d: FormData, f: FormField, v: string): (r: FormData)
    ensures Get(r, f) == v
    ensures forall g | g != f :: Get(r, g) == Get(d, g)
  {
    match f
    case Name => d.(name := v)
    case Email => d.(email := v)
    case Phone => d.(phone := v)
    case Address => d.(address := v)
    case DateOfBirth => d.(dateOfBirth := v)
    case EmergencyMedicalInfo => d.(emergencyMedicalInfo := v)
  }

  /** The form the component starts from and handleCancel rebuilds: `user?.field || ''` for each field. */
  function FromUser(user: Option<UserFields>): (r: FormData)
    ensures forall f :: Get(r, f) == if user.Some? && GetUser(user.value, f).Some? then GetUser(user.value, f).value else ""
  {
    if user.None? then FormData("", "", "", "", "", "")
    else
      var u := user.value;
      FormData(TextOr(u.name, ""), TextOr(u.email, ""), TextOr(u.phone, ""),
               TextOr(u.address, ""), TextOr(u.dateOfBirth, ""), TextOr(u.emergencyMedicalInfo, ""))
  }

  /** The message validateForm records for one field, if any; date of birth and medical information are never checked. */
  function FieldMessage(d: FormData, f: FormField): (r: Option<string>)
    ensures f == DateOfBirth || f == EmergencyMedicalInfo ==> r.None?
  {
    match f
    case Name => if IsBlank(d.name) then Some("Name is required") else None
    case Email =>
      if IsBlank(d.email) then Some("Email is required")
      else if !EmailValid(d.email) then Some("Please enter a valid email")
      else None
    case Phone =>
      if IsBlank(d.phone) then Some("Phone number is required")
      else if !PhoneValid(d.phone) then Some("Please enter a valid phone number")
      else None
    case Address => if IsBlank(d.address) then Some("Address is required for emergency location") else None
    case _ => None
  }

  predicate NoFieldMessage(d: FormData) {
    forall f :: FieldMessage(d, f).None?
  }

  /**
   * The form passes exactly when name and address are not blank, the email
   * contains a match of the address pattern, and the phone is not blank and
   * matches the phone pattern (checked on the untrimmed text).
   */
  lemma FormValidIff(d: FormData)
    ensures NoFieldMessage(d) <==>
              !IsBlank(d.name) && EmailValid(d.email) && !IsBlank(d.phone) && PhoneValid(d.phone) && !IsBlank(d.address)
  {
    if !NoFieldMessage(d) {
      var f :| FieldMessage(d, f).Some?;
      if EmailValid(d.email) {
        EmailValidNotBlank(d.email);
      }
    } else {
      assert FieldMessage(d, Name).None? && FieldMessage(d, Email).None? && FieldMessage(d, Phone).None?;
      assert FieldMessage(d, Address).None?;
    }
  }

  /** Ten blanks match the phone pattern; only the required check rejects them. */
  lemma BlankPhoneMatchesPattern()
    ensures PhoneValid("          ") && IsBlank("          ")
    ensures FieldMessage(FormData("", "", "          ", "", "", ""), Phone) == Some("Phone number is required")
  {
    var s := "          ";
    assert forall i | 0 <= i < |s| :: s[i] == ' ';
    assert PhoneRun(s);
  }

  /** The errors object validateForm builds, one field after the other. */
  function FormErrors(d: FormData): map<FormField, string> {
    var m1 := Record(map[], d, Name);
    var m2 := Record(m1, d, Email);
    var m3 := Record(m2, d, Phone);
    Record(m3, d, Address)
  }

  /** One check of validateForm: a failing field's message is written into the errors object. */
  function Record(m: map<FormField, string>, d: FormData, f: FormField): map<FormField, string> {
    if FieldMessage(d, f).Some? then m[f := FieldMessage(d, f).value] else m
  }

  /** A field has an entry exactly when it fails, holding its first failed check's message. */
  lemma FormErrorsMeaning(d: FormData)
    ensures forall f :: f in FormErrors(d) <==> FieldMessage(d, f).Some?
    ensures forall f | f in FormErrors(d) :: FormErrors(d)[f] == FieldMessage(d, f).value
    ensures FormErrors(d) == map[] <==> NoFieldMessage(d)
  {
    var e := FormErrors(d);
    forall f ensures (f in e <==> FieldMessage(d, f).Some?) && (f in e ==> e[f] == FieldMessage(d, f).value) {
      FormErrorsAt(d, f);
    }
    if e == map[] {
      assert forall f :: f !in e;
    }
  }

  /** One field of FormErrors: only that field's own check writes its entry. */
  lemma FormErrorsAt(d: FormData, f: FormField)
    ensures f in FormErrors(d) <==> FieldMessage(d, f).Some?
    ensures f in FormErrors(d) ==> FormErrors(d)[f] == FieldMessage(d, f).value
  {
    var m1 := Record(map[], d, Name);
    var m2 := Record(m1, d, Email);
    var m3 := Record(m2, d, Phone);
    RecordAt(map[], d, Name, f);
    RecordAt(m1, d, Email, f);
    RecordAt(m2, d, Phone, f);
    RecordAt(m3, d, Address, f);
  }

  /** Record writes only its own field's entry. */
  lemma RecordAt(m: map<FormField, string>, d: FormData, f: FormField, g: FormField)
    ensures g != f ==> (g in Record(m, d, f) <==> g in m) && (g in m ==> Record(m, d, f)[g] == m[g])
    ensures g == f ==> (g in Record(m, d, f) <==> g in m || FieldMessage(d, f).Some?)
    ensures g == f && FieldMessage(d, f).Some? ==> Record(m, d, f)[g] == FieldMessage(d, f).value
  {
  }

  /** The body of validateForm: each check in turn writes its field's message into a fresh errors object. */
  method CollectFormErrors(d: FormData) returns (m: map<FormField, string>)
    ensures m == FormErrors(d)
    ensures m == map[] <==> NoFieldMessage(d)
  {
    m := map[];
    if IsBlank(d.name) {
      m := m[Name := "Name is required"];
    }
    ghost var m1 := m;
    assert m1 == Record(map[], d, Name);
    if IsBlank(d.email) {
      m := m[Email := "Email is required"];
    } else if !EmailValid(d.email) {
      m := m[Email := "Please enter a valid email"];
    }
    ghost var m2 := m;
    assert m2 == Record(m1, d, Email);
    if IsBlank(d.phone) {
      m := m[Phone := "Phone number is required"];
    } else if !PhoneValid(d.phone) {
      m := m[Phone := "Please enter a valid phone number"];
    }
    assert m == Record(m2, d, Phone);
    if IsBlank(d.address) {
      m := m[Address := "Address is required for emergency location"];
    }
    FormErrorsMeaning(d);
  }

  class InfoForm {
    const user: Option<UserFields>
    var formData: FormData
    var isEditing: bool
    var isSaving: bool
    var errors: map<FormField, string>

    constructor (user: Option<UserFields>)
      ensures this.user == user && formData == FromUser(user)
      ensures !isEditing && !isSaving && errors == map[]
    {
      this.user := user;
      formData := FromUser(user);
      isEditing, isSaving := false, false;
      errors := map[];
    }

    /** The Edit button. */
    method StartEditing()
      modifies this
      ensures isEditing && formData == old(formData) && errors == old(errors) && isSaving == old(isSaving)
    {
      isEditing := true;
    }

    /** handleInputChange: sets the field and blanks its error if one is shown. */
    method InputChange(f: FormField, v: string)
      modifies this
      ensures formData == With(old(formData), f, v)
      ensures errors == if f in old(errors) && old(errors)[f] != "" then old(errors)[f := ""] else old(errors)
      ensures isEditing == old(isEditing) && isSaving == old(isSaving)
    {
      formData := With(formData, f, v);
      if f in errors && errors[f] != "" {
        errors := errors[f := ""];
      }
    }

    /** validateForm: the errors object is rebuilt from scratch, one field after the other. */
    method ValidateForm() returns (ok: bool)
      modifies this
      ensures errors == FormErrors(formData)
      ensures ok <==> NoFieldMessage(formData)
      ensures formData == old(formData) && isEditing == old(isEditing) && isSaving == old(isSaving)
    {
      var newErrors := CollectFormErrors(formData);
      errors := newErrors;
      ok := newErrors == map[];
    }

    /**
     * handleSave: an invalid form goes no further; otherwise the form is
     * handed to onSave and edit mode ends when it resolves.
     */
    method Save(saveSucceeds: bool) returns (sent: Option<FormData>)
      modifies this
      ensures sent.Some? <==> old(NoFieldMessage(formData))
      ensures sent.Some? ==> sent.value == formData
      ensures isEditing == (old(isEditing) && !(sent.Some? && saveSucceeds))
      ensures isSaving == (old(isSaving) && sent.None?)
      ensures formData == old(formData) && errors == FormErrors(formData)
    {
      var ok := ValidateForm();
      if !ok {
        return None;
      }
      isSaving := true;
      sent := Some(formData);
      if saveSucceeds {
        isEditing := false;
      }
      isSaving := false;
    }

    /** handleCancel: the form is copied from the prop again and every error dropped. */
    method Cancel()
      modifies this
      ensures formData == FromUser(user) && errors == map[] && !isEditing && isSaving == old(isSaving)
    {
      formData := FromUser(user);
      errors := map[];
      isEditing := false;
    }
  }
}
