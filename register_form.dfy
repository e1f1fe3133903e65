/**
  * The registration page: its controlled form, the password-strength meter,
  * the confirmation check, the validity rule that enables the submit button,
  * and the consent guard on submission.
  */
module RegisterForm {
  import opened Wrappers
  import Text

  /** The eight controlled inputs of the form, in declaration order. */
  datatype FormData = FormData(
    firstName: string,
    lastName: string,
    email: string,
    phone: string,
    company: string,
    role: string,
    password: string,
    confirmPassword: string)

  /** The keys `updateFormData` is called with. */
  datatype Field = FirstName | LastName | Email | Phone | Company | Role | Password | ConfirmPassword

  const EmptyForm := FormData("", "", "", "", "", "", "", "")

  /** `formData[field]`. */
  function Get(form: FormData, field: Field): string {
    match field
    case FirstName => form.firstName
    case LastName => form.lastName
    case Email => form.email
    case Phone => form.phone
    case Company => form.company
    case Role => form.role
    case Password => form.password
    case ConfirmPassword => form.confirmPassword
  }

  /** `{ ...form, [field]: value }`: only `field` takes the new value. */
  function Set(form: FormData, field: Field, value: string): (r: FormData)
    ensures Get(r, field) == value
    ensures forall g :: g != field ==> Get(r, g) == Get(form, g)
  {
    match field
    case FirstName => form.(firstName := value)
    case LastName => form.(lastName := value)
    case Email => form.(email := value)
    case Phone => form.(phone := value)
    case Company => form.(company := value)
    case Role => form.(role := value)
    case Password => form.(password := value)
    case ConfirmPassword => form.(confirmPassword := value)
  }

  /** `Object.values(formData)`, in the order the fields were declared. */
  function Values(form: FormData): seq<string> {
    [form.firstName, form.lastName, form.email, form.phone,
     form.company, form.role, form.password, form.confirmPassword]
  }

  /** `Object.values(formData).every(value => value !== "")`. */
  predicate AllFilled(form: FormData) {
    forall i :: 0 <= i < |Values(form)| ==> Values(form)[i] != ""
  }

  /** Every value is non-empty exactly when every field is non-empty. */
  lemma AllFilledFields(form: FormData)
    ensures AllFilled(form) <==> forall f :: Get(form, f) != ""
  {
    var vs := Values(form);
    if AllFilled(form) {
      forall f
        ensures Get(form, f) != ""
      {
        match f
        case FirstName => assert vs[0] != "";
        case LastName => assert vs[1] != "";
        case Email => assert vs[2] != "";
        case Phone => assert vs[3] != "";
        case Company => assert vs[4] != "";
        case Role => assert vs[5] != "";
        case Password => assert vs[6] != "";
        case ConfirmPassword => assert vs[7] != "";
      }
    }
    if forall f :: Get(form, f) != "" {
      assert Get(form, FirstName) != "" && Get(form, LastName) != "";
      assert Get(form, Email) != "" && Get(form, Phone) != "";
      assert Get(form, Company) != "" && Get(form, Role) != "";
      assert Get(form, Password) != "" && Get(form, ConfirmPassword) != "";
    }
  }

  // The four strength criteria.

  predicate LongEnough(password: string) {
    |password| >= 8
  }

  /** `/[A-Z]/.test(password)`. */
  predicate HasUpper(password: string) {
    exists i :: 0 <= i < |password| && Text.IsUpperAscii(password[i])
  }

  /** `/[a-z]/.test(password)`. */
  predicate HasLower(password: string) {
    exists i :: 0 <= i < |password| && 'a' <= password[i] <= 'z'
  }

  /** `/[0-9]/.test(password)`. */
  predicate HasDigit(password: string) {
    exists i :: 0 <= i < |password| && '0' <= password[i] <= '9'
  }

  /** How many of the four criteria the password meets. */
  function CriteriaMet(password: string): (n: nat)
    ensures n <= 4
  {
    (if LongEnough(password) then 1 else 0) +
    (if HasUpper(password) then 1 else 0) +
    (if HasLower(password) then 1 else 0) +
    (if HasDigit(password) then 1 else 0)
  }

  /** The strength the meter shows: a quarter for every criterion met. */
  function PasswordStrength(password: string): (strength: int)
    ensures strength == 0 || strength == 25 || strength == 50 || strength == 75 || strength == 100
  {
    25 * CriteriaMet(password)
  }

  /** `getPasswordStrength`: adds 25 for each criterion, one test after another. */
  method GetPasswordStrength(password: string) returns (strength: int)
    ensures strength == PasswordStrength(password)
  {
    strength := 0;
    if LongEnough(password) {
      strength := strength + 25;
    }
    if HasUpper(password) {
      strength := strength + 25;
    }
    if HasLower(password) {
      strength := strength + 25;
    }
    if HasDigit(password) {
      strength := strength + 25;
    }
  }

  /** The empty password scores zero. */
  lemma EmptyPasswordIsWeakest()
    ensures PasswordStrength("") == 0
  {
  }

  /** Typing more characters never lowers the strength: every criterion met stays met. */
  lemma StrengthNeverDrops(password: string, more: string)
    ensures PasswordStrength(password) <= PasswordStrength(password + more)
  {
    var longer := password + more;
    if HasUpper(password) {
      var i :| 0 <= i < |password| && Text.IsUpperAscii(password[i]);
      assert longer[i] == password[i];
    }
    if HasLower(password) {
      var i :| 0 <= i < |password| && 'a' <= password[i] <= 'z';
      assert longer[i] == password[i];
    }
    if HasDigit(password) {
      var i :| 0 <= i < |password| && '0' <= password[i] <= '9';
      assert longer[i] == password[i];
    }
  }

  /** The meter's label. */
  datatype StrengthLabel = Weak | Medium | Strong

  /** The label for a strength value: Strong from 75, Medium from 50, Weak below. */
  function LabelFor(strength: int): (tag: StrengthLabel)
    ensures tag == Strong <==> strength >= 75
    ensures tag == Medium <==> 50 <= strength < 75
    ensures tag == Weak <==> strength < 50
  {
    if strength >= 75 then Strong
    else if strength >= 50 then Medium
    else Weak
  }

  /** The label shown under the password input, which appears only once something is typed. */
  function StrengthIndicator(password: string): Option<StrengthLabel> {
    if password == "" then None else Some(LabelFor(PasswordStrength(password)))
  }

  /** In terms of the criteria: three or more is Strong, two Medium, fewer Weak. */
  lemma IndicatorByCriteria(password: string)
    ensures StrengthIndicator(password) ==
      if password == "" then None
      else if CriteriaMet(password) >= 3 then Some(Strong)
      else if CriteriaMet(password) == 2 then Some(Medium)
      else Some(Weak)
  {
  }

  /** `passwordsMatch`: the confirmation is filled in and equals the password. */
  function PasswordsMatch(form: FormData): (ok: bool)
    ensures ok ==> form.password != "" && form.password == form.confirmPassword
    ensures form.password == form.confirmPassword && form.password != "" ==> ok
    ensures form.password != form.confirmPassword ==> !ok
  {
    form.password == form.confirmPassword && form.confirmPassword != ""
  }

  /** `isFormValid`: the condition under which the submit button is enabled. */
  predicate IsFormValid(form: FormData, acceptTerms: bool, acceptPrivacy: bool) {
    AllFilled(form) &&
    PasswordsMatch(form) &&
    acceptTerms &&
    acceptPrivacy &&
    PasswordStrength(form.password) >= 75
  }

  /**
    * What validity means: every field filled in, the confirmation matching,
    * both consents given and at least three of the four criteria met. Three
    * criteria need at least three characters.
    */
  lemma FormValidity(form: FormData, acceptTerms: bool, acceptPrivacy: bool)
    ensures IsFormValid(form, acceptTerms, acceptPrivacy) <==>
      (forall f :: Get(form, f) != "") &&
      form.password == form.confirmPassword &&
      acceptTerms && acceptPrivacy &&
      CriteriaMet(form.password) >= 3
    ensures IsFormValid(form, acceptTerms, acceptPrivacy) ==> |form.password| >= 3
  {
    AllFilledFields(form);
    var pw := form.password;
    if IsFormValid(form, acceptTerms, acceptPrivacy) && !LongEnough(pw) {
      assert HasUpper(pw) && HasLower(pw) && HasDigit(pw);
      var i :| 0 <= i < |pw| && Text.IsUpperAscii(pw[i]);
      var j :| 0 <= j < |pw| && 'a' <= pw[j] <= 'z';
      var k :| 0 <= k < |pw| && '0' <= pw[k] <= '9';
      assert i != j && j != k && i != k;
    }
  }

  /** The state of `RegisterPage`. */
  class RegisterPage {
    var formData: FormData
    var showPassword: bool
    var showConfirmPassword: bool
    var acceptTerms: bool
    var acceptPrivacy: bool
    var isLoading: bool

    /** Every input starts empty and every flag off. */
    constructor ()
      ensures formData == EmptyForm
      ensures !showPassword && !showConfirmPassword
      ensures !acceptTerms && !acceptPrivacy && !isLoading
    {
      formData := EmptyForm;
      showPassword := false;
      showConfirmPassword := false;
      acceptTerms := false;
      acceptPrivacy := false;
      isLoading := false;
    }

    /** `updateFormData(field, value)`: the change handler of every input. */
    method UpdateFormData(field: Field, value: string)
      modifies this`formData
      ensures formData == Set(old(formData), field, value)
      ensures Get(formData, field) == value
      ensures forall g :: g != field ==> Get(formData, g) == Get(old(formData), g)
    {
      formData := Set(formData, field, value);
    }

    /** The terms checkbox. */
    method SetAcceptTerms(checked: bool)
      modifies this`acceptTerms
      ensures acceptTerms == checked
    {
      acceptTerms := checked;
    }

    /** The privacy checkbox. */
    method SetAcceptPrivacy(checked: bool)
      modifies this`acceptPrivacy
      ensures acceptPrivacy == checked
    {
      acceptPrivacy := checked;
    }

    /** The eye button of the password input. */
    method ToggleShowPassword()
      modifies this`showPassword
      ensures showPassword == !old(showPassword)
    {
      showPassword := !showPassword;
    }

    /** The eye button of the confirmation input. */
    method ToggleShowConfirmPassword()
      modifies this`showConfirmPassword
      ensures showConfirmPassword == !old(showConfirmPassword)
    {
      showConfirmPassword := !showConfirmPassword;
    }

    /**
      * The submit button is enabled exactly when nothing is loading, every
      * field is filled in, the confirmation matches, both consents are given
      * and at least three strength criteria hold.
      */
    predicate SubmitEnabled()
      reads this
      ensures SubmitEnabled() <==>
        !isLoading &&
        (forall f :: Get(formData, f) != "") &&
        formData.password == formData.confirmPassword &&
        acceptTerms && acceptPrivacy &&
        CriteriaMet(formData.password) >= 3
    {
      FormValidity(formData, acceptTerms, acceptPrivacy);
      !isLoading && IsFormValid(formData, acceptTerms, acceptPrivacy)
    }

    /**
      * `handleSubmit`. Without both consents it returns at once; otherwise it
      * raises the loading flag, hands the form data to `onRegister` (returned
      * here as `registered`) and lowers the flag again.
      */
    method HandleSubmit() returns (registered: Option<FormData>)
      modifies this`isLoading
      ensures !(acceptTerms && acceptPrivacy) ==> registered == None && isLoading == old(isLoading)
      ensures acceptTerms && acceptPrivacy ==> registered == Some(formData) && !isLoading
    {
      if !acceptTerms || !acceptPrivacy {
        return None;
      }
      isLoading := true;
      registered := Some(formData);
      isLoading := false;
    }
  }
}
