/**
 * The registration form: field-by-field validation into an error map, the phone
 * keystroke filter, the default role and the submission of exactly the current values.
 */
module RegisterForm {
  import opened Wrappers
  import opened Text
  import opened Entities
  import opened Validation

  /** The keys of the error object, one per validated field. */
  datatype RegisterKey = FirstName | MiddleName | LastName | Email | Phone | Password | ConfirmPassword | Role

  /** The message recorded under each key. */
  function RegisterMessage(k: RegisterKey): string {
    match k
    case FirstName => "El primer nombre es obligatorio"
    case MiddleName => "El segundo nombre es obligatorio"
    case LastName => "El apellido es obligatorio"
    case Email => "El email es obligatorio"
    case Phone => "El número debe tener exactamente 9 dígitos"
    case Password => "Debe tener al menos 8 caracteres, incluir letras, números y caracteres especiales"
    case ConfirmPassword => "Las contraseñas no coinciden"
    case Role => "El rol es obligatorio"
  }

  /** The text fields of the form. */
  datatype Fields = Fields(firstName: string, middleName: string, lastName: string, email: string,
                           password: string, confirmPassword: string, phone: string)

  /** What `onSubmit` receives. */
  datatype Registration = Registration(firstName: string, middleName: string, lastName: string,
                                       email: string, password: string, phone: string, role: string)

  /** `[A-Za-z\d!@#$%^&*]`. */
  predicate IsPasswordChar(c: char) {
    IsLetter(c) || IsDigit(c) || IsPasswordSymbol(c)
  }

  /**
   * `/^(?=.*[A-Za-z])(?=.*\d)(?=.*[!@#$%^&*])[A-Za-z\d!@#$%^&*]{8,}$/.test(p)`:
   * three lookaheads, then the password class repeated at least eight times.
   */
  predicate MatchesPasswordPattern(p: string) {
    Any(p, IsLetter) && Any(p, IsDigit) && Any(p, IsPasswordSymbol) && All(p, IsPasswordChar) && |p| >= 8
  }

  /** The password policy, stated directly. */
  predicate StrongPassword(p: string) {
    && |p| >= 8
    && (forall i :: 0 <= i < |p| ==> IsLetter(p[i]) || IsDigit(p[i]) || IsPasswordSymbol(p[i]))
    && (exists i :: 0 <= i < |p| && IsLetter(p[i]))
    && (exists i :: 0 <= i < |p| && IsDigit(p[i]))
    && (exists i :: 0 <= i < |p| && IsPasswordSymbol(p[i]))
  }

  /** The pattern accepts exactly the passwords the policy describes. */
  lemma PasswordPatternIff(p: string)
    ensures MatchesPasswordPattern(p) <==> StrongPassword(p)
  {
    AnyIff(p, IsLetter);
    AnyIff(p, IsDigit);
    AnyIff(p, IsPasswordSymbol);
    AllIff(p, IsPasswordChar);
  }

  /** `/^[0-9]{9}$/.test(p)`. */
  predicate MatchesPhonePattern(p: string) {
    |p| == 9 && All(p, IsDigit)
  }

  /** A phone number as the form requires it: exactly nine decimal digits. */
  predicate NineDigits(p: string) {
    |p| == 9 && forall i :: 0 <= i < |p| ==> IsDigit(p[i])
  }

  lemma PhonePatternIff(p: string)
    ensures MatchesPhonePattern(p) <==> NineDigits(p)
  {
    AllIff(p, IsDigit);
  }

  /** The phone keystroke filter: `/^\d*$/.test(value) && value.length <= 9`. */
  predicate PhoneKeystrokeAccepted(value: string) {
    All(value, IsDigit) && |value| <= 9
  }

  /** A phone value that got past the keystroke filter is valid exactly when nine digits have been typed. */
  lemma FilteredPhoneValidIffComplete(value: string)
    requires PhoneKeystrokeAccepted(value)
    ensures NineDigits(value) <==> |value| == 9
  {
    AllIff(value, IsDigit);
  }

  /**
   * `flagged` is the set of keys `validateFields` fills in for these values: each key is
   * present exactly when its rule fails.
   */
  predicate ReportsRegisterErrors(flagged: set<RegisterKey>, f: Fields, selectedRole: string, roles: seq<string>) {
    && (FirstName in flagged <==> IsBlank(f.firstName))
    && (MiddleName in flagged <==> IsBlank(f.middleName))
    && (LastName in flagged <==> IsBlank(f.lastName))
    && (Email in flagged <==> IsBlank(f.email))
    && (Phone in flagged <==> !NineDigits(f.phone))
    && (Password in flagged <==> !StrongPassword(f.password))
    && (ConfirmPassword in flagged <==> f.password != f.confirmPassword)
    && (Role in flagged <==> |roles| > 0 && selectedRole == "")
  }

  /** `!phone || !phoneRegex.test(phone)`: the phone rule fails exactly when the value is not nine digits. */
  method PhoneRejected(phone: string) returns (rejected: bool)
    ensures rejected <==> !NineDigits(phone)
  {
    rejected := phone == "" || !MatchesPhonePattern(phone);
    PhonePatternIff(phone);
  }

  /** `!password || !passwordRegex.test(password)`: the password rule fails exactly when the policy does not hold. */
  method PasswordRejected(password: string) returns (rejected: bool)
    ensures rejected <==> !StrongPassword(password)
  {
    rejected := password == "" || !MatchesPasswordPattern(password);
    PasswordPatternIff(password);
  }

  /** The body of `validateFields`: collects the failing rules one by one. */
  method FieldErrors(f: Fields, selectedRole: string, roles: seq<string>) returns (flagged: set<RegisterKey>)
    ensures ReportsRegisterErrors(flagged, f, selectedRole, roles)
  {
    var phoneInvalid := PhoneRejected(f.phone);
    var passwordInvalid := PasswordRejected(f.password);
    flagged := {};
    flagged := Flag(flagged, IsBlank(f.firstName), FirstName);
    flagged := Flag(flagged, IsBlank(f.middleName), MiddleName);
    flagged := Flag(flagged, IsBlank(f.lastName), LastName);
    flagged := Flag(flagged, IsBlank(f.email), Email);
    flagged := Flag(flagged, phoneInvalid, Phone);
    flagged := Flag(flagged, passwordInvalid, Password);
    flagged := Flag(flagged, f.password != f.confirmPassword, ConfirmPassword);
    flagged := Flag(flagged, |roles| > 0 && selectedRole == "", Role);
  }

  /** The form passes exactly when every rule holds; a form without a role list never lacks a role. */
  lemma RegisterErrorsEmptyIff(flagged: set<RegisterKey>, f: Fields, selectedRole: string, roles: seq<string>)
    requires ReportsRegisterErrors(flagged, f, selectedRole, roles)
    ensures flagged == {} <==>
              && !IsBlank(f.firstName) && !IsBlank(f.middleName) && !IsBlank(f.lastName) && !IsBlank(f.email)
              && NineDigits(f.phone) && StrongPassword(f.password) && f.password == f.confirmPassword
              && (|roles| > 0 ==> selectedRole != "")
    ensures roles == [] ==> Role !in flagged
  {
    if flagged != {} {
      var k :| k in flagged;
      assert k.FirstName? || k.MiddleName? || k.LastName? || k.Email? || k.Phone? || k.Password?
          || k.ConfirmPassword? || k.Role?;
    }
  }

  /** The component's state. */
  class RegisterFormState {
    const roles: seq<string>
    var firstName: string
    var middleName: string
    var lastName: string
    var email: string
    var password: string
    var confirmPassword: string
    var phone: string
    var selectedRole: string
    var errors: map<RegisterKey, string>
    var isSubmitting: bool

    function Values(): Fields
      reads this
    {
      Fields(firstName, middleName, lastName, email, password, confirmPassword, phone)
    }

    /** Initial state: empty fields; the role is CUSTOMER unless a role list is supplied. */
    constructor (roles: seq<string>)
      ensures this.roles == roles
      ensures Values() == Fields("", "", "", "", "", "", "")
      ensures selectedRole == (if |roles| > 0 then "" else CUSTOMER)
      ensures errors == map[] && !isSubmitting
    {
      this.roles := roles;
      firstName, middleName, lastName, email := "", "", "", "";
      password, confirmPassword, phone := "", "", "";
      selectedRole := if |roles| > 0 then "" else CUSTOMER;
      errors := map[];
      isSubmitting := false;
    }

    /** The roles effect: with roles supplied and none chosen, the first role is chosen. */
    method RolesEffect()
      modifies this`selectedRole
      ensures selectedRole == if |roles| > 0 && old(selectedRole) == "" then roles[0] else old(selectedRole)
    {
      if |roles| > 0 && selectedRole == "" {
        selectedRole := roles[0];
      }
    }

    /** The phone field's change handler: a rejected keystroke leaves the phone as it was. */
    method ChangePhone(value: string)
      modifies this`phone
      ensures phone == if PhoneKeystrokeAccepted(value) then value else old(phone)
    {
      if All(value, IsDigit) && |value| <= 9 {
        phone := value;
      }
    }

    /** `validateFields`: stores the error object and reports whether it is empty. */
    method ValidateFields() returns (ok: bool)
      modifies this`errors
      ensures ReportsRegisterErrors(errors.Keys, Values(), selectedRole, roles)
      ensures forall k :: k in errors ==> errors[k] == RegisterMessage(k)
      ensures ok <==> errors == map[]
    {
      var flagged := FieldErrors(Values(), selectedRole, roles);
      errors := ErrorObject(flagged, RegisterMessage);
      ok := |errors| == 0;
    }

    /** `handleSubmit`: `onSubmit` receives the current values and role, and only when validation passes. */
    method HandleSubmit() returns (submitted: Option<Registration>)
      modifies this`errors, this`isSubmitting
      ensures ReportsRegisterErrors(errors.Keys, Values(), selectedRole, roles)
      ensures forall k :: k in errors ==> errors[k] == RegisterMessage(k)
      ensures submitted.Some? <==> errors == map[]
      ensures submitted.Some? ==>
                submitted.value == Registration(firstName, middleName, lastName, email, password, phone, selectedRole)
      ensures !isSubmitting
    {
      isSubmitting := true;
      var ok := ValidateFields();
      if !ok {
        isSubmitting := false;
        return None;
      }
      submitted := Some(Registration(firstName, middleName, lastName, email, password, phone, selectedRole));
      isSubmitting := false;
    }
  }
}
