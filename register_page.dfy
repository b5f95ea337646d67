/**
 * The registration page's client-side checks and submit handler. `validateForm`
 * gives each of the four fields at most one message (required, or the field's own
 * rule); `handleSubmit` calls the registration endpoint only when there is none,
 * and clears the form after a successful registration.
 */
module RegisterPage {
  import opened Wrappers
  import opened Text
  import UserSerializers
  import Accounts

  datatype FormField = Username | Email | Password | Password2

  /** The four inputs of the form. */
  datatype FormData = FormData(username: string, email: string, password: string, password2: string)

  const EmptyForm: FormData := FormData("", "", "", "")

  const UsernameRequired: string := "El nombre de usuario es obligatorio"
  const UsernameTooShort: string := "El nombre de usuario debe tener al menos 3 caracteres"
  const EmailRequired: string := "El correo electr\U{00F3}nico es obligatorio"
  const EmailInvalid: string := "El correo electr\U{00F3}nico no es v\U{00E1}lido"
  const PasswordRequired: string := "La contrase\U{00F1}a es obligatoria"
  const PasswordTooShort: string := "La contrase\U{00F1}a debe tener al menos 8 caracteres"
  const ConfirmRequired: string := "Debes confirmar la contrase\U{00F1}a"
  const ConfirmMismatch: string := "Las contrase\U{00F1}as no coinciden"
  const SuccessMessage: string :=
    "\U{00A1}Registro exitoso! Por favor, verifica tu correo electr\U{00F3}nico para activar tu cuenta."

  /**
   * `/\S+@\S+\.\S+/.test(s)`: somewhere in `s` a non-space character, an '@', one or
   * more non-space characters, a '.', and a non-space character follow each other.
   * The pattern is not anchored, so characters around that window do not matter.
   */
  predicate EmailPattern(s: string) {
    exists i, j :: 0 < i < j < |s| && MatchAt(s, i, j)
  }

  /** The pattern matches with its '@' at `i` and its '.' at `j`. */
  predicate MatchAt(s: string, i: int, j: int) {
    0 < i && i + 1 < j && j + 1 < |s| && s[i] == '@' && s[j] == '.'
    && !IsJsSpace(s[i - 1]) && !IsJsSpace(s[j + 1]) && NoSpaceWithin(s, i + 1, j)
  }

  /** No character of `s[i..j]` is white space. */
  predicate NoSpaceWithin(s: string, i: int, j: int)
    requires 0 <= i <= j <= |s|
  {
    forall k :: i <= k < j ==> !IsJsSpace(s[k])
  }

  /** A local part, a domain and a suffix without spaces, joined by '@' and '.', pass the pattern. */
  lemma AddressMatches(local: string, domain: string, suffix: string)
    requires local != [] && domain != [] && suffix != []
    requires forall k :: 0 <= k < |local| ==> !IsJsSpace(local[k])
    requires forall k :: 0 <= k < |domain| ==> !IsJsSpace(domain[k])
    requires forall k :: 0 <= k < |suffix| ==> !IsJsSpace(suffix[k])
    ensures EmailPattern(local + "@" + domain + "." + suffix)
  {
    var s := local + "@" + domain + "." + suffix;
    var i, j := |local|, |local| + 1 + |domain|;
    assert s[i] == '@' && s[j] == '.';
    assert s[i - 1] == local[|local| - 1];
    assert s[j + 1] == suffix[0];
    forall k | i + 1 <= k < j ensures !IsJsSpace(s[k]) {
      assert s[k] == domain[k - i - 1];
    }
    assert MatchAt(s, i, j);
  }

  /** Whatever passes the pattern has an '@' followed later by a '.', and at least five characters. */
  lemma PatternNeedsAtThenDot(s: string)
    requires EmailPattern(s)
    ensures |s| >= 5
    ensures exists i, j :: 0 <= i < j < |s| && s[i] == '@' && s[j] == '.'
  {
    var i, j :| MatchAt(s, i, j);
  }

  /** Because the pattern is unanchored, an address with a space in it still passes. */
  lemma PatternAllowsSpaces()
    ensures EmailPattern("a b@c.d")
    ensures IsJsSpace("a b@c.d"[1])
  {
    var s := "a b@c.d";
    assert s[3] == '@' && s[5] == '.' && s[2] == 'b' && s[4] == 'c' && s[6] == 'd';
    assert MatchAt(s, 3, 5);
  }

  /** The message `validateForm` stores under `field`, if any. */
  function FieldMessage(field: FormField, f: FormData): (m: Option<string>)
  {
    match field
    case Username =>
      if f.username == [] then Some(UsernameRequired)
      else if |f.username| < 3 then Some(UsernameTooShort) else None
    case Email =>
      if f.email == [] then Some(EmailRequired)
      else if !EmailPattern(f.email) then Some(EmailInvalid) else None
    case Password =>
      if f.password == [] then Some(PasswordRequired)
      else if |f.password| < 8 then Some(PasswordTooShort) else None
    case Password2 =>
      if f.password2 == [] then Some(ConfirmRequired)
      else if f.password != f.password2 then Some(ConfirmMismatch) else None
  }

  /** `newErrors.field = message`, when there is a message. */
  function Put(m: map<FormField, string>, field: FormField, message: Option<string>)
    : (r: map<FormField, string>)
    ensures field in r <==> field in m || message.Some?
    ensures forall k :: k != field ==> (k in r <==> k in m) && (k in m ==> r[k] == m[k])
    ensures message.Some? ==> r[field] == message.value
    ensures message.None? ==> r == m
  {
    if message.Some? then m[field := message.value] else m
  }

  /** All four checks pass. */
  predicate ValidForm(f: FormData) {
    |f.username| >= 3 && EmailPattern(f.email) && |f.password| >= 8
    && f.password2 != [] && f.password == f.password2
  }

  /** The error object `validateForm` returns, one entry per failing field. */
  function FormErrors(f: FormData): (r: map<FormField, string>)
    ensures Username in r <==> |f.username| < 3
    ensures Email in r <==> !EmailPattern(f.email)
    ensures Password in r <==> |f.password| < 8
    ensures Password2 in r <==> f.password2 == [] || f.password != f.password2
    ensures f.username == [] ==> r[Username] == UsernameRequired
    ensures f.email == [] ==> r[Email] == EmailRequired
    ensures f.password == [] ==> r[Password] == PasswordRequired
    ensures f.password2 == [] ==> r[Password2] == ConfirmRequired
    ensures r == map[] <==> ValidForm(f)
  {
    var r := Put(Put(Put(Put(map[], Username, FieldMessage(Username, f)),
                         Email, FieldMessage(Email, f)),
                     Password, FieldMessage(Password, f)),
                 Password2, FieldMessage(Password2, f));
    assert r == map[] ==> ValidForm(f) by {
      if r == map[] {
        assert Username !in r && Email !in r && Password !in r && Password2 !in r;
      }
    }
    r
  }

  /** `validateForm`, assigning one key after another. */
  method ValidateForm(f: FormData) returns (errors: map<FormField, string>)
    ensures errors == FormErrors(f)
  {
    errors := map[];
    if f.username == [] {
      errors := errors[Username := UsernameRequired];
    } else if |f.username| < 3 {
      errors := errors[Username := UsernameTooShort];
    }
    ghost var afterUsername := errors;
    assert afterUsername == Put(map[], Username, FieldMessage(Username, f));
    if f.email == [] {
      errors := errors[Email := EmailRequired];
    } else if !EmailPattern(f.email) {
      errors := errors[Email := EmailInvalid];
    }
    ghost var afterEmail := errors;
    assert afterEmail == Put(afterUsername, Email, FieldMessage(Email, f));
    if f.password == [] {
      errors := errors[Password := PasswordRequired];
    } else if |f.password| < 8 {
      errors := errors[Password := PasswordTooShort];
    }
    ghost var afterPassword := errors;
    assert afterPassword == Put(afterEmail, Password, FieldMessage(Password, f));
    if f.password2 == [] {
      errors := errors[Password2 := ConfirmRequired];
    } else if f.password != f.password2 {
      errors := errors[Password2 := ConfirmMismatch];
    }
    assert errors == Put(afterPassword, Password2, FieldMessage(Password2, f));
  }

  /** The body `register` posts. */
  function AsRegisterData(f: FormData): UserSerializers.RegisterData {
    UserSerializers.RegisterData(f.username, Some(f.email), f.password, f.password2)
  }

  /**
   * A form the page accepts also passes the server's confirmation check, which compares the
   * two passwords after stripping them.
   */
  lemma AcceptedFormConfirms(f: FormData, m: Accounts.Users)
    requires FormErrors(f) == map[]
    ensures UserSerializers.Validate(UserSerializers.Cleaned(AsRegisterData(f)), m)
            != Err(UserSerializers.FieldError("password", UserSerializers.MismatchMessage))
  {
  }

  /** `{...formData, [name]: value}`: the named input changes, the others keep their values. */
  function SetField(f: FormData, field: FormField, value: string): (r: FormData)
    ensures Get(r, field) == value
    ensures forall other :: other != field ==> Get(r, other) == Get(f, other)
  {
    match field
    case Username => f.(username := value)
    case Email => f.(email := value)
    case Password => f.(password := value)
    case Password2 => f.(password2 := value)
  }

  function Get(f: FormData, field: FormField): string {
    match field
    case Username => f.username
    case Email => f.email
    case Password => f.password
    case Password2 => f.password2
  }

  /** The page's state: the inputs, the shown errors, the success banner and the registration calls made. */
  class RegisterForm {
    var form: FormData
    var errors: map<FormField, string>
    var successMessage: string
    var submitted: seq<FormData>

    constructor()
      ensures form == EmptyForm && errors == map[] && successMessage == "" && submitted == []
    {
      form := EmptyForm;
      errors := map[];
      successMessage := "";
      submitted := [];
    }

    /** `handleChange`: one input takes the typed value. */
    method HandleChange(field: FormField, value: string)
      modifies this
      ensures form == SetField(old(form), field, value)
      ensures errors == old(errors) && successMessage == old(successMessage) && submitted == old(submitted)
    {
      form := SetField(form, field, value);
    }

    /**
     * `handleSubmit`: show the errors and stop, or clear them and register; after a
     * successful registration the banner appears and the inputs empty.
     * `succeeds` is what the registration call reports.
     */
    method HandleSubmit(succeeds: bool)
      modifies this
      ensures FormErrors(old(form)) != map[] ==>
                errors == FormErrors(old(form)) && form == old(form)
                && successMessage == old(successMessage) && submitted == old(submitted)
      ensures FormErrors(old(form)) == map[] ==>
                errors == map[] && submitted == old(submitted) + [old(form)]
                && form == (if succeeds then EmptyForm else old(form))
                && successMessage == (if succeeds then SuccessMessage else old(successMessage))
    {
      var formErrors := ValidateForm(form);
      if formErrors != map[] {
        errors := formErrors;
        return;
      }
      errors := map[];
      submitted := submitted + [form];
      if succeeds {
        successMessage := SuccessMessage;
        form := EmptyForm;
      }
    }
  }
}
