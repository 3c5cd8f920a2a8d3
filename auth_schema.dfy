/**
 * The validation rule of the auth form, `authformSchema(type)`: a zod object
 * schema whose per-field string rules depend on the form type. Parsing a form
 * yields either the form or the list of issues zod reports, field by field in
 * the order the schema declares its keys.
 *
 * zod's e-mail check is not part of this model; it is the parameter `isEmail`.
 */
module AuthSchema {
  import opened Wrappers

  /** The keys of the auth form. */
  datatype Field = FirstName | LastName | Address | City | State | PostalCode | Dob | Email | Password

  /** The seven profile fields, optional on the log-in form. */
  const ProfileFields: seq<Field> := [FirstName, LastName, Address, City, State, PostalCode, Dob]

  /** All keys in the order the schema declares them. */
  const Shape: seq<Field> := ProfileFields + [Email, Password]

  /** A UTF-16 code unit, the element of a JavaScript string. */
  newtype CodeUnit = x: int | 0 <= x < 0x1_0000

  /**
   * A JavaScript string as the schema sees it: its length, the one zod's
   * `.min` and `.max` compare, counts code units, so a character outside the
   * Basic Multilingual Plane counts twice.
   */
  type JsString = seq<CodeUnit>

  /** A submitted form: each field is absent or a string. */
  datatype AuthForm = AuthForm(
    firstName: Option<JsString>,
    lastName: Option<JsString>,
    address: Option<JsString>,
    city: Option<JsString>,
    state: Option<JsString>,
    postalCode: Option<JsString>,
    dob: Option<JsString>,
    email: Option<JsString>,
    password: Option<JsString>)

  function Get(form: AuthForm, f: Field): Option<JsString>
  {
    match f
    case FirstName => form.firstName
    case LastName => form.lastName
    case Address => form.address
    case City => form.city
    case State => form.state
    case PostalCode => form.postalCode
    case Dob => form.dob
    case Email => form.email
    case Password => form.password
  }

  /** The one form type under which the profile fields are optional. */
  const LogInType: string := "log-in"

  /**
   * A zod string schema: `z.string()`, then `.min(n)`, `.max(n)` and `.email()`
   * checks in that order, wrapped in `.optional()` when `optional` holds.
   */
  datatype StringSchema = StringSchema(
    optional: bool,
    minLength: Option<nat>,
    maxLength: Option<nat>,
    email: bool)

  const OptionalString := StringSchema(true, None, None, false)
  const RequiredString := StringSchema(false, None, None, false)

  /**
   * `authformSchema(type)`, key by key: only the log-in type makes fields
   * optional, and then only the profile fields, which carry no checks; the
   * e-mail check is on the e-mail alone.
   */
  function FieldSchema(kind: string, f: Field): (s: StringSchema)
    ensures s.optional <==> kind == LogInType && f in ProfileFields
    ensures s.optional ==> s.minLength == None && s.maxLength == None
    ensures s.email <==> f == Email
  {
    match f
    case Email => StringSchema(false, None, None, true)
    case Password => StringSchema(false, Some(8), None, false)
    case State =>
      if kind == LogInType then OptionalString else StringSchema(false, Some(2), Some(2), false)
    case PostalCode =>
      if kind == LogInType then OptionalString else StringSchema(false, Some(3), Some(6), false)
    case _ =>
      if kind == LogInType then OptionalString else RequiredString
  }

  /** Why zod refused a value. */
  datatype IssueCode =
    | Required               // undefined where a string is required
    | TooSmall(minimum: nat) // shorter than `.min`
    | TooBig(maximum: nat)   // longer than `.max`
    | InvalidEmail           // refused by `.email()`

  /** One refusal, tagged with the key it is about. */
  datatype Issue = Issue(path: Field, code: IssueCode)

  /**
   * The issues a string schema reports for the value at `path`. A missing
   * value stops at the type check; a present one runs every check.
   */
  function CheckString(path: Field, s: StringSchema, v: Option<JsString>, isEmail: JsString -> bool): (issues: seq<Issue>)
  {
    match v
    case None => if s.optional then [] else [Issue(path, Required)]
    case Some(x) =>
      (if s.minLength.Some? && |x| < s.minLength.value then [Issue(path, TooSmall(s.minLength.value))] else [])
      + (if s.maxLength.Some? && |x| > s.maxLength.value then [Issue(path, TooBig(s.maxLength.value))] else [])
      + (if s.email && !isEmail(x) then [Issue(path, InvalidEmail)] else [])
  }

  /** The issues of the listed keys, in order. */
  function IssuesOver(fields: seq<Field>, kind: string, form: AuthForm, isEmail: JsString -> bool): (issues: seq<Issue>)
  {
    if fields == [] then []
    else CheckString(fields[0], FieldSchema(kind, fields[0]), Get(form, fields[0]), isEmail)
         + IssuesOver(fields[1..], kind, form, isEmail)
  }

  /** Every issue the schema reports for a form. */
  function Issues(kind: string, form: AuthForm, isEmail: JsString -> bool): seq<Issue>
  {
    IssuesOver(Shape, kind, form, isEmail)
  }

  /** `authformSchema(type).safeParse(form)`. */
  function SafeParse(kind: string, form: AuthForm, isEmail: JsString -> bool): (r: Result<AuthForm, seq<Issue>>)
    ensures r.Success? ==> r.value == form
    ensures r.Failure? ==> r.error != []
  {
    var issues := Issues(kind, form, isEmail);
    if issues == [] then Success(form) else Failure(issues)
  }

  /**
   * What a valid form is, stated as the form's rules rather than as zod's
   * checks: outside log-in every profile field is present, the state has two
   * characters and the postal code three to six; on every form the e-mail is
   * present and accepted and the password has at least eight characters.
   */
  predicate Valid(kind: string, form: AuthForm, isEmail: JsString -> bool)
  {
    && (kind != LogInType ==>
          && form.firstName.Some? && form.lastName.Some? && form.address.Some?
          && form.city.Some? && form.state.Some? && form.postalCode.Some? && form.dob.Some?
          && |form.state.value| == 2
          && 3 <= |form.postalCode.value| <= 6)
    && form.email.Some? && isEmail(form.email.value)
    && form.password.Some? && |form.password.value| >= 8
  }

  /** Checks of one key report issues about that key only. */
  lemma CheckStringPath(path: Field, s: StringSchema, v: Option<JsString>, isEmail: JsString -> bool, i: Issue)
    requires i in CheckString(path, s, v, isEmail)
    ensures i.path == path
  {
  }

  /** An issue is reported exactly when its key is listed and that key's check reports it. */
  lemma {:induction false} IssueReportedOver(fields: seq<Field>, kind: string, form: AuthForm, isEmail: JsString -> bool, i: Issue)
    ensures i in IssuesOver(fields, kind, form, isEmail)
        <==> i.path in fields && i in CheckString(i.path, FieldSchema(kind, i.path), Get(form, i.path), isEmail)
  {
    if fields != [] {
      var f := fields[0];
      IssueReportedOver(fields[1..], kind, form, isEmail, i);
      if i in CheckString(f, FieldSchema(kind, f), Get(form, f), isEmail) {
        CheckStringPath(f, FieldSchema(kind, f), Get(form, f), isEmail, i);
      }
      assert fields == [f] + fields[1..];
    }
  }

  /** Every key is in the schema, so an issue is reported exactly when its key's check reports it. */
  lemma IssueReported(kind: string, form: AuthForm, isEmail: JsString -> bool, i: Issue)
    ensures i in Issues(kind, form, isEmail)
        <==> i in CheckString(i.path, FieldSchema(kind, i.path), Get(form, i.path), isEmail)
  {
    IssueReportedOver(Shape, kind, form, isEmail, i);
    assert i.path in Shape by {
      match i.path
      case FirstName => assert Shape[0] == FirstName;
      case LastName => assert Shape[1] == LastName;
      case Address => assert Shape[2] == Address;
      case City => assert Shape[3] == City;
      case State => assert Shape[4] == State;
      case PostalCode => assert Shape[5] == PostalCode;
      case Dob => assert Shape[6] == Dob;
      case Email => assert Shape[7] == Email;
      case Password => assert Shape[8] == Password;
    }
  }

  /** The schema accepts a form exactly when the form is valid. */
  lemma SafeParseAcceptsExactlyValid(kind: string, form: AuthForm, isEmail: JsString -> bool)
    ensures SafeParse(kind, form, isEmail).Success? <==> Valid(kind, form, isEmail)
  {
    var issues := Issues(kind, form, isEmail);
    if issues != [] {
      var i := issues[0];
      IssueReported(kind, form, isEmail, i);
      assert !Valid(kind, form, isEmail);
    } else {
      forall f: Field ensures CheckString(f, FieldSchema(kind, f), Get(form, f), isEmail) == [] {
        var c := CheckString(f, FieldSchema(kind, f), Get(form, f), isEmail);
        if c != [] {
          CheckStringPath(f, FieldSchema(kind, f), Get(form, f), isEmail, c[0]);
          IssueReported(kind, form, isEmail, c[0]);
        }
      }
      assert CheckString(FirstName, FieldSchema(kind, FirstName), form.firstName, isEmail) == [];
      assert CheckString(LastName, FieldSchema(kind, LastName), form.lastName, isEmail) == [];
      assert CheckString(Address, FieldSchema(kind, Address), form.address, isEmail) == [];
      assert CheckString(City, FieldSchema(kind, City), form.city, isEmail) == [];
      assert CheckString(State, FieldSchema(kind, State), form.state, isEmail) == [];
      assert CheckString(PostalCode, FieldSchema(kind, PostalCode), form.postalCode, isEmail) == [];
      assert CheckString(Dob, FieldSchema(kind, Dob), form.dob, isEmail) == [];
      assert CheckString(Email, FieldSchema(kind, Email), form.email, isEmail) == [];
      assert CheckString(Password, FieldSchema(kind, Password), form.password, isEmail) == [];
    }
  }

  /** On the log-in form only the e-mail and the password decide acceptance. */
  lemma LogInNeedsOnlyCredentials(form: AuthForm, isEmail: JsString -> bool)
    ensures SafeParse(LogInType, form, isEmail).Success?
        <==> form.email.Some? && isEmail(form.email.value)
             && form.password.Some? && |form.password.value| >= 8
  {
    SafeParseAcceptsExactlyValid(LogInType, form, isEmail);
  }

  /** On the log-in form no issue is ever about a profile field. */
  lemma LogInProfileOptional(form: AuthForm, isEmail: JsString -> bool, i: Issue)
    requires i.path in ProfileFields
    ensures i !in Issues(LogInType, form, isEmail)
  {
    IssueReported(LogInType, form, isEmail, i);
  }

  /** A missing profile field is reported as required exactly when the type is not `log-in`. */
  lemma ProfileRequiredUnlessLogIn(kind: string, form: AuthForm, isEmail: JsString -> bool, f: Field)
    requires f in ProfileFields
    ensures Issue(f, Required) in Issues(kind, form, isEmail)
        <==> kind != LogInType && Get(form, f).None?
  {
    IssueReported(kind, form, isEmail, Issue(f, Required));
  }

  /**
   * A present name, address, city or date of birth is never refused: a
   * required string may be empty.
   */
  lemma TextFieldsOnlyNeedPresence(kind: string, form: AuthForm, isEmail: JsString -> bool, f: Field, c: IssueCode)
    requires f in [FirstName, LastName, Address, City, Dob]
    requires Get(form, f).Some?
    ensures Issue(f, c) !in Issues(kind, form, isEmail)
  {
    IssueReported(kind, form, isEmail, Issue(f, c));
  }

  /** Outside log-in, a present state is refused exactly when it does not have two characters. */
  lemma StateNeedsTwoChars(kind: string, form: AuthForm, isEmail: JsString -> bool, x: JsString)
    requires kind != LogInType && form.state == Some(x)
    ensures Issue(State, TooSmall(2)) in Issues(kind, form, isEmail) <==> |x| < 2
    ensures Issue(State, TooBig(2)) in Issues(kind, form, isEmail) <==> |x| > 2
  {
    IssueReported(kind, form, isEmail, Issue(State, TooSmall(2)));
    IssueReported(kind, form, isEmail, Issue(State, TooBig(2)));
  }

  /** Outside log-in, a present postal code is refused exactly when it is not three to six characters. */
  lemma PostalCodeNeedsThreeToSixChars(kind: string, form: AuthForm, isEmail: JsString -> bool, x: JsString)
    requires kind != LogInType && form.postalCode == Some(x)
    ensures Issue(PostalCode, TooSmall(3)) in Issues(kind, form, isEmail) <==> |x| < 3
    ensures Issue(PostalCode, TooBig(6)) in Issues(kind, form, isEmail) <==> |x| > 6
  {
    IssueReported(kind, form, isEmail, Issue(PostalCode, TooSmall(3)));
    IssueReported(kind, form, isEmail, Issue(PostalCode, TooBig(6)));
  }

  /** On every form the password is required and needs at least eight characters. */
  lemma PasswordNeedsEightChars(kind: string, form: AuthForm, isEmail: JsString -> bool)
    ensures Issue(Password, Required) in Issues(kind, form, isEmail) <==> form.password.None?
    ensures Issue(Password, TooSmall(8)) in Issues(kind, form, isEmail)
        <==> form.password.Some? && |form.password.value| < 8
  {
    IssueReported(kind, form, isEmail, Issue(Password, Required));
    IssueReported(kind, form, isEmail, Issue(Password, TooSmall(8)));
  }

  /** On every form the e-mail is required and must pass the e-mail check. */
  lemma EmailMustBeAccepted(kind: string, form: AuthForm, isEmail: JsString -> bool)
    ensures Issue(Email, Required) in Issues(kind, form, isEmail) <==> form.email.None?
    ensures Issue(Email, InvalidEmail) in Issues(kind, form, isEmail)
        <==> form.email.Some? && !isEmail(form.email.value)
  {
    IssueReported(kind, form, isEmail, Issue(Email, Required));
    IssueReported(kind, form, isEmail, Issue(Email, InvalidEmail));
  }

  /** Every form any type's schema accepts is accepted by the log-in schema too. */
  lemma LogInIsMostLenient(kind: string, form: AuthForm, isEmail: JsString -> bool)
    requires SafeParse(kind, form, isEmail).Success?
    ensures SafeParse(LogInType, form, isEmail).Success?
  {
    SafeParseAcceptsExactlyValid(kind, form, isEmail);
    SafeParseAcceptsExactlyValid(LogInType, form, isEmail);
  }
}
