/** The login / signup form: field validation into an error map keyed by
    field name, editing a field (which blanks that field's error), and
    switching between login and signup. Submitting to the server is not
    part of this model. */
module AuthForm {
  import opened Text
  import opened Optional

  datatype AuthData = AuthData(name: string, email: string, password: string, confirmPassword: string)

  /** The inputs, by their `name` attribute. */
  datatype AuthField = NameField | EmailField | PasswordField | ConfirmPasswordField

  const BlankAuthData := AuthData("", "", "", "")

  function Key(field: AuthField): string
  {
    match field
    case NameField => "name"
    case EmailField => "email"
    case PasswordField => "password"
    case ConfirmPasswordField => "confirmPassword"
  }

  /** `\S+@\S+\.\S+` found anywhere in `s`: an '@' with a non-space
      character before it, then one or more non-space characters, then a
      '.', then a non-space character. */
  predicate EmailPattern(s: string)
    ensures EmailPattern(s) ==> |s| >= 5
  {
    exists at, dot | 0 < at && at + 1 < dot && dot + 1 < |s| :: EmailMatchAt(s, at, dot)
  }

  /** The pattern matches with its '@' at `at` and its '.' at `dot`: each
      of the three `\S+` parts then holds at least one non-space character
      (the one after the '@' included). */
  predicate EmailMatchAt(s: string, at: nat, dot: nat)
    ensures EmailMatchAt(s, at, dot) ==>
      0 < at < dot - 1 < |s| - 2 && !IsWhitespace(s[at + 1]) && s[at] != s[dot]
  {
    0 < at && at + 1 < dot && dot + 1 < |s|
    && s[at] == '@' && s[dot] == '.'
    && !IsWhitespace(s[at - 1]) && !IsWhitespace(s[dot + 1])
    && (forall i :: at < i < dot ==> !IsWhitespace(s[i]))
  }

  /** `s.length` in JavaScript: UTF-16 code units, two for a character
      outside the Basic Multilingual Plane. */
  function Utf16Length(s: string): (n: nat)
    ensures |s| <= n <= 2 * |s|
  {
    if s == [] then 0
    else Utf16Length(s[..|s| - 1]) + (if s[|s| - 1] as int > 0xFFFF then 2 else 1)
  }

  function EmailError(email: string): (e: Option<string>)
    ensures e == None <==> email != "" && EmailPattern(email)
  {
    if email == "" then Some("Email is required")
    else if !EmailPattern(email) then Some("Email is invalid")
    else None
  }

  function PasswordError(password: string): (e: Option<string>)
    ensures e == None <==> password != "" && Utf16Length(password) >= 6
  {
    if password == "" then Some("Password is required")
    else if Utf16Length(password) < 6 then Some("Password must be at least 6 characters")
    else None
  }

  /** The error map `validateForm` builds: an entry per failing field;
      the name and the confirmation are checked in signup mode only. */
  function FormErrors(d: AuthData, isLogin: bool): (m: map<string, string>)
    ensures m.Keys <= {"email", "password", "name", "confirmPassword"}
    ensures "email" in m <==> EmailError(d.email).Some?
    ensures "password" in m <==> PasswordError(d.password).Some?
    ensures "name" in m <==> !isLogin && Trim(d.name) == ""
    ensures "confirmPassword" in m <==> !isLogin && d.password != d.confirmPassword
  {
    var withEmail := if EmailError(d.email).Some? then map["email" := EmailError(d.email).value] else map[];
    var withPassword :=
      if PasswordError(d.password).Some? then withEmail["password" := PasswordError(d.password).value]
      else withEmail;
    var withName := if !isLogin && Trim(d.name) == "" then withPassword["name" := "Name is required"] else withPassword;
    if !isLogin && d.password != d.confirmPassword then withName["confirmPassword" := "Passwords do not match"]
    else withName
  }

  /** The form is valid exactly when the e-mail is present and matches the
      pattern, the password has at least six code units, and, in signup
      mode, the name is not blank and the two passwords agree. */
  lemma ValidIff(d: AuthData, isLogin: bool)
    ensures FormErrors(d, isLogin) == map[] <==>
      d.email != "" && EmailPattern(d.email)
      && d.password != "" && Utf16Length(d.password) >= 6
      && (!isLogin ==> !AllWhitespace(d.name) && d.password == d.confirmPassword)
  {
    TrimEmptyIff(d.name);
    var m := FormErrors(d, isLogin);
    if m != map[] {
      var k :| k in m;
    }
  }

  /** Login mode never looks at the name or the confirmation, and whatever
      it reports signup mode reports too, with the same message. */
  lemma LoginChecksLess(d: AuthData, name: string, confirm: string)
    ensures FormErrors(d, true) == FormErrors(d.(name := name, confirmPassword := confirm), true)
    ensures FormErrors(d, true).Keys <= {"email", "password"}
    ensures forall k :: k in FormErrors(d, true) ==>
      k in FormErrors(d, false) && FormErrors(d, false)[k] == FormErrors(d, true)[k]
  {
  }

  /** An e-mail gets exactly one message when it fails, and the messages
      say which check failed. */
  lemma EmailMessages(email: string)
    ensures email == "" ==> EmailError(email) == Some("Email is required")
    ensures email != "" && !EmailPattern(email) ==> EmailError(email) == Some("Email is invalid")
  {
  }

  /** The pattern is not anchored: text around a match still matches. */
  lemma {:induction false} EmailPatternUnanchored(before: string, core: string, after: string)
    requires EmailPattern(core)
    ensures EmailPattern(before + core + after)
  {
    var at, dot :| 0 < at && at + 1 < dot && dot + 1 < |core| && EmailMatchAt(core, at, dot);
    var s := before + core + after;
    assert forall i :: 0 <= i < |core| ==> s[|before| + i] == core[i];
    assert forall i :: |before| + at < i < |before| + dot ==> !IsWhitespace(s[i]) by {
      forall i | |before| + at < i < |before| + dot
        ensures !IsWhitespace(s[i])
      {
        assert s[i] == core[i - |before|];
      }
    }
    assert EmailMatchAt(s, |before| + at, |before| + dot);
  }

  /** A match needs an '@' and a later '.'. */
  lemma EmailPatternNeedsAtAndDot(s: string)
    requires EmailPattern(s)
    ensures '@' in s && '.' in s
  {
    var at, dot :| 0 < at && at + 1 < dot && dot + 1 < |s| && EmailMatchAt(s, at, dot);
    assert s[at] == '@' && s[dot] == '.';
  }

  /** Examples: "a@b.c" matches; "a@b" and "a@.c" do not; a space before
      the address does not matter, since the match may start anywhere. */
  lemma EmailPatternExamples()
    ensures EmailPattern("a@b.c")
    ensures !EmailPattern("a@b")
    ensures !EmailPattern("a@.c")
    ensures EmailPattern("x y@b.c")
  {
    assert EmailMatchAt("a@b.c", 1, 3);
    assert EmailMatchAt("x y@b.c", 3, 5);
  }

  /** Length counts UTF-16 code units: three characters outside the Basic
      Multilingual Plane pass the six-character minimum. */
  /** Inside the Basic Multilingual Plane a character is one code unit. */
  lemma {:induction false} Utf16LengthBmp(s: string)
    requires forall i :: 0 <= i < |s| ==> s[i] as int <= 0xFFFF
    ensures Utf16Length(s) == |s|
  {
    if s != [] {
      Utf16LengthBmp(s[..|s| - 1]);
    }
  }

  lemma AstralPasswordLength()
    ensures PasswordError("\U{1F600}\U{1F600}\U{1F600}") == None
    ensures PasswordError("abcde") == Some("Password must be at least 6 characters")
  {
    var p := "\U{1F600}\U{1F600}\U{1F600}";
    assert p[..2][..1] == p[..1];
    assert p[..|p| - 1] == p[..2];
    assert Utf16Length(p[..1]) == 2;
    assert Utf16Length(p[..2]) == 4;
    Utf16LengthBmp("abcde");
  }

  function FieldValue(d: AuthData, field: AuthField): string
  {
    match field
    case NameField => d.name
    case EmailField => d.email
    case PasswordField => d.password
    case ConfirmPasswordField => d.confirmPassword
  }

  /** `{ ...prev, [name]: value }` on the form data: the named field takes
      the value and no other field changes. */
  function WithAuthField(d: AuthData, field: AuthField, value: string): (r: AuthData)
    ensures FieldValue(r, field) == value
    ensures forall other :: other != field ==> FieldValue(r, other) == FieldValue(d, other)
  {
    match field
    case NameField => d.(name := value)
    case EmailField => d.(email := value)
    case PasswordField => d.(password := value)
    case ConfirmPasswordField => d.(confirmPassword := value)
  }

  /** `if (errors[name]) errors[name] = ''`: the keys stay, the entry for
      `key` (if any) is blank, every other entry is as it was. */
  function ClearError(errors: map<string, string>, key: string): (r: map<string, string>)
    ensures r.Keys == errors.Keys
    ensures key in r ==> r[key] == ""
    ensures forall k :: k in r && k != key ==> r[k] == errors[k]
  {
    if key in errors && errors[key] != "" then errors[key := ""] else errors
  }

  /** `Object.keys(m).length`: zero exactly for the empty map. */
  function KeyCount(m: map<string, string>): (n: nat)
    ensures n == 0 <==> m == map[]
  {
    if m != map[] then
      var k :| k in m;
      assert k in m.Keys;
      |m|
    else 0
  }

  class AuthPage {
    var isLogin: bool
    var formData: AuthData
    var errors: map<string, string>

    constructor ()
      ensures isLogin && formData == BlankAuthData && errors == map[]
    {
      isLogin := true;
      formData := BlankAuthData;
      errors := map[];
    }

    /** `validateForm`: build the error map field by field, store it, and
        report whether it is empty. */
    method ValidateForm() returns (ok: bool)
      modifies this`errors
      ensures errors == FormErrors(formData, isLogin)
      ensures ok <==> errors == map[]
    {
      var newErrors: map<string, string> := map[];
      if formData.email == "" {
        newErrors := newErrors["email" := "Email is required"];
      } else if !EmailPattern(formData.email) {
        newErrors := newErrors["email" := "Email is invalid"];
      }
      if formData.password == "" {
        newErrors := newErrors["password" := "Password is required"];
      } else if Utf16Length(formData.password) < 6 {
        newErrors := newErrors["password" := "Password must be at least 6 characters"];
      }
      if !isLogin {
        if Trim(formData.name) == "" {
          newErrors := newErrors["name" := "Name is required"];
        }
        if formData.password != formData.confirmPassword {
          newErrors := newErrors["confirmPassword" := "Passwords do not match"];
        }
      }
      errors := newErrors;
      ok := KeyCount(newErrors) == 0;
    }

    /** `handleChange` */
    method HandleChange(field: AuthField, value: string)
      modifies this`formData, this`errors
      ensures formData == WithAuthField(old(formData), field, value)
      ensures errors == ClearError(old(errors), Key(field))
    {
      formData := WithAuthField(formData, field, value);
      if Key(field) in errors && errors[Key(field)] != "" {
        errors := errors[Key(field) := ""];
      }
    }

    /** `toggleForm` */
    method ToggleForm()
      modifies this
      ensures isLogin == !old(isLogin)
      ensures errors == map[] && formData == BlankAuthData
    {
      isLogin := !isLogin;
      errors := map[];
      formData := BlankAuthData;
    }
  }
}
