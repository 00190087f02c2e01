/**
 * The request validators of backend/accounts/serializers.py: the
 * registration and OTP serializers, whose fields are Django REST
 * framework `CharField`s (surrounding whitespace trimmed, blanks refused,
 * then the length validators, maximum before minimum), followed by the
 * serializer's own `validate_<field>` checks; and the `file_size_mb`
 * method field. Whether a username or e-mail is taken, whether a text
 * is a well-formed e-mail address and whether it is a date in the ISO
 * `YYYY-MM-DD` form are parameters.
 */
module Serializers {
  import opened Common

  /** The outcome of validating one field. */
  datatype FieldCheck = Absent | Accepted(value: string) | Rejected(errors: seq<string>)

  /** The outcome of a whole serializer: its validated data, or the errors
    * of each failing field in declaration order. */
  datatype Validated<T> = Valid(data: T) | Invalid(errors: seq<(string, seq<string>)>)

  function MaxMessage(n: nat): string
  {
    "Ensure this field has no more than " + NatToString(n) + " characters."
  }

  function MinMessage(n: nat): string
  {
    "Ensure this field has at least " + NatToString(n) + " characters."
  }

  /** A `CharField` with the given requirement and length bounds. */
  function CharField(raw: Option<string>, required: bool, minLength: Option<nat>, maxLength: Option<nat>): (r: FieldCheck)
  {
    if raw.None? then (if required then Rejected(["This field is required."]) else Absent)
    else if Blank(raw.value) then Rejected(["This field may not be blank."])
    else
      var v := Strip(raw.value);
      var errors := LengthErrors(v, minLength, maxLength);
      if errors == [] then Accepted(v) else Rejected(errors)
  }

  /** The messages of the maximum- and minimum-length validators, in that
    * order: none exactly when the value is within both bounds. */
  function LengthErrors(v: string, minLength: Option<nat>, maxLength: Option<nat>): (r: seq<string>)
    ensures r == [] <==> (maxLength.Some? ==> |v| <= maxLength.value) && (minLength.Some? ==> |v| >= minLength.value)
    ensures minLength.None? && maxLength.Some? && |v| > maxLength.value ==> r == [MaxMessage(maxLength.value)]
    ensures maxLength.None? && minLength.Some? && |v| < minLength.value ==> r == [MinMessage(minLength.value)]
  {
    (if maxLength.Some? && |v| > maxLength.value then [MaxMessage(maxLength.value)] else []) +
    (if minLength.Some? && |v| < minLength.value then [MinMessage(minLength.value)] else [])
  }

  lemma StripNonBlank(s: string)
    requires !Blank(s)
    ensures Strip(s) != []
  {
    var t := TrimLeft(s);
    var i :| 0 <= i < |s| && !IsSpace(s[i]);
    assert i >= |s| - |t|;
    assert !IsSpace(t[0]);
    assert |TrimRight(t)| > 0;
  }

  /** A field is accepted exactly when it is present, not blank, and its
    * trimmed value is within the bounds; the accepted value is that trimmed,
    * non-empty value. An absent optional field is not an error. */
  lemma CharFieldFacts(raw: Option<string>, required: bool, minLength: Option<nat>, maxLength: Option<nat>)
    ensures var r := CharField(raw, required, minLength, maxLength);
            (r.Accepted? <==>
               raw.Some? && !Blank(raw.value) &&
               (maxLength.Some? ==> |Strip(raw.value)| <= maxLength.value) &&
               (minLength.Some? ==> |Strip(raw.value)| >= minLength.value)) &&
            (r.Accepted? ==> r.value == Strip(raw.value) && r.value != []) &&
            (r.Absent? <==> raw.None? && !required)
  {
    if raw.Some? && !Blank(raw.value) {
      StripNonBlank(raw.value);
    }
  }

  /** A field check followed by a serializer-level check run only on an
    * accepted value. */
  function Then(c: FieldCheck, refuse: bool, message: string): (r: FieldCheck)
  {
    if c.Accepted? && refuse then Rejected([message]) else c
  }

  function ErrorsOf(name: string, c: FieldCheck): seq<(string, seq<string>)>
  {
    if c.Rejected? then [(name, c.errors)] else []
  }

  // ------------------------------------------------------------ registration

  datatype RegisterRequest = RegisterRequest(username: Option<string>, email: Option<string>, password: Option<string>,
                                             fullName: Option<string>, dateOfBirth: Option<string>,
                                             gender: Option<string>)

  datatype Registration = Registration(username: string, email: string, password: string,
                                       fullName: Option<string>, dateOfBirth: Option<string>,
                                       gender: Option<string>)

  const DateMessage := "Date has wrong format. Use one of these formats instead: YYYY-MM-DD."

  /** The optional `DateField`: absent is not an error, a text that is not
    * a date is refused with the format message, and no trimming or blank
    * check happens first. */
  function DateCheck(raw: Option<string>, isDate: string -> bool): (r: FieldCheck)
  {
    if raw.None? then Absent
    else if isDate(raw.value) then Accepted(raw.value)
    else Rejected([DateMessage])
  }

  /** The e-mail field: trimmed and blank-checked like a `CharField`, then
    * checked for address form. */
  function EmailField(raw: Option<string>, isEmail: string -> bool): (r: FieldCheck)
  {
    var c := CharField(raw, true, None, None);
    if c.Accepted? && !isEmail(c.value) then Rejected(["Enter a valid email address."]) else c
  }

  function UsernameCheck(raw: Option<string>, taken: string -> bool): FieldCheck
  {
    var c := CharField(raw, true, None, Some(150));
    Then(c, c.Accepted? && taken(c.value), "Username already exists")
  }

  function EmailCheck(raw: Option<string>, isEmail: string -> bool, registered: string -> bool): FieldCheck
  {
    var c := EmailField(raw, isEmail);
    Then(c, c.Accepted? && registered(c.value), "Email already registered")
  }

  function PasswordCheck(raw: Option<string>): FieldCheck
  {
    CharField(raw, true, Some(8), None)
  }

  function OptionalValue(c: FieldCheck): Option<string>
  {
    if c.Accepted? then Some(c.value) else None
  }

  /** `RegisterSerializer(data=…).is_valid()`. */
  function ValidateRegister(req: RegisterRequest, taken: string -> bool, registered: string -> bool,
                            isEmail: string -> bool, isDate: string -> bool): (r: Validated<Registration>)
  {
    var u := UsernameCheck(req.username, taken);
    var e := EmailCheck(req.email, isEmail, registered);
    var p := PasswordCheck(req.password);
    var f := CharField(req.fullName, false, None, Some(255));
    var d := DateCheck(req.dateOfBirth, isDate);
    var g := CharField(req.gender, false, None, Some(20));
    var errors := RegisterErrors(u, e, p, f, d, g);
    if errors == [] && u.Accepted? && e.Accepted? && p.Accepted? then
      Valid(Registration(u.value, e.value, p.value, OptionalValue(f), OptionalValue(d), OptionalValue(g)))
    else Invalid(errors)
  }

  /** The errors of the six fields, in declaration order. */
  function RegisterErrors(u: FieldCheck, e: FieldCheck, p: FieldCheck, f: FieldCheck, d: FieldCheck, g: FieldCheck)
    : (r: seq<(string, seq<string>)>)
    ensures r == [] <==> !u.Rejected? && !e.Rejected? && !p.Rejected? && !f.Rejected? && !d.Rejected? && !g.Rejected?
    ensures u.Rejected? ==> ("username", u.errors) in r
    ensures e.Rejected? ==> ("email", e.errors) in r
    ensures p.Rejected? ==> ("password", p.errors) in r
    ensures d.Rejected? ==> ("date_of_birth", d.errors) in r
  {
    var a := ErrorsOf("username", u) + ErrorsOf("email", e) + ErrorsOf("password", p) + ErrorsOf("full_name", f);
    var r := a + ErrorsOf("date_of_birth", d) + ErrorsOf("gender", g);
    assert u.Rejected? ==> r[0] == ("username", u.errors);
    assert e.Rejected? ==> ("email", e.errors) in ErrorsOf("username", u) + ErrorsOf("email", e);
    assert d.Rejected? ==> r[|a|] == ("date_of_birth", d.errors);
    r
  }

  /** An accepted registration has a free username of 1 to 150 characters,
    * an unregistered well-formed e-mail and a password of at least 8
    * characters, all trimmed, and the date of birth as given when it is
    * present, which is then a date. */
  lemma RegisterAccepted(req: RegisterRequest, taken: string -> bool, registered: string -> bool,
                         isEmail: string -> bool, isDate: string -> bool)
    ensures var r := ValidateRegister(req, taken, registered, isEmail, isDate);
            r.Valid? ==>
              1 <= |r.data.username| <= 150 && !taken(r.data.username) && r.data.username == Strip(req.username.value) &&
              isEmail(r.data.email) && !registered(r.data.email) && r.data.email == Strip(req.email.value) &&
              |r.data.password| >= 8 && r.data.password == Strip(req.password.value) &&
              r.data.dateOfBirth == req.dateOfBirth && (req.dateOfBirth.Some? ==> isDate(req.dateOfBirth.value))
  {
    var r := ValidateRegister(req, taken, registered, isEmail, isDate);
    if r.Valid? {
      var u := UsernameCheck(req.username, taken);
      var e := EmailCheck(req.email, isEmail, registered);
      var p := PasswordCheck(req.password);
      ValidateRegisterUnfold(req, taken, registered, isEmail, isDate);
      assert u.Accepted? && e.Accepted? && p.Accepted?;
      assert r.data.username == u.value && r.data.email == e.value && r.data.password == p.value;
      assert !DateCheck(req.dateOfBirth, isDate).Rejected?;
      CharFieldFacts(req.username, true, None, Some(150));
      CharFieldFacts(req.email, true, None, None);
      CharFieldFacts(req.password, true, Some(8), None);
    }
  }

  /** `ValidateRegister` written out over its six field checks. */
  lemma ValidateRegisterUnfold(req: RegisterRequest, taken: string -> bool, registered: string -> bool,
                         isEmail: string -> bool, isDate: string -> bool)
    ensures var u := UsernameCheck(req.username, taken);
            var e := EmailCheck(req.email, isEmail, registered);
            var p := PasswordCheck(req.password);
            var f := CharField(req.fullName, false, None, Some(255));
            var d := DateCheck(req.dateOfBirth, isDate);
            var g := CharField(req.gender, false, None, Some(20));
            var errors := RegisterErrors(u, e, p, f, d, g);
            ValidateRegister(req, taken, registered, isEmail, isDate) ==
              if errors == [] && u.Accepted? && e.Accepted? && p.Accepted? then
                Valid(Registration(u.value, e.value, p.value, OptionalValue(f), OptionalValue(d), OptionalValue(g)))
              else Invalid(errors)
  {
  }

  /** A taken username, a registered e-mail, a short password and a date of
    * birth that is not a date are each reported under their own field with
    * their own message. */
  lemma RegisterRefusals(req: RegisterRequest, taken: string -> bool, registered: string -> bool,
                         isEmail: string -> bool, isDate: string -> bool)
    ensures var c := CharField(req.username, true, None, Some(150));
            c.Accepted? && taken(c.value) ==>
              ValidateRegister(req, taken, registered, isEmail, isDate).Invalid? &&
              ("username", ["Username already exists"]) in ValidateRegister(req, taken, registered, isEmail, isDate).errors
    ensures var c := EmailField(req.email, isEmail);
            c.Accepted? && registered(c.value) ==>
              ValidateRegister(req, taken, registered, isEmail, isDate).Invalid? &&
              ("email", ["Email already registered"]) in ValidateRegister(req, taken, registered, isEmail, isDate).errors
    ensures req.password.Some? && !Blank(req.password.value) && |Strip(req.password.value)| < 8 ==>
              ValidateRegister(req, taken, registered, isEmail, isDate).Invalid? &&
              ("password", [MinMessage(8)]) in ValidateRegister(req, taken, registered, isEmail, isDate).errors
    ensures req.dateOfBirth.Some? && !isDate(req.dateOfBirth.value) ==>
              ValidateRegister(req, taken, registered, isEmail, isDate).Invalid? &&
              ("date_of_birth", [DateMessage]) in ValidateRegister(req, taken, registered, isEmail, isDate).errors
  {
    var u := UsernameCheck(req.username, taken);
    var e := EmailCheck(req.email, isEmail, registered);
    var p := PasswordCheck(req.password);
    var f := CharField(req.fullName, false, None, Some(255));
    var d := DateCheck(req.dateOfBirth, isDate);
    var g := CharField(req.gender, false, None, Some(20));
    ValidateRegisterUnfold(req, taken, registered, isEmail, isDate);
    var errors := RegisterErrors(u, e, p, f, d, g);
    var cu := CharField(req.username, true, None, Some(150));
    if cu.Accepted? && taken(cu.value) {
      assert u == Rejected(["Username already exists"]);
    }
    var ce := EmailField(req.email, isEmail);
    if ce.Accepted? && registered(ce.value) {
      assert e == Rejected(["Email already registered"]);
    }
    if req.password.Some? && !Blank(req.password.value) && |Strip(req.password.value)| < 8 {
      assert p == Rejected([MinMessage(8)]);
    }
    if u.Rejected? || e.Rejected? || p.Rejected? || d.Rejected? {
      assert ValidateRegister(req, taken, registered, isEmail, isDate) == Invalid(errors);
    }
  }

  /** A request is valid exactly when every field passes. */
  lemma RegisterValidIff(req: RegisterRequest, taken: string -> bool, registered: string -> bool,
                         isEmail: string -> bool, isDate: string -> bool)
    ensures ValidateRegister(req, taken, registered, isEmail, isDate).Valid? <==>
              UsernameCheck(req.username, taken).Accepted? &&
              EmailCheck(req.email, isEmail, registered).Accepted? &&
              PasswordCheck(req.password).Accepted? &&
              !CharField(req.fullName, false, None, Some(255)).Rejected? &&
              !DateCheck(req.dateOfBirth, isDate).Rejected? &&
              !CharField(req.gender, false, None, Some(20)).Rejected?
  {
    var u := UsernameCheck(req.username, taken);
    var e := EmailCheck(req.email, isEmail, registered);
    var p := PasswordCheck(req.password);
    var f := CharField(req.fullName, false, None, Some(255));
    var d := DateCheck(req.dateOfBirth, isDate);
    var g := CharField(req.gender, false, None, Some(20));
    RequiredPresent(req, taken, registered, isEmail);
    var errors := RegisterErrors(u, e, p, f, d, g);
    assert ValidateRegister(req, taken, registered, isEmail, isDate) ==
           if errors == [] && u.Accepted? && e.Accepted? && p.Accepted? then
             Valid(Registration(u.value, e.value, p.value, OptionalValue(f), OptionalValue(d), OptionalValue(g)))
           else Invalid(errors);
  }

  /** The three required fields are never silently absent: each is either
    * accepted or rejected. */
  lemma RequiredPresent(req: RegisterRequest, taken: string -> bool, registered: string -> bool, isEmail: string -> bool)
    ensures !UsernameCheck(req.username, taken).Absent?
    ensures !EmailCheck(req.email, isEmail, registered).Absent?
    ensures !PasswordCheck(req.password).Absent?
  {
    CharFieldFacts(req.username, true, None, Some(150));
    CharFieldFacts(req.email, true, None, None);
    CharFieldFacts(req.password, true, Some(8), None);
  }

  // ------------------------------------------------------------ OTP

  /** `VerifyOTPSerializer(data=…).is_valid()`: the e-mail and a code of
    * at most 6 characters. */
  function ValidateVerifyOtp(email: Option<string>, otp: Option<string>, isEmail: string -> bool): (r: Validated<(string, string)>)
  {
    var e := EmailField(email, isEmail);
    var o := CharField(otp, true, None, Some(6));
    var errors := ErrorsOf("email", e) + ErrorsOf("otp", o);
    if errors == [] && e.Accepted? && o.Accepted? then Valid((e.value, o.value)) else Invalid(errors)
  }

  /** An accepted code has 1 to 6 characters and is the trimmed input; a
    * longer code is refused with the length message. */
  lemma VerifyOtpLength(email: Option<string>, otp: Option<string>, isEmail: string -> bool)
    ensures var r := ValidateVerifyOtp(email, otp, isEmail);
            r.Valid? ==> 1 <= |r.data.1| <= 6 && r.data.1 == Strip(otp.value)
    ensures otp.Some? && !Blank(otp.value) && |Strip(otp.value)| > 6 ==>
              ValidateVerifyOtp(email, otp, isEmail).Invalid? &&
              ("otp", [MaxMessage(6)]) in ValidateVerifyOtp(email, otp, isEmail).errors
  {
    CharFieldFacts(otp, true, None, Some(6));
  }

  // ------------------------------------------------------------ file size

  /** Python's `round(x, 2)` on the exact quotient, ties rounded up. */
  function Round2(x: real): (r: real)
  {
    ((x * 100.0 + 0.5).Floor as real) / 100.0
  }

  /** `get_file_size_mb`: bytes over 1024 * 1024, to two decimals. */
  function FileSizeMb(bytes: nat): (r: real)
  {
    Round2(bytes as real / 1048576.0)
  }

  /** The rounded size is a whole number of hundredths within half a
    * hundredth of the exact size. */
  lemma FileSizeMbFacts(bytes: nat)
    ensures var x := bytes as real / 1048576.0;
            var r := FileSizeMb(bytes);
            (r * 100.0).Floor as real == r * 100.0 &&
            x - 0.005 < r <= x + 0.005
  {
    var x := bytes as real / 1048576.0;
    var k := (x * 100.0 + 0.5).Floor;
    assert FileSizeMb(bytes) == k as real / 100.0;
    assert k as real <= x * 100.0 + 0.5 < k as real + 1.0;
  }
}
