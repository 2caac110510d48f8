/** The express-validator rule lists of the five validation files, each as
    a sequence of checks in declaration order, and what passing them
    means. The forwarder, BCO and CHB files declare the same registration,
    login and profile-update lists; the forwarder's importer rules and the
    CHB's importer rules are the same list under different field names.
    `isEmail` (validator.js's e-mail grammar) is a parameter. */
module Validators {
  import opened Values
  import opened Text
  import opened Http
  import opened Checks

  /** A validator reads an absent field as "". */
  function NotEmpty(v: Option<string>, message: string): Check {
    Check(OrEmpty(v) != "", message)
  }

  function MaxLength(v: Option<string>, max: nat, message: string): Check {
    Check(CharLength(OrEmpty(v)) <= max, message)
  }

  function LengthBetween(v: Option<string>, min: nat, max: nat, message: string): Check {
    Check(min <= CharLength(OrEmpty(v)) <= max, message)
  }

  function Numeric(v: Option<string>, message: string): Check {
    Check(IsNumeric(OrEmpty(v)), message)
  }

  function Email(isEmail: string -> bool, v: Option<string>, message: string): Check {
    Check(isEmail(OrEmpty(v)), message)
  }

  function Matches(v: Option<string>, cls: char -> bool, message: string): Check {
    Check(Search(OrEmpty(v), cls), message)
  }

  /** `.optional()` before a one-rule chain: an absent field skips it. */
  function Optional(v: Option<string>, c: Check): (cs: seq<Check>)
    ensures AllPass(cs) <==> v.None? || c.passes
    ensures v.Some? ==> cs == [c]
  {
    if v.None? then [] else assert [c][0] == c; [c]
  }

  /** A required field of at most `max` characters. */
  predicate Bounded(v: Option<string>, max: nat) {
    OrEmpty(v) != "" && CharLength(OrEmpty(v)) <= max
  }

  /** `notEmpty()` then `isLength({ max })`, each with its own message. */
  function Required(v: Option<string>, max: nat, missing: string, tooLong: string): (cs: seq<Check>)
    ensures cs == [NotEmpty(v, missing), MaxLength(v, max, tooLong)]
    ensures AllPass(cs) <==> Bounded(v, max)
  {
    var cs := [NotEmpty(v, missing), MaxLength(v, max, tooLong)];
    assert cs[0] == NotEmpty(v, missing) && cs[1] == MaxLength(v, max, tooLong);
    cs
  }

  const InvalidEmail := "Invalid email format"
  const TooShort := "Password should be at least 8 characters long"
  const NoLower := "Password should contain at least one lowercase letter"
  const NoUpper := "Password should contain at least one uppercase letter"
  const NoDigit := "Password should contain at least one digit"
  const NoSpecial := "Password should contain at least one special character"
  const FullNameRequired := "Full name is required"
  const CompanyNameRequired := "Company name is required"
  const NotNumeric := "Phone number must be numeric"
  const PhoneLength := "Phone number must be between 10 and 15 digits"

  /** Some character of `p` is in the class `cls`. */
  predicate Has(p: string, cls: char -> bool) {
    exists i :: 0 <= i < |p| && cls(p[i])
  }

  /** A password a registration accepts: at least eight characters, with a
      lower-case letter, an upper-case letter, a digit and, when `special`
      is asked for, one of `!@#$%^&*(),.?":{}|<>`. */
  predicate StrongPassword(p: string, special: bool) {
    CharLength(p) >= 8 && Has(p, IsLowerLetter) && Has(p, IsUpperLetter) && Has(p, IsDigit)
    && (special ==> Has(p, IsSpecial))
  }

  /** The password chain: every failing rule reports its own message, in
      the order length, lower case, upper case, digit, special. */
  function PasswordChecks(v: Option<string>, special: bool): (cs: seq<Check>)
    ensures |cs| == if special then 5 else 4
    ensures cs[0] == Check(CharLength(OrEmpty(v)) >= 8, TooShort)
    ensures cs[1].message == NoLower && cs[2].message == NoUpper && cs[3].message == NoDigit
    ensures special ==> cs[4].message == NoSpecial
    ensures AllPass(cs) <==> StrongPassword(OrEmpty(v), special)
    ensures (cs[1].passes <==> Has(OrEmpty(v), IsLowerLetter)) && (cs[2].passes <==> Has(OrEmpty(v), IsUpperLetter))
            && (cs[3].passes <==> Has(OrEmpty(v), IsDigit))
    ensures special ==> (cs[4].passes <==> Has(OrEmpty(v), IsSpecial))
  {
    var p := OrEmpty(v);
    var base := [Check(CharLength(p) >= 8, TooShort), Matches(v, IsLowerLetter, NoLower),
                 Matches(v, IsUpperLetter, NoUpper), Matches(v, IsDigit, NoDigit)];
    assert base[0].passes <==> CharLength(p) >= 8;
    assert base[1].passes <==> Has(p, IsLowerLetter);
    assert base[2].passes <==> Has(p, IsUpperLetter);
    assert base[3].passes <==> Has(p, IsDigit);
    assert AllPass(base) <==> StrongPassword(p, false);
    if special then
      var more := [Matches(v, IsSpecial, NoSpecial)];
      assert more[0].passes <==> Has(p, IsSpecial);
      AllPassAppend(base, more);
      var cs := base + more;
      assert cs[4] == more[0];
      assert forall i :: 0 <= i < 4 ==> cs[i] == base[i];
      cs
    else
      base
  }

  /** The body of a forwarder, BCO or CHB registration. */
  datatype Registration = Registration(email: Option<string>, password: Option<string>,
                                       fullName: Option<string>, companyName: Option<string>)

  /** `registrationValidation` of the forwarder, BCO and CHB routes. */
  function RegistrationChecks(isEmail: string -> bool, b: Registration): (cs: seq<Check>)
    ensures Validate(cs).None? <==>
              isEmail(OrEmpty(b.email)) && StrongPassword(OrEmpty(b.password), true)
              && OrEmpty(b.fullName) != "" && OrEmpty(b.companyName) != ""
    ensures !isEmail(OrEmpty(b.email)) ==> Validate(cs) == Some(Msg(400, false, InvalidEmail))
    ensures isEmail(OrEmpty(b.email)) && CharLength(OrEmpty(b.password)) < 8 ==>
              Validate(cs) == Some(Msg(400, false, TooShort))
    ensures isEmail(OrEmpty(b.email)) && StrongPassword(OrEmpty(b.password), true) && OrEmpty(b.fullName) == "" ==>
              Validate(cs) == Some(Msg(400, false, FullNameRequired))
  {
    var e := Email(isEmail, b.email, InvalidEmail);
    var pw := PasswordChecks(b.password, true);
    var names := [NotEmpty(b.fullName, FullNameRequired), NotEmpty(b.companyName, CompanyNameRequired)];
    assert names[0] == NotEmpty(b.fullName, FullNameRequired) && names[1] == NotEmpty(b.companyName, CompanyNameRequired);
    var front := [e] + pw;
    assert [e][0] == e;
    AllPassAppend([e], pw);
    AllPassAppend(front, names);
    var cs := front + names;
    assert cs[0] == e && cs[1] == pw[0];
    assert forall j :: 0 <= j < 6 ==> cs[j] == front[j];
    assert cs[6] == names[0];
    cs
  }

  /** The body of an admin registration. */
  datatype AdminRegistration = AdminRegistration(email: Option<string>, password: Option<string>,
                                                 fullName: Option<string>, username: Option<string>)

  const UsernameRequired := "Username name is required"

  /** The admin `registrationValidation`: no special character is asked
      for, and a username is required instead of a company name. */
  function AdminRegistrationChecks(isEmail: string -> bool, b: AdminRegistration): (cs: seq<Check>)
    ensures Validate(cs).None? <==>
              isEmail(OrEmpty(b.email)) && StrongPassword(OrEmpty(b.password), false)
              && OrEmpty(b.fullName) != "" && OrEmpty(b.username) != ""
    ensures !isEmail(OrEmpty(b.email)) ==> Validate(cs) == Some(Msg(400, false, InvalidEmail))
    ensures isEmail(OrEmpty(b.email)) && StrongPassword(OrEmpty(b.password), false) && OrEmpty(b.fullName) != ""
            && OrEmpty(b.username) == "" ==>
              Validate(cs) == Some(Msg(400, false, UsernameRequired))
  {
    var pw := PasswordChecks(b.password, false);
    var names := [NotEmpty(b.fullName, FullNameRequired), NotEmpty(b.username, UsernameRequired)];
    var cs := [Email(isEmail, b.email, InvalidEmail)] + pw + names;
    assert forall i :: 1 <= i < 5 ==> cs[i] == pw[i - 1];
    assert cs[0] == Email(isEmail, b.email, InvalidEmail) && cs[5] == names[0] && cs[6] == names[1];
    AllPassAppend([Email(isEmail, b.email, InvalidEmail)] + pw, names);
    AllPassAppend([Email(isEmail, b.email, InvalidEmail)], pw);
    assert [Email(isEmail, b.email, InvalidEmail)][0] == Email(isEmail, b.email, InvalidEmail);
    assert names[0] == NotEmpty(b.fullName, FullNameRequired) && names[1] == NotEmpty(b.username, UsernameRequired);
    cs
  }

  /** `loginValidation` of every role: the e-mail format only; the password
      is never looked at. */
  function LoginChecks(isEmail: string -> bool, email: Option<string>): (cs: seq<Check>)
    ensures Validate(cs).None? <==> isEmail(OrEmpty(email))
    ensures Validate(cs).Some? ==> Validate(cs) == Some(Msg(400, false, InvalidEmail))
  {
    var cs := [Email(isEmail, email, InvalidEmail)];
    assert cs[0] == Email(isEmail, email, InvalidEmail);
    cs
  }

  /** `activationValidation` (forwarder and CHB): a token, and a code of
      the shape `^[+-]?([0-9]*[.])?[0-9]+$`. */
  function ActivationChecks(token: Option<string>, code: Option<string>): (cs: seq<Check>)
    ensures Validate(cs).None? <==> OrEmpty(token) != "" && NumericShape(OrEmpty(code))
    ensures OrEmpty(token) == "" ==> Validate(cs) == Some(Msg(400, false, "Activation token is required"))
  {
    IsNumericShape(OrEmpty(code));
    var cs := [NotEmpty(token, "Activation token is required"), Numeric(code, "Activation code should be numeric")];
    assert cs[0] == NotEmpty(token, "Activation token is required");
    assert cs[1] == Numeric(code, "Activation code should be numeric");
    cs
  }

  /** `resendValidation` (forwarder and CHB). */
  function ResendChecks(token: Option<string>): (cs: seq<Check>)
    ensures Validate(cs).None? <==> OrEmpty(token) != ""
  {
    var cs := [NotEmpty(token, "Activation token is required")];
    assert cs[0] == NotEmpty(token, "Activation token is required");
    cs
  }

  /** The custom phone rule of a profile update: a truthy value must be a
      number to JavaScript and 10 to 15 characters long; "" passes. One
      rule, so at most one of its two messages. */
  function PhoneRule(v: Option<string>): (c: Check)
    ensures c.passes <==> !Truthy(v) || (JsNumber(v.value) && 10 <= |v.value| <= 15)
    ensures !c.passes ==> (c.message == NotNumeric <==> !JsNumber(v.value))
  {
    if Truthy(v) && !JsNumber(v.value) then Check(false, NotNumeric)
    else Check(!Truthy(v) || 10 <= |v.value| <= 15, PhoneLength)
  }

  /** The fields a profile update validates; the others are optional and
      have no rule. */
  datatype ProfileFields = ProfileFields(fullName: Option<string>, companyName: Option<string>,
                                         phoneNumber: Option<string>)

  /** `updateForwarderInfoValidation`, `updateBCOInfoValidation`,
      `updateChbInfoValidation`: every field may be left out, but a name
      that is sent must not be empty. */
  function ProfileChecks(b: ProfileFields): (cs: seq<Check>)
    ensures Validate(cs).None? <==>
              (b.fullName.None? || b.fullName.value != "")
              && (b.companyName.None? || b.companyName.value != "")
              && (b.phoneNumber.None? || PhoneRule(b.phoneNumber).passes)
    ensures b.fullName.None? && b.companyName.None? && b.phoneNumber.None? ==> cs == []
  {
    var a := Optional(b.fullName, NotEmpty(b.fullName, FullNameRequired));
    var c := Optional(b.companyName, NotEmpty(b.companyName, CompanyNameRequired));
    var p := Optional(b.phoneNumber, PhoneRule(b.phoneNumber));
    AllPassAppend(a + c, p);
    AllPassAppend(a, c);
    a + c + p
  }

  /** `deleteBCOValidator`, `deleteChbValidator`, `deleteImporterValidator`:
      the id field must be sent and not empty. */
  function DeleteChecks(id: Option<string>, message: string): (cs: seq<Check>)
    ensures Validate(cs).None? <==> id.Some? && id.value != ""
    ensures Validate(cs).Some? ==> Validate(cs) == Some(Msg(400, false, message))
  {
    var cs := [NotEmpty(id, message)];
    assert cs[0] == NotEmpty(id, message);
    cs
  }

  /** The contact person of an importer or a supplier. */
  datatype ContactFields = ContactFields(fullName: Option<string>, email: Option<string>, phoneNumber: Option<string>)

  /** A contact person the add and edit rules accept. */
  predicate ValidContact(isEmail: string -> bool, c: ContactFields) {
    var phone := OrEmpty(c.phoneNumber);
    Bounded(c.fullName, 20) && isEmail(OrEmpty(c.email)) && IsNumeric(phone) && 10 <= CharLength(phone) <= 15
  }

  /** The phone rules of a contact person: required, numeric, and 10 to
      15 characters long. */
  function ContactPhoneChecks(v: Option<string>): (cs: seq<Check>)
    ensures |cs| == 3
    ensures AllPass(cs) <==> IsNumeric(OrEmpty(v)) && 10 <= CharLength(OrEmpty(v)) <= 15
  {
    var cs := [NotEmpty(v, "Phone number is required"), Numeric(v, NotNumeric), LengthBetween(v, 10, 15, PhoneLength)];
    assert cs[0] == NotEmpty(v, "Phone number is required");
    assert cs[1] == Numeric(v, NotNumeric);
    assert cs[2] == LengthBetween(v, 10, 15, PhoneLength);
    cs
  }

  /** The contact-person rules: a name of at most 20 characters, an
      e-mail address, and the phone rules. */
  function ContactChecks(isEmail: string -> bool, c: ContactFields): (cs: seq<Check>)
    ensures |cs| == 6
    ensures AllPass(cs) <==> ValidContact(isEmail, c)
  {
    var name := Required(c.fullName, 20, FullNameRequired, "Full name must be at most 20 characters");
    var email := [Email(isEmail, c.email, "Valid email is required")];
    var phone := ContactPhoneChecks(c.phoneNumber);
    assert email[0] == Email(isEmail, c.email, "Valid email is required");
    AllPassAppend(name, email);
    AllPassAppend(name + email, phone);
    name + email + phone
  }

  /** The company of an importer. */
  datatype ImporterCompany = ImporterCompany(companyName: Option<string>, addressLine1: Option<string>,
                                             cityCountry: Option<string>, registeredAddress: Option<string>)

  /** `addImporterValidator`, `editImporterValidator` and
      `addEditImporterValidator`: the contact rules, then the company name
      (25), first address line (100), city and country (50) and registered
      address (100), each required. */
  function ImporterChecks(isEmail: string -> bool, c: ContactFields, co: ImporterCompany): (cs: seq<Check>)
    ensures Validate(cs).None? <==>
              ValidContact(isEmail, c) && Bounded(co.companyName, 25) && Bounded(co.addressLine1, 100)
              && Bounded(co.cityCountry, 50) && Bounded(co.registeredAddress, 100)
  {
    var contact := ContactChecks(isEmail, c);
    var name := Required(co.companyName, 25, CompanyNameRequired, "Company name must be at most 25 characters");
    var line := Required(co.addressLine1, 100, "Address Line 1 is required", "Address Line 1 must be at most 100 characters");
    var city := Required(co.cityCountry, 50, "City/Country is required", "City/Country must be at most 50 characters");
    var reg := Required(co.registeredAddress, 100, "Registered address is required",
                        "Registered address must be at most 100 characters");
    AllPassAppend(contact, name);
    AllPassAppend(contact + name, line);
    AllPassAppend(contact + name + line, city);
    AllPassAppend(contact + name + line + city, reg);
    contact + name + line + city + reg
  }

  /** The company of a supplier. */
  datatype SupplierCompany = SupplierCompany(companyName: Option<string>, product: Option<string>,
                                             port: Option<string>, registeredAddress: Option<string>)

  const ProductTooLong := "Product must be at most 30 characters"

  /** The company part of `addEditSupplierValidator`: company name (25),
      product (100, although its message says 30), port (50, with the
      city-and-country message) and registered address (100), each
      required. */
  function SupplierCompanyChecks(co: SupplierCompany): (cs: seq<Check>)
    ensures |cs| == 8
    ensures AllPass(cs) <==> Bounded(co.companyName, 25) && Bounded(co.product, 100)
                             && Bounded(co.port, 50) && Bounded(co.registeredAddress, 100)
    ensures AllPass(cs[..3]) <==> Bounded(co.companyName, 25) && OrEmpty(co.product) != ""
    ensures cs[3] == Check(CharLength(OrEmpty(co.product)) <= 100, ProductTooLong)
    ensures forall i :: 4 <= i < 8 ==> cs[i].message != ProductTooLong
  {
    var name := Required(co.companyName, 25, CompanyNameRequired, "Company name must be at most 25 characters");
    var product := Required(co.product, 100, "Product is required", ProductTooLong);
    var port := Required(co.port, 50, "Port is required", "City/Country must be at most 50 characters");
    var reg := Required(co.registeredAddress, 100, "Registered address is required",
                        "Registered address must be at most 100 characters");
    AllPassAppend(name, product);
    AllPassAppend(name + product, port);
    AllPassAppend(name + product + port, reg);
    var cs := name + product + port + reg;
    assert cs[..3] == name + [product[0]];
    AllPassAppend(name, [product[0]]);
    assert [product[0]][0] == product[0];
    assert cs[3] == product[1];
    assert cs[4] == port[0] && cs[5] == port[1] && cs[6] == reg[0] && cs[7] == reg[1];
    assert |ProductTooLong| == 37;
    cs
  }

  /** `addEditSupplierValidator`: the contact rules, then the company's. */
  function SupplierChecks(isEmail: string -> bool, c: ContactFields, co: SupplierCompany): (cs: seq<Check>)
    ensures |cs| == 14
    ensures AllPass(cs[..9]) <==> ValidContact(isEmail, c) && Bounded(co.companyName, 25) && OrEmpty(co.product) != ""
    ensures cs[9] == Check(CharLength(OrEmpty(co.product)) <= 100, ProductTooLong)
    ensures forall i :: 10 <= i < 14 ==> cs[i].message != ProductTooLong
    ensures Validate(cs).None? <==>
              ValidContact(isEmail, c) && Bounded(co.companyName, 25) && Bounded(co.product, 100)
              && Bounded(co.port, 50) && Bounded(co.registeredAddress, 100)
  {
    var contact := ContactChecks(isEmail, c);
    var company := SupplierCompanyChecks(co);
    AllPassAppend(contact, company);
    var cs := contact + company;
    assert cs[..9] == contact + company[..3];
    AllPassAppend(contact, company[..3]);
    assert cs[9] == company[3];
    assert forall i :: 10 <= i < 14 ==> cs[i] == company[i - 6];
    cs
  }

  /** `inviteImporterValidator`: an e-mail address and a company name only. */
  function InviteChecks(isEmail: string -> bool, email: Option<string>, companyName: Option<string>): (cs: seq<Check>)
    ensures Validate(cs).None? <==> isEmail(OrEmpty(email)) && OrEmpty(companyName) != ""
    ensures !isEmail(OrEmpty(email)) ==> Validate(cs) == Some(Msg(400, false, "Valid email is required"))
  {
    var cs := [Email(isEmail, email, "Valid email is required"), NotEmpty(companyName, CompanyNameRequired)];
    assert cs[0] == Email(isEmail, email, "Valid email is required");
    assert cs[1] == NotEmpty(companyName, CompanyNameRequired);
    cs
  }
}
