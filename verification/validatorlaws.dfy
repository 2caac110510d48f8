/** How the rule lists of different routes compare: the contact-person
    phone rules are stricter than the profile-update phone rule, the admin
    registration asks for no special character, and the supplier product
    limit is 100 characters whatever its message says. */
module ValidatorLaws {
  import opened Values
  import opened Text
  import opened Http
  import opened Checks
  import opened Validators

  /** A phone number the importer and supplier rules accept is accepted by
      the profile-update rule too. */
  lemma {:induction false} ContactPhoneStricter(isEmail: string -> bool, c: ContactFields)
    requires ValidContact(isEmail, c)
    ensures PhoneRule(c.phoneNumber).passes
  {
    var phone := OrEmpty(c.phoneNumber);
    AcceptedChars(Start, phone);
    assert CharLength(phone) == |phone|;
    NumericIsJsNumber(phone);
  }

  lemma NonDecimalIsJsNumber(t: string)
    requires NoSpace(t) && NonDecimal(t)
    ensures JsNumber(t)
  {
    assert Trim(t) == t;
  }

  lemma HexExampleShape()
    ensures NoSpace("0x12345678") && NonDecimal("0x12345678")
  {
    var p := "0x12345678";
    forall i | 0 <= i < |p| ensures !IsSpace(p[i]) {
      assert p[i] == '0' || p[i] == 'x' || '1' <= p[i] <= '8';
    }
    assert p[1] in "xX";
    forall i | 2 <= i < |p| ensures IsHexDigit(p[i]) {
      assert '1' <= p[i] <= '8';
    }
  }

  /** The converse fails: a hexadecimal literal of ten characters is a
      number to JavaScript, so a profile update accepts it, while the
      contact rules refuse it as not numeric. */
  lemma {:induction false} HexPhoneOnlyInProfile()
    ensures PhoneRule(Some("0x12345678")).passes
    ensures !IsNumeric("0x12345678")
  {
    var p := "0x12345678";
    HexExampleShape();
    NonDecimalIsJsNumber(p);
    assert |p| == 10;
    assert Run(Start, p) == Run(Whole, p[1..]);
    assert Run(Whole, p[1..]) == Run(Dead, p[2..]);
    RunDead(p[2..]);
  }

  /** Past the e-mail check, a password meeting every rule but the special
      character is refused by the forwarder, BCO and CHB registration with
      that rule's message. */
  lemma {:induction false} RegistrationWantsSpecial(isEmail: string -> bool, b: Registration)
    requires isEmail(OrEmpty(b.email)) && StrongPassword(OrEmpty(b.password), false)
    requires !Has(OrEmpty(b.password), IsSpecial)
    ensures Validate(RegistrationChecks(isEmail, b)) == Some(Msg(400, false, NoSpecial))
  {
    var cs := RegistrationChecks(isEmail, b);
    var pw := PasswordChecks(b.password, true);
    var names := [NotEmpty(b.fullName, FullNameRequired), NotEmpty(b.companyName, CompanyNameRequired)];
    assert cs == [Email(isEmail, b.email, InvalidEmail)] + pw + names;
    assert forall j :: 1 <= j < 6 ==> cs[j] == pw[j - 1];
    assert forall j :: 0 <= j < 5 ==> cs[j].passes;
    assert !cs[5].passes && cs[5].message == NoSpecial;
  }

  lemma ExampleLength()
    ensures CharLength("Abcdefg1") == 8
  {
    var p := "Abcdefg1";
    forall i | 0 <= i < |p| ensures p[i] != '\U{FE0E}' && p[i] != '\U{FE0F}' {
      assert p[i] <= 'z';
    }
  }

  lemma ExampleStrong()
    ensures StrongPassword("Abcdefg1", false)
  {
    var p := "Abcdefg1";
    ExampleLength();
    assert IsLowerLetter(p[1]) && IsUpperLetter(p[0]) && IsDigit(p[7]);
  }

  lemma ExampleNoSpecial()
    ensures !Has("Abcdefg1", IsSpecial)
  {
    var p := "Abcdefg1";
    forall i | 0 <= i < |p| ensures !IsSpecial(p[i]) {
      assert 'A' <= p[i] <= 'Z' || 'a' <= p[i] <= 'z' || '0' <= p[i] <= '9';
    }
  }

  /** "Abcdefg1" registers an admin, and the other roles' registration
      refuses it for the missing special character. */
  lemma {:induction false} AdminPasswordWithoutSpecial(isEmail: string -> bool, email: string, fullName: string,
                                                       username: string, companyName: string)
    requires isEmail(email) && email != "" && fullName != "" && username != "" && companyName != ""
    ensures var p := Some("Abcdefg1");
            Validate(AdminRegistrationChecks(isEmail, AdminRegistration(Some(email), p, Some(fullName), Some(username)))).None?
            && Validate(RegistrationChecks(isEmail, Registration(Some(email), p, Some(fullName), Some(companyName))))
               == Some(Msg(400, false, NoSpecial))
  {
    var p := "Abcdefg1";
    ExampleStrong();
    ExampleNoSpecial();
    RegistrationWantsSpecial(isEmail, Registration(Some(email), Some(p), Some(fullName), Some(companyName)));
  }

  /** With the rules before it passing, the supplier product message is the
      answer exactly when the product is longer than 100 characters. */
  lemma {:induction false} ProductLimitMessage(isEmail: string -> bool, c: ContactFields, co: SupplierCompany)
    requires ValidContact(isEmail, c) && Bounded(co.companyName, 25) && OrEmpty(co.product) != ""
    ensures Validate(SupplierChecks(isEmail, c, co)) == Some(Msg(400, false, ProductTooLong))
            <==> CharLength(OrEmpty(co.product)) > 100
  {
    var cs := SupplierChecks(isEmail, c, co);
    assert forall j :: 0 <= j < 9 ==> cs[..9][j] == cs[j];
    assert forall j :: 0 <= j < 9 ==> cs[j].passes;
    if CharLength(OrEmpty(co.product)) > 100 {
      assert !cs[9].passes;
    } else {
      assert forall j :: 0 <= j < 10 ==> cs[j].passes;
    }
  }
}
