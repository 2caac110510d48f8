/** Username derivation (`genrateUniqueUsername`): the e-mail's local part
    and the company name, each with every non-word character removed,
    joined by "_", trimmed and lower-cased. Identifier generation
    (`generateShortId`) is not modelled here: callers receive fresh ids as
    parameters. */
module Short {
  import opened Text

  /** The characters `\w` matches: ASCII letters, digits and "_". */
  predicate IsWordChar(c: char) {
    ('a' <= c <= 'z') || ('A' <= c <= 'Z') || ('0' <= c <= '9') || c == '_'
  }

  /** The characters a derived username is made of. */
  predicate IsUsernameChar(c: char) {
    ('a' <= c <= 'z') || ('0' <= c <= '9') || c == '_'
  }

  predicate UsernameChars(s: string) {
    forall i :: 0 <= i < |s| ==> IsUsernameChar(s[i])
  }

  /** `s.replace(/\W/g, "")`. */
  function StripNonWord(s: string): (r: string)
    ensures |r| <= |s|
    ensures forall i :: 0 <= i < |r| ==> IsWordChar(r[i])
  {
    if s == [] then []
    else if IsWordChar(s[0]) then [s[0]] + StripNonWord(s[1..])
    else StripNonWord(s[1..])
  }

  /** `email.split("@")[0]`. */
  function LocalPart(email: string): string {
    BeforeFirst(email, '@')
  }

  /** `genrateUniqueUsername(email, companyName)`; what it derives is
      stated by `UsernameShape`, `UsernameAlphabet` and
      `NormalizedUsername` below. */
  function GenerateUsername(email: string, companyName: string): string {
    var username := StripNonWord(LocalPart(email)) + "_" + StripNonWord(companyName);
    Lower(Trim(username))
  }

  /** The number of occurrences of `c` in `s`. */
  function Occurrences(s: string, c: char): nat {
    if s == [] then 0 else (if s[0] == c then 1 else 0) + Occurrences(s[1..], c)
  }

  /** Stripping is a filter: it distributes over concatenation, ... */
  lemma {:induction false} StripAppend(a: string, b: string)
    ensures StripNonWord(a + b) == StripNonWord(a) + StripNonWord(b)
  {
    if a != [] {
      assert (a + b)[0] == a[0];
      assert (a + b)[1..] == a[1..] + b;
      StripAppend(a[1..], b);
      if IsWordChar(a[0]) {
        calc {
          StripNonWord(a + b);
          [a[0]] + StripNonWord(a[1..] + b);
          [a[0]] + (StripNonWord(a[1..]) + StripNonWord(b));
          ([a[0]] + StripNonWord(a[1..])) + StripNonWord(b);
        }
      }
    } else {
      assert a + b == b;
    }
  }

  /** ... leaves a string of word characters as it is, ... */
  lemma {:induction false} StripWordString(s: string)
    requires forall i :: 0 <= i < |s| ==> IsWordChar(s[i])
    ensures StripNonWord(s) == s
  {
    if s != [] {
      StripWordString(s[1..]);
      assert s == [s[0]] + s[1..];
    }
  }

  /** ... keeps every occurrence of a word character, "_" included, and drops
      every other character. */
  lemma {:induction false} StripKeepsWordChars(s: string, c: char)
    ensures IsWordChar(c) ==> Occurrences(StripNonWord(s), c) == Occurrences(s, c)
    ensures !IsWordChar(c) ==> Occurrences(StripNonWord(s), c) == 0
  {
    if s != [] {
      StripKeepsWordChars(s[1..], c);
      if IsWordChar(s[0]) {
        assert ([s[0]] + StripNonWord(s[1..]))[1..] == StripNonWord(s[1..]);
      }
    }
  }

  /** Stripping a stripped string changes nothing. */
  lemma {:induction false} StripIdempotent(s: string)
    ensures StripNonWord(StripNonWord(s)) == StripNonWord(s)
  {
    if s != [] {
      StripIdempotent(s[1..]);
      if IsWordChar(s[0]) {
        assert ([s[0]] + StripNonWord(s[1..]))[1..] == StripNonWord(s[1..]);
      }
    }
  }

  lemma LowerAppend(a: string, b: string)
    ensures Lower(a + b) == Lower(a) + Lower(b)
  {
    var l, r := Lower(a + b), Lower(a) + Lower(b);
    assert |l| == |r|;
    forall i | 0 <= i < |l| ensures l[i] == r[i] {
      if i < |a| {
        assert (a + b)[i] == a[i];
      } else {
        assert (a + b)[i] == b[i - |a|];
      }
    }
  }

  lemma WordCharNotSpace(c: char)
    requires IsWordChar(c)
    ensures !IsSpace(c)
  {
  }

  /** A stripped name joined with "_" has no white space to trim. */
  lemma JoinedNoSpace(a: string, b: string)
    requires forall i :: 0 <= i < |a| ==> IsWordChar(a[i])
    requires forall i :: 0 <= i < |b| ==> IsWordChar(b[i])
    ensures forall i :: 0 <= i < |a + "_" + b| ==> IsWordChar((a + "_" + b)[i])
    ensures Trim(a + "_" + b) == a + "_" + b
  {
    var u := a + "_" + b;
    forall i | 0 <= i < |u| ensures IsWordChar(u[i]) {
      if i < |a| {
        assert u[i] == a[i];
      } else if i > |a| {
        assert u[i] == b[i - |a| - 1];
      }
    }
    forall i | 0 <= i < |u| ensures !IsSpace(u[i]) {
      WordCharNotSpace(u[i]);
    }
    assert NoSpace(u);
  }

  /** The derived username is the lower-cased stripped local part, "_", and
      the lower-cased stripped company name; the final `trim()` never changes
      it, because white space has already been stripped. */
  lemma UsernameShape(email: string, companyName: string)
    ensures GenerateUsername(email, companyName)
         == Lower(StripNonWord(LocalPart(email))) + "_" + Lower(StripNonWord(companyName))
    ensures |GenerateUsername(email, companyName)|
         == |StripNonWord(LocalPart(email))| + 1 + |StripNonWord(companyName)|
  {
    var a := StripNonWord(LocalPart(email));
    var b := StripNonWord(companyName);
    var raw := a + "_" + b;
    assert GenerateUsername(email, companyName) == Lower(Trim(raw));
    JoinedNoSpace(a, b);
    assert Trim(raw) == raw;
    LowerAppend(a + "_", b);
    LowerAppend(a, "_");
    LowerUnderscore();
  }

  lemma LowerUnderscore()
    ensures Lower("_") == "_"
  {
    var l := Lower("_");
    assert |l| == 1 && l[0] == LowerChar('_');
  }

  /** Every character of a derived username is a lower-case letter, a digit
      or "_", and the separator is always there: empty inputs give "_". */
  lemma UsernameAlphabet(email: string, companyName: string)
    ensures UsernameChars(GenerateUsername(email, companyName))
    ensures GenerateUsername(email, companyName)[|StripNonWord(LocalPart(email))|] == '_'
    ensures GenerateUsername("", "") == "_"
  {
    var a := StripNonWord(LocalPart(email));
    var b := StripNonWord(companyName);
    var raw := a + "_" + b;
    var u := GenerateUsername(email, companyName);
    assert u == Lower(Trim(raw));
    JoinedNoSpace(a, b);
    assert u == Lower(raw);
    forall i | 0 <= i < |u| ensures IsUsernameChar(u[i]) {
      assert u[i] == LowerChar(raw[i]);
      LowerWordChar(raw[i]);
    }
    assert raw[|a|] == '_';
    assert u[|a|] == LowerChar('_');
    EmptyUsername();
  }

  lemma LowerWordChar(c: char)
    requires IsWordChar(c)
    ensures IsUsernameChar(LowerChar(c))
  {
  }

  lemma EmptyUsername()
    ensures GenerateUsername("", "") == "_"
  {
    assert LocalPart("") == "";
    assert StripNonWord("") == "";
    assert "" + "_" + "" == "_";
    JoinedNoSpace("", "");
    LowerUnderscore();
  }

  /** A derived username is already in normal form: `trim()` and
      `toLocaleLowerCase()` leave it unchanged, so storing it normalised
      (as the profile update does) stores it as derived. */
  lemma NormalizedUsername(email: string, companyName: string)
    ensures Normalize(GenerateUsername(email, companyName)) == GenerateUsername(email, companyName)
  {
    UsernameAlphabet(email, companyName);
    NormalFormChars(GenerateUsername(email, companyName));
  }

  /** A string of username characters is in normal form. */
  lemma NormalFormChars(u: string)
    requires UsernameChars(u)
    ensures Normalize(u) == u
  {
    UsernameNoSpace(u);
    assert Trim(u) == u;
    LowerKeeps(u);
  }

  lemma UsernameNoSpace(u: string)
    requires UsernameChars(u)
    ensures NoSpace(u)
  {
    forall i | 0 <= i < |u| ensures !IsSpace(u[i]) {
      assert IsUsernameChar(u[i]);
    }
  }

  lemma LowerKeeps(u: string)
    requires UsernameChars(u)
    ensures Lower(u) == u
  {
    var l := Lower(u);
    forall i | 0 <= i < |u| ensures l[i] == u[i] {
      assert IsUsernameChar(u[i]);
      assert l[i] == LowerChar(u[i]);
    }
  }
}
