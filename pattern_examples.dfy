/** Concrete inputs for each pattern: the formats the comment above
    phoneRegex in src/utils/validation.js names, and a few more. */
module PatternExamples {
  import opened Text
  import opened Regex
  import opened Validation

  lemma EmailOf(local: string, domain: string, tld: string)
    requires |local| >= 1 && AllIn(LocalChar, local)
    requires |domain| >= 1 && AllIn(DomainChar, domain)
    requires 2 <= |tld| <= 6 && AllIn(Letter, tld)
    ensures EmailRegexTest(local + "@" + domain + "." + tld)
  {
    EmailPatternIsShape(local + "@" + domain + "." + tld);
  }

  /** An email needs at least six characters: one, the @, one, the dot, two. */
  lemma ShortIsNotEmail(s: string)
    requires |s| < 6
    ensures !EmailRegexTest(s)
  {
    EmailPatternIsShape(s);
  }

  lemma EmailExamples()
    ensures EmailRegexTest("a@b.com")
    ensures EmailRegexTest("a.b-c_d@sub.domain.co")
    ensures !EmailRegexTest("a@b")
  {
    assert AllIn(Letter, "com") by {
      assert "com"[0] == 'c' && "com"[1] == 'o' && "com"[2] == 'm';
    }
    EmailOf("a", "b", "com");
    assert "a" + "@" + "b" + "." + "com" == "a@b.com";
    var local, domain := "a.b-c_d", "sub.domain";
    assert AllIn(LocalChar, local) by {
      assert local[0] == 'a' && local[1] == '.' && local[2] == 'b' && local[3] == '-';
      assert local[4] == 'c' && local[5] == '_' && local[6] == 'd';
    }
    assert AllIn(DomainChar, domain) by {
      assert domain[0] == 's' && domain[1] == 'u' && domain[2] == 'b' && domain[3] == '.';
      assert domain[4] == 'd' && domain[5] == 'o' && domain[6] == 'm' && domain[7] == 'a';
      assert domain[8] == 'i' && domain[9] == 'n';
    }
    assert AllIn(Letter, "co") by {
      assert "co"[0] == 'c' && "co"[1] == 'o';
    }
    EmailOf(local, domain, "co");
    assert local + "@" + domain + "." + "co" == "a.b-c_d@sub.domain.co";
    ShortIsNotEmail("a@b");
  }

  lemma PhoneOf(p0: string, g1: string, p1: string, g2: string, p2: string, g3: string, p3: string)
    requires PhoneSplit(p0 + g1 + p1 + g2 + p2 + g3 + p3, p0, g1, p1, g2, p2, g3, p3)
    ensures PhoneRegexTest(p0 + g1 + p1 + g2 + p2 + g3 + p3)
  {
    PhonePatternIsShape(p0 + g1 + p1 + g2 + p2 + g3 + p3);
  }

  /** A phone number holds ten digits, so it is at least ten characters long. */
  lemma ShortIsNotPhone(s: string)
    requires |s| < 10
    ensures !PhoneRegexTest(s)
  {
    PhonePatternIsShape(s);
  }

  lemma PhoneExamples()
    ensures PhoneRegexTest("1234567890")
    ensures PhoneRegexTest("123-456-7890")
    ensures PhoneRegexTest("(123) 456-7890")
    ensures !PhoneRegexTest("12345")
  {
    var g1, g2, g3 := "123", "456", "7890";
    assert AllIn(Digit, g1) by { assert g1[0] == '1' && g1[1] == '2' && g1[2] == '3'; }
    assert AllIn(Digit, g2) by { assert g2[0] == '4' && g2[1] == '5' && g2[2] == '6'; }
    assert AllIn(Digit, g3) by {
      assert g3[0] == '7' && g3[1] == '8' && g3[2] == '9' && g3[3] == '0';
    }
    assert AllIn(PhoneSeparator, "-") by { assert "-"[0] == '-'; }
    assert AllIn(PhoneSeparator, "(") by { assert "("[0] == '('; }
    assert AllIn(PhoneSeparator, ") ") by { assert ") "[0] == ')' && ") "[1] == ' '; }
    PhoneOf("", g1, "", g2, "", g3, "");
    assert "" + g1 + "" + g2 + "" + g3 + "" == "1234567890";
    PhoneOf("", g1, "-", g2, "-", g3, "");
    assert "" + g1 + "-" + g2 + "-" + g3 + "" == "123-456-7890";
    PhoneOf("(", g1, ") ", g2, "-", g3, "");
    assert "(" + g1 + ") " + g2 + "-" + g3 + "" == "(123) 456-7890";
    ShortIsNotPhone("12345");
  }

  lemma NameExamples()
    ensures NameRegexTest("O'Brien")
    ensures NameRegexTest("Mary-Jane")
    ensures !NameRegexTest("A")
    ensures !NameRegexTest("12")
  {
    ApostropheName();
    NamePatternIsShape("Mary-Jane");
    var m := "Mary-Jane";
    assert m[0] == 'M' && m[1] == 'a' && m[2] == 'r' && m[3] == 'y' && m[4] == '-';
    assert m[5] == 'J' && m[6] == 'a' && m[7] == 'n' && m[8] == 'e';
    NamePatternIsShape("A");
    NamePatternIsShape("12");
    assert !InClass(NameChar, "12"[0]);
  }

  lemma ApostropheName()
    ensures NameRegexTest("O'Brien")
  {
    NamePatternIsShape("O'Brien");
    var o := "O'Brien";
    assert o[0] == 'O' && o[1] == '\'' && o[2] == 'B' && o[3] == 'r';
    assert o[4] == 'i' && o[5] == 'e' && o[6] == 'n';
  }
}
