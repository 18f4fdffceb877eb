/** src/utils/validation.js: the three patterns, the per-field check
    `validateField` and the whole-form check `validateForm`. */
module Validation {
  import opened Text
  import opened Regex

  datatype Option<T> = None | Some(value: T)

  // ---------------------------------------------------------------------
  // The patterns, transcribed piece by piece from the regular expressions.

  /** /^[a-zA-Z0-9._-]+@[a-zA-Z0-9.-]+\.[a-zA-Z]{2,6}$/ */
  const EmailPattern: Pattern := [
    Piece(LocalChar, 1, Unbounded),
    Piece(Exactly('@'), 1, AtMost(1)),
    Piece(DomainChar, 1, Unbounded),
    Piece(Exactly('.'), 1, AtMost(1)),
    Piece(Letter, 2, AtMost(6))
  ]

  /** /^[\s().-]*([0-9]{3})[\s().-]*([0-9]{3})[\s().-]*([0-9]{4})[\s().-]*$/
      (the capture groups do not change what matches). */
  const PhonePattern: Pattern := [
    Piece(PhoneSeparator, 0, Unbounded),
    Piece(Digit, 3, AtMost(3)),
    Piece(PhoneSeparator, 0, Unbounded),
    Piece(Digit, 3, AtMost(3)),
    Piece(PhoneSeparator, 0, Unbounded),
    Piece(Digit, 4, AtMost(4)),
    Piece(PhoneSeparator, 0, Unbounded)
  ]

  /** /^[a-zA-Z\s'-]{2,50}$/ */
  const NamePattern: Pattern := [Piece(NameChar, 2, AtMost(50))]

  // ---------------------------------------------------------------------
  // What each pattern accepts, stated without the regular-expression engine.

  /** A non-empty local part of [a-zA-Z0-9._-], an @, a non-empty domain of
      [a-zA-Z0-9.-], a dot, and a top-level domain of 2 to 6 ASCII letters. */
  ghost predicate EmailShape(s: string) {
    exists local, domain, tld ::
      s == local + "@" + domain + "." + tld
      && |local| >= 1 && AllIn(LocalChar, local)
      && |domain| >= 1 && AllIn(DomainChar, domain)
      && 2 <= |tld| <= 6 && AllIn(Letter, tld)
  }

  /** Separators from whitespace, ( ) . and - around three digit groups of 3, 3 and 4. */
  ghost predicate PhoneSplit(s: string, p0: string, g1: string, p1: string, g2: string,
                             p2: string, g3: string, p3: string) {
    s == p0 + g1 + p1 + g2 + p2 + g3 + p3
    && AllIn(PhoneSeparator, p0) && AllIn(PhoneSeparator, p1)
    && AllIn(PhoneSeparator, p2) && AllIn(PhoneSeparator, p3)
    && |g1| == 3 && AllIn(Digit, g1)
    && |g2| == 3 && AllIn(Digit, g2)
    && |g3| == 4 && AllIn(Digit, g3)
  }

  ghost predicate PhoneShape(s: string) {
    exists p0, g1, p1, g2, p2, g3, p3 :: PhoneSplit(s, p0, g1, p1, g2, p2, g3, p3)
  }

  /** 2 to 50 characters, each an ASCII letter, whitespace, ' or -. */
  ghost predicate NameShape(s: string) {
    2 <= |s| <= 50 && AllIn(NameChar, s)
  }

  lemma Concat5(a: string, b: string, c: string, d: string, e: string)
    ensures Concat([a, b, c, d, e]) == a + b + c + d + e
  {
    assert [e][1..] == [];
    assert Concat([e]) == e;
    assert [d, e][1..] == [e];
    assert Concat([d, e]) == d + e;
    assert [c, d, e][1..] == [d, e];
    assert Concat([c, d, e]) == c + (d + e);
    assert [b, c, d, e][1..] == [c, d, e];
    assert Concat([b, c, d, e]) == b + (c + (d + e));
    assert [a, b, c, d, e][1..] == [b, c, d, e];
    assert Concat([a, b, c, d, e]) == a + (b + (c + (d + e)));
  }

  lemma Concat7(a: string, b: string, c: string, d: string, e: string, f: string, g: string)
    ensures Concat([a, b, c, d, e, f, g]) == a + b + c + d + e + f + g
  {
    Concat5(c, d, e, f, g);
    assert [b, c, d, e, f, g][1..] == [c, d, e, f, g];
    assert Concat([b, c, d, e, f, g]) == b + Concat([c, d, e, f, g]);
    assert [a, b, c, d, e, f, g][1..] == [b, c, d, e, f, g];
    assert Concat([a, b, c, d, e, f, g]) == a + (b + (c + d + e + f + g));
  }

  /** A run of a single literal character is that character. */
  lemma SingleRun(c: char, x: string)
    requires PieceMatches(Piece(Exactly(c), 1, AtMost(1)), x)
    ensures x == [c]
  {
  }

  lemma EmailFromPartition(s: string, xs: seq<string>)
    requires Partition(EmailPattern, s, xs)
    ensures EmailShape(s)
  {
    assert xs == [xs[0], xs[1], xs[2], xs[3], xs[4]];
    Concat5(xs[0], xs[1], xs[2], xs[3], xs[4]);
    assert PieceMatches(EmailPattern[1], xs[1]) && PieceMatches(EmailPattern[3], xs[3]);
    SingleRun('@', xs[1]);
    SingleRun('.', xs[3]);
    assert PieceMatches(EmailPattern[0], xs[0]) && PieceMatches(EmailPattern[2], xs[2])
      && PieceMatches(EmailPattern[4], xs[4]);
    assert s == xs[0] + "@" + xs[2] + "." + xs[4];
  }

  lemma EmailToPartition(s: string, local: string, domain: string, tld: string)
    requires s == local + "@" + domain + "." + tld
    requires |local| >= 1 && AllIn(LocalChar, local)
    requires |domain| >= 1 && AllIn(DomainChar, domain)
    requires 2 <= |tld| <= 6 && AllIn(Letter, tld)
    ensures Partition(EmailPattern, s, [local, "@", domain, ".", tld])
  {
    var xs := [local, "@", domain, ".", tld];
    Concat5(local, "@", domain, ".", tld);
    assert PieceMatches(EmailPattern[0], xs[0]);
    assert PieceMatches(EmailPattern[1], xs[1]);
    assert PieceMatches(EmailPattern[2], xs[2]);
    assert PieceMatches(EmailPattern[3], xs[3]);
    assert PieceMatches(EmailPattern[4], xs[4]);
  }

  lemma {:induction false} EmailPatternIsShape(s: string)
    ensures Test(EmailPattern, s) <==> EmailShape(s)
  {
    TestIsMatches(EmailPattern, s);
    MatchesIsPartition(EmailPattern, s);
    if exists xs :: Partition(EmailPattern, s, xs) {
      var xs :| Partition(EmailPattern, s, xs);
      EmailFromPartition(s, xs);
    }
    if EmailShape(s) {
      var local, domain, tld :|
        s == local + "@" + domain + "." + tld
        && |local| >= 1 && AllIn(LocalChar, local)
        && |domain| >= 1 && AllIn(DomainChar, domain)
        && 2 <= |tld| <= 6 && AllIn(Letter, tld);
      EmailToPartition(s, local, domain, tld);
    }
  }

  lemma PhoneFromPartition(s: string, xs: seq<string>)
    requires Partition(PhonePattern, s, xs)
    ensures PhoneShape(s)
  {
    assert xs == [xs[0], xs[1], xs[2], xs[3], xs[4], xs[5], xs[6]];
    Concat7(xs[0], xs[1], xs[2], xs[3], xs[4], xs[5], xs[6]);
    assert PieceMatches(PhonePattern[0], xs[0]) && PieceMatches(PhonePattern[1], xs[1])
      && PieceMatches(PhonePattern[2], xs[2]) && PieceMatches(PhonePattern[3], xs[3])
      && PieceMatches(PhonePattern[4], xs[4]) && PieceMatches(PhonePattern[5], xs[5])
      && PieceMatches(PhonePattern[6], xs[6]);
    assert PhoneSplit(s, xs[0], xs[1], xs[2], xs[3], xs[4], xs[5], xs[6]);
  }

  lemma PhoneToPartition(s: string, p0: string, g1: string, p1: string, g2: string,
                         p2: string, g3: string, p3: string)
    requires PhoneSplit(s, p0, g1, p1, g2, p2, g3, p3)
    ensures Partition(PhonePattern, s, [p0, g1, p1, g2, p2, g3, p3])
  {
    var xs := [p0, g1, p1, g2, p2, g3, p3];
    Concat7(p0, g1, p1, g2, p2, g3, p3);
    assert PieceMatches(PhonePattern[0], xs[0]);
    assert PieceMatches(PhonePattern[1], xs[1]);
    assert PieceMatches(PhonePattern[2], xs[2]);
    assert PieceMatches(PhonePattern[3], xs[3]);
    assert PieceMatches(PhonePattern[4], xs[4]);
    assert PieceMatches(PhonePattern[5], xs[5]);
    assert PieceMatches(PhonePattern[6], xs[6]);
  }

  lemma {:induction false} PhonePatternIsShape(s: string)
    ensures Test(PhonePattern, s) <==> PhoneShape(s)
  {
    TestIsMatches(PhonePattern, s);
    MatchesIsPartition(PhonePattern, s);
    if exists xs :: Partition(PhonePattern, s, xs) {
      var xs :| Partition(PhonePattern, s, xs);
      PhoneFromPartition(s, xs);
    }
    if PhoneShape(s) {
      var p0, g1, p1, g2, p2, g3, p3 :| PhoneSplit(s, p0, g1, p1, g2, p2, g3, p3);
      PhoneToPartition(s, p0, g1, p1, g2, p2, g3, p3);
    }
  }

  lemma {:induction false} NamePatternIsShape(s: string)
    ensures Test(NamePattern, s) <==> NameShape(s)
  {
    TestIsMatches(NamePattern, s);
    MatchesIsPartition(NamePattern, s);
    if exists xs :: Partition(NamePattern, s, xs) {
      var xs :| Partition(NamePattern, s, xs);
      assert xs == [xs[0]];
      assert [xs[0]][1..] == [];
      assert PieceMatches(NamePattern[0], xs[0]);
    }
    if NameShape(s) {
      assert [s][1..] == [];
      assert Concat([s]) == s + Concat([]);
      assert PieceMatches(NamePattern[0], [s][0]);
      assert Partition(NamePattern, s, [s]);
    }
  }

  // ---------------------------------------------------------------------
  // emailRegex.test, phoneRegex.test, nameRegex.test

  predicate EmailRegexTest(s: string) { Test(EmailPattern, s) }
  predicate PhoneRegexTest(s: string) { Test(PhonePattern, s) }
  predicate NameRegexTest(s: string) { Test(NamePattern, s) }

  // ---------------------------------------------------------------------
  // validateField

  const EmailError := "Please enter a valid email address"
  const PhoneError := "Please enter a valid phone number"
  const NameError := "Please enter a valid name (2-50 characters, letters only)"
  const MessageLengthError := "Message must be less than 500 characters"
  const MaxMessageLength := 500

  /** The field names the `switch` of validateField recognises, lower-cased. */
  predicate IsKnownLowerName(lower: string) {
    lower == "email" || lower == "phone" || lower == "firstname" || lower == "lastname"
    || lower == "message"
  }

  /** validateField(name, value): None is JavaScript's null. */
  function ValidateField(name: string, value: string): (r: Option<string>)
    // a blank message is accepted; any other blank field is required, under its own spelling
    ensures ToLower(name) == "message" && AllWhitespace(value) ==> r == None
    ensures ToLower(name) != "message" && AllWhitespace(value) ==> r == Some(name + " is required")
    // a non-blank value is checked against the pattern of its field
    ensures !AllWhitespace(value) && ToLower(name) == "email" ==>
              r == if EmailShape(value) then None else Some(EmailError)
    ensures !AllWhitespace(value) && ToLower(name) == "phone" ==>
              r == if PhoneShape(value) then None else Some(PhoneError)
    ensures !AllWhitespace(value) && (ToLower(name) == "firstname" || ToLower(name) == "lastname") ==>
              r == if NameShape(value) then None else Some(NameError)
    ensures !AllWhitespace(value) && ToLower(name) == "message" ==>
              r == if |value| > MaxMessageLength then Some(MessageLengthError) else None
    ensures !AllWhitespace(value) && !IsKnownLowerName(ToLower(name)) ==> r == None
  {
    EmailPatternIsShape(value);
    PhonePatternIsShape(value);
    NamePatternIsShape(value);
    var lower := ToLower(name);
    if lower == "message" && IsBlank(value) then None
    else if IsBlank(value) && lower != "message" then Some(name + " is required")
    else if lower == "email" then
      if !EmailRegexTest(value) then Some(EmailError) else None
    else if lower == "phone" then
      if value != "" && !PhoneRegexTest(value) then Some(PhoneError) else None
    else if lower == "firstname" || lower == "lastname" then
      if !NameRegexTest(value) then Some(NameError) else None
    else if lower == "message" then
      if value != "" && |value| > MaxMessageLength then Some(MessageLengthError) else None
    else None
  }

  // The form's field names, lower-cased as the switch of validateField sees them.

  lemma LowerFirstName() ensures ToLower("firstName") == "firstname" {
    var r := ToLower("firstName");
    assert r[0] == 'f' && r[1] == 'i' && r[2] == 'r' && r[3] == 's' && r[4] == 't';
    assert r[5] == 'n' && r[6] == 'a' && r[7] == 'm' && r[8] == 'e';
    assert r == "firstname";
  }

  lemma LowerLastName() ensures ToLower("lastName") == "lastname" {
    var r := ToLower("lastName");
    assert r[0] == 'l' && r[1] == 'a' && r[2] == 's' && r[3] == 't';
    assert r[4] == 'n' && r[5] == 'a' && r[6] == 'm' && r[7] == 'e';
    assert r == "lastname";
  }

  lemma LowerEmail() ensures ToLower("email") == "email" {
    var r := ToLower("email");
    assert r[0] == 'e' && r[1] == 'm' && r[2] == 'a' && r[3] == 'i' && r[4] == 'l';
    assert r == "email";
  }

  lemma LowerPhone() ensures ToLower("phone") == "phone" {
    var r := ToLower("phone");
    assert r[0] == 'p' && r[1] == 'h' && r[2] == 'o' && r[3] == 'n' && r[4] == 'e';
    assert r == "phone";
  }

  lemma LowerMessage() ensures ToLower("message") == "message" {
    var r := ToLower("message");
    assert r[0] == 'm' && r[1] == 'e' && r[2] == 's' && r[3] == 's';
    assert r[4] == 'a' && r[5] == 'g' && r[6] == 'e';
    assert r == "message";
  }

  // ---------------------------------------------------------------------
  // validateForm

  datatype FormData = FormData(firstName: string, lastName: string, email: string,
                               phone: string, message: string)

  /** One property of the `errors` object, in insertion order. */
  datatype ErrorEntry = ErrorEntry(field: string, message: string)

  datatype ValidationResult = ValidationResult(isValid: bool, errors: seq<ErrorEntry>)

  /** `errors[key]`: the message stored under `key`, if any. */
  function Lookup(errors: seq<ErrorEntry>, key: string): Option<string> {
    if errors == [] then None
    else if errors[0].field == key then Some(errors[0].message)
    else Lookup(errors[1..], key)
  }

  /** The check validateForm applies to a required field (first name, last
      name, email): a blank value is reported as `required`, a value the
      pattern rejects as `invalid`. */
  function RequiredFieldError(value: string, pattern: Pattern, required: string, invalid: string)
    : Option<string>
  {
    if Trim(value) == "" then Some(required)
    else if !Test(pattern, value) then Some(invalid)
    else None
  }

  /** The check validateForm applies to the phone number, which may be left blank. */
  function PhoneFieldError(value: string): Option<string> {
    if Trim(value) != "" && !PhoneRegexTest(value) then Some(PhoneError) else None
  }

  /** The check validateForm applies to the message, which may be left empty. */
  function MessageFieldError(value: string): Option<string> {
    if value != "" && |value| > MaxMessageLength then Some(MessageLengthError) else None
  }

  const FirstNameRequired := "First name is required"
  const FirstNameInvalid := "Please enter a valid first name"
  const LastNameRequired := "Last name is required"
  const LastNameInvalid := "Please enter a valid last name"
  const EmailRequired := "Email is required"

  /** `errors[key] = m` when the check failed with message `m`; on a fresh
      key this appends the property at the end of the insertion order. */
  function Record(errors: seq<ErrorEntry>, key: string, e: Option<string>): seq<ErrorEntry> {
    match e
    case Some(m) => errors + [ErrorEntry(key, m)]
    case None => errors
  }

  /** The `errors` object validateForm builds: the failing fields, in the
      order the code checks them. */
  function FormErrors(f: FormData): seq<ErrorEntry> {
    Collect(RequiredFieldError(f.firstName, NamePattern, FirstNameRequired, FirstNameInvalid),
            RequiredFieldError(f.lastName, NamePattern, LastNameRequired, LastNameInvalid),
            RequiredFieldError(f.email, EmailPattern, EmailRequired, EmailError),
            PhoneFieldError(f.phone),
            MessageFieldError(f.message))
  }

  /** The five `errors[key] = …` steps of validateForm, given the outcome of each check. */
  function Collect(o1: Option<string>, o2: Option<string>, o3: Option<string>,
                   o4: Option<string>, o5: Option<string>): seq<ErrorEntry> {
    Record(Record(Record(Record(Record([], "firstName", o1), "lastName", o2), "email", o3),
                  "phone", o4), "message", o5)
  }

  /** One required-field block of validateForm (first name, last name, email). */
  method CheckRequired(errors: seq<ErrorEntry>, hasErrors: bool, key: string, value: string,
                       pattern: Pattern, required: string, invalid: string)
    returns (errors': seq<ErrorEntry>, hasErrors': bool)
    requires hasErrors <==> errors != []
    ensures errors' == Record(errors, key, RequiredFieldError(value, pattern, required, invalid))
    ensures hasErrors' <==> errors' != []
  {
    errors', hasErrors' := errors, hasErrors;
    if Trim(value) == "" {
      errors' := errors' + [ErrorEntry(key, required)];
      hasErrors' := true;
    } else if !Test(pattern, value) {
      errors' := errors' + [ErrorEntry(key, invalid)];
      hasErrors' := true;
    }
  }

  /** The phone block of validateForm. */
  method CheckPhone(errors: seq<ErrorEntry>, hasErrors: bool, phone: string)
    returns (errors': seq<ErrorEntry>, hasErrors': bool)
    requires hasErrors <==> errors != []
    ensures errors' == Record(errors, "phone", PhoneFieldError(phone))
    ensures hasErrors' <==> errors' != []
  {
    errors', hasErrors' := errors, hasErrors;
    if Trim(phone) != "" && !PhoneRegexTest(phone) {
      errors' := errors' + [ErrorEntry("phone", PhoneError)];
      hasErrors' := true;
    }
  }

  /** The message block of validateForm. */
  method CheckMessage(errors: seq<ErrorEntry>, hasErrors: bool, message: string)
    returns (errors': seq<ErrorEntry>, hasErrors': bool)
    requires hasErrors <==> errors != []
    ensures errors' == Record(errors, "message", MessageFieldError(message))
    ensures hasErrors' <==> errors' != []
  {
    errors', hasErrors' := errors, hasErrors;
    // an empty message is never length-checked
    if message != "" && |message| > MaxMessageLength {
      errors' := errors' + [ErrorEntry("message", MessageLengthError)];
      hasErrors' := true;
    }
  }

  /** validateForm(formData) */
  method ValidateForm(formData: FormData) returns (result: ValidationResult)
    ensures result.errors == FormErrors(formData)
    ensures result.isValid <==> result.errors == []
  {
    var errors: seq<ErrorEntry> := [];
    var hasErrors := false;
    errors, hasErrors := CheckRequired(errors, hasErrors, "firstName", formData.firstName,
                                       NamePattern, FirstNameRequired, FirstNameInvalid);
    errors, hasErrors := CheckRequired(errors, hasErrors, "lastName", formData.lastName,
                                       NamePattern, LastNameRequired, LastNameInvalid);
    errors, hasErrors := CheckRequired(errors, hasErrors, "email", formData.email,
                                       EmailPattern, EmailRequired, EmailError);
    errors, hasErrors := CheckPhone(errors, hasErrors, formData.phone);
    errors, hasErrors := CheckMessage(errors, hasErrors, formData.message);
    result := ValidationResult(!hasErrors, errors);
  }
}
