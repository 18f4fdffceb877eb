/** Properties of validateForm: what each field's check means, and which
    keys the errors object holds, in which order, with which messages. */
module FormFacts {
  import opened Text
  import opened Regex
  import opened Validation

  // ---------------------------------------------------------------------
  // The errors object validateForm builds: which keys, in which order,
  // holding which messages.

  /** Looking a key up after one `errors[key] = …` step: a key already
      present keeps its message, the new key finds the new message. */
  lemma {:induction false} LookupRecord(es: seq<ErrorEntry>, k: string, o: Option<string>, key: string)
    ensures Lookup(Record(es, k, o), key)
            == if Lookup(es, key).Some? then Lookup(es, key) else if key == k then o else None
  {
    if o.Some? {
      LookupAppend(es, ErrorEntry(k, o.value), key);
    }
  }

  lemma {:induction false} LookupAppend(es: seq<ErrorEntry>, e: ErrorEntry, key: string)
    ensures Lookup(es + [e], key)
            == if Lookup(es, key).Some? then Lookup(es, key)
               else if e.field == key then Some(e.message) else None
  {
    if es == [] {
      assert [] + [e] == [e];
    } else {
      assert (es + [e])[1..] == es[1..] + [e];
      LookupAppend(es[1..], e, key);
    }
  }

  /** The two inequalities between field-name literals that the lookup proofs need stated. */
  lemma KeysDistinct()
    ensures "firstName" != "lastName" && "email" != "phone"
  {
    assert "firstName"[0] != "lastName"[0];
    assert "email"[0] != "phone"[0];
  }

  /** Each key of the errors object holds the outcome of its own check, and
      no other key is present. */
  lemma CollectLookup(o1: Option<string>, o2: Option<string>, o3: Option<string>,
                      o4: Option<string>, o5: Option<string>, key: string)
    ensures Lookup(Collect(o1, o2, o3, o4, o5), key)
            == if key == "firstName" then o1 else if key == "lastName" then o2
               else if key == "email" then o3 else if key == "phone" then o4
               else if key == "message" then o5 else None
  {
    KeysDistinct();
    var e1 := Record([], "firstName", o1);
    var e2 := Record(e1, "lastName", o2);
    var e3 := Record(e2, "email", o3);
    var e4 := Record(e3, "phone", o4);
    LookupRecord([], "firstName", o1, key);
    LookupRecord(e1, "lastName", o2, key);
    LookupRecord(e2, "email", o3, key);
    LookupRecord(e3, "phone", o4, key);
    LookupRecord(e4, "message", o5, key);
  }

  /** The position of a key in the order validateForm checks the fields;
      5 for a string that is not one of the five keys. */
  function Rank(key: string): nat {
    if key == "firstName" then 0 else if key == "lastName" then 1 else if key == "email" then 2
    else if key == "phone" then 3 else if key == "message" then 4 else 5
  }

  /** Every key is one of the five, and the keys come in check order, so no
      key occurs twice. */
  predicate KeysInCheckOrder(es: seq<ErrorEntry>) {
    (forall i :: 0 <= i < |es| ==> Rank(es[i].field) < 5)
    && (forall i, j :: 0 <= i < j < |es| ==> Rank(es[i].field) < Rank(es[j].field))
  }

  lemma RecordInOrder(es: seq<ErrorEntry>, k: string, o: Option<string>)
    requires KeysInCheckOrder(es) && Rank(k) < 5
    requires forall i :: 0 <= i < |es| ==> Rank(es[i].field) < Rank(k)
    ensures KeysInCheckOrder(Record(es, k, o))
    ensures forall i :: 0 <= i < |Record(es, k, o)| ==> Rank(Record(es, k, o)[i].field) <= Rank(k)
  {
  }

  /** In a table whose keys are among the five field names, in check order,
      every entry is what a lookup of its key finds. */
  lemma {:induction false} InOrderLookup(es: seq<ErrorEntry>)
    requires KeysInCheckOrder(es)
    ensures forall e :: e in es ==> Lookup(es, e.field) == Some(e.message)
  {
    if es != [] {
      var rest := es[1..];
      assert KeysInCheckOrder(rest) by {
        forall i | 0 <= i < |rest| ensures Rank(rest[i].field) < 5 {
          assert rest[i] == es[i + 1];
        }
        forall i, j | 0 <= i < j < |rest| ensures Rank(rest[i].field) < Rank(rest[j].field) {
          assert rest[i] == es[i + 1] && rest[j] == es[j + 1];
        }
      }
      InOrderLookup(rest);
      forall e | e in es ensures Lookup(es, e.field) == Some(e.message) {
        if e != es[0] {
          var k :| 0 <= k < |es| && es[k] == e;
          assert rest[k - 1] == e;
          assert Rank(es[0].field) < Rank(es[k].field);
        }
      }
    }
  }

  lemma CollectInOrder(o1: Option<string>, o2: Option<string>, o3: Option<string>,
                       o4: Option<string>, o5: Option<string>)
    ensures KeysInCheckOrder(Collect(o1, o2, o3, o4, o5))
  {
    KeysDistinct();
    var e1 := Record([], "firstName", o1);
    var e2 := Record(e1, "lastName", o2);
    var e3 := Record(e2, "email", o3);
    var e4 := Record(e3, "phone", o4);
    RecordInOrder([], "firstName", o1);
    RecordInOrder(e1, "lastName", o2);
    RecordInOrder(e2, "email", o3);
    RecordInOrder(e3, "phone", o4);
    RecordInOrder(e4, "message", o5);
  }

  /** The errors object is empty exactly when every check passed. */
  lemma CollectEmpty(o1: Option<string>, o2: Option<string>, o3: Option<string>,
                     o4: Option<string>, o5: Option<string>)
    ensures Collect(o1, o2, o3, o4, o5) == [] <==>
            o1 == None && o2 == None && o3 == None && o4 == None && o5 == None
  {
    var e1 := Record([], "firstName", o1);
    var e2 := Record(e1, "lastName", o2);
    var e3 := Record(e2, "email", o3);
    var e4 := Record(e3, "phone", o4);
    assert |e1| >= 0 && |e2| >= |e1| && |e3| >= |e2| && |e4| >= |e3|;
  }

  // ---------------------------------------------------------------------
  // What validateForm reports for each field, stated with the shapes
  // instead of the patterns.

  /** A blank first name is required; a non-blank one must have the name shape. */
  lemma FirstNameReported(f: FormData)
    ensures Lookup(FormErrors(f), "firstName")
            == if AllWhitespace(f.firstName) then Some(FirstNameRequired)
               else if !NameShape(f.firstName) then Some(FirstNameInvalid) else None
  {
    NamePatternIsShape(f.firstName);
    CollectLookup(RequiredFieldError(f.firstName, NamePattern, FirstNameRequired, FirstNameInvalid),
                  RequiredFieldError(f.lastName, NamePattern, LastNameRequired, LastNameInvalid),
                  RequiredFieldError(f.email, EmailPattern, EmailRequired, EmailError),
                  PhoneFieldError(f.phone), MessageFieldError(f.message), "firstName");
  }

  /** A blank last name is required; a non-blank one must have the name shape. */
  lemma LastNameReported(f: FormData)
    ensures Lookup(FormErrors(f), "lastName")
            == if AllWhitespace(f.lastName) then Some(LastNameRequired)
               else if !NameShape(f.lastName) then Some(LastNameInvalid) else None
  {
    NamePatternIsShape(f.lastName);
    CollectLookup(RequiredFieldError(f.firstName, NamePattern, FirstNameRequired, FirstNameInvalid),
                  RequiredFieldError(f.lastName, NamePattern, LastNameRequired, LastNameInvalid),
                  RequiredFieldError(f.email, EmailPattern, EmailRequired, EmailError),
                  PhoneFieldError(f.phone), MessageFieldError(f.message), "lastName");
  }

  /** A blank email is required; a non-blank one must have the email shape. */
  lemma EmailReported(f: FormData)
    ensures Lookup(FormErrors(f), "email")
            == if AllWhitespace(f.email) then Some(EmailRequired)
               else if !EmailShape(f.email) then Some(EmailError) else None
  {
    EmailPatternIsShape(f.email);
    CollectLookup(RequiredFieldError(f.firstName, NamePattern, FirstNameRequired, FirstNameInvalid),
                  RequiredFieldError(f.lastName, NamePattern, LastNameRequired, LastNameInvalid),
                  RequiredFieldError(f.email, EmailPattern, EmailRequired, EmailError),
                  PhoneFieldError(f.phone), MessageFieldError(f.message), "email");
  }

  /** A blank phone is never an error; a non-blank one must have the phone shape. */
  lemma PhoneReported(f: FormData)
    ensures Lookup(FormErrors(f), "phone")
            == if !AllWhitespace(f.phone) && !PhoneShape(f.phone) then Some(PhoneError) else None
  {
    PhonePatternIsShape(f.phone);
    CollectLookup(RequiredFieldError(f.firstName, NamePattern, FirstNameRequired, FirstNameInvalid),
                  RequiredFieldError(f.lastName, NamePattern, LastNameRequired, LastNameInvalid),
                  RequiredFieldError(f.email, EmailPattern, EmailRequired, EmailError),
                  PhoneFieldError(f.phone), MessageFieldError(f.message), "phone");
  }

  /** The message is rejected exactly when it is longer than 500, blank or not. */
  lemma MessageReported(f: FormData)
    ensures Lookup(FormErrors(f), "message")
            == if |f.message| > MaxMessageLength then Some(MessageLengthError) else None
  {
    CollectLookup(RequiredFieldError(f.firstName, NamePattern, FirstNameRequired, FirstNameInvalid),
                  RequiredFieldError(f.lastName, NamePattern, LastNameRequired, LastNameInvalid),
                  RequiredFieldError(f.email, EmailPattern, EmailRequired, EmailError),
                  PhoneFieldError(f.phone), MessageFieldError(f.message), "message");
  }

  /** The keys of errors are drawn from the five fields, each at most once,
      in the order the fields are checked. */
  lemma FormErrorsKeys(f: FormData)
    ensures KeysInCheckOrder(FormErrors(f))
    ensures forall e :: e in FormErrors(f) ==> Lookup(FormErrors(f), e.field) == Some(e.message)
  {
    CollectInOrder(RequiredFieldError(f.firstName, NamePattern, FirstNameRequired, FirstNameInvalid),
                   RequiredFieldError(f.lastName, NamePattern, LastNameRequired, LastNameInvalid),
                   RequiredFieldError(f.email, EmailPattern, EmailRequired, EmailError),
                   PhoneFieldError(f.phone), MessageFieldError(f.message));
    InOrderLookup(FormErrors(f));
  }

  /** errors is empty, and so isValid holds, exactly when every field passes:
      both names and the email are non-blank and have their shapes, the
      phone is blank or has the phone shape, and the message is at most 500
      long. */
  lemma FormValidIff(f: FormData)
    ensures FormErrors(f) == [] <==>
            && !AllWhitespace(f.firstName) && NameShape(f.firstName)
            && !AllWhitespace(f.lastName) && NameShape(f.lastName)
            && !AllWhitespace(f.email) && EmailShape(f.email)
            && (AllWhitespace(f.phone) || PhoneShape(f.phone))
            && |f.message| <= MaxMessageLength
  {
    NamePatternIsShape(f.firstName);
    NamePatternIsShape(f.lastName);
    EmailPatternIsShape(f.email);
    PhonePatternIsShape(f.phone);
    CollectEmpty(RequiredFieldError(f.firstName, NamePattern, FirstNameRequired, FirstNameInvalid),
                 RequiredFieldError(f.lastName, NamePattern, LastNameRequired, LastNameInvalid),
                 RequiredFieldError(f.email, EmailPattern, EmailRequired, EmailError),
                 PhoneFieldError(f.phone), MessageFieldError(f.message));
  }

  // ---------------------------------------------------------------------
  // validateField and validateForm compared. The two check the same
  // patterns, but disagree on blank phones, on blank over-long messages
  // and on the wording of several messages.

  /** On a non-blank value, the two agree on whether each field passes; the
      names get different wording (validateField's NameError against
      validateForm's per-field message), the other fields the same message. */
  lemma FilledFieldsAgree(f: FormData)
    ensures !AllWhitespace(f.firstName) ==>
              ValidateField("firstName", f.firstName)
              == if Lookup(FormErrors(f), "firstName") == None then None else Some(NameError)
    ensures !AllWhitespace(f.lastName) ==>
              ValidateField("lastName", f.lastName)
              == if Lookup(FormErrors(f), "lastName") == None then None else Some(NameError)
    ensures !AllWhitespace(f.email) ==>
              ValidateField("email", f.email) == Lookup(FormErrors(f), "email")
    ensures !AllWhitespace(f.phone) ==>
              ValidateField("phone", f.phone) == Lookup(FormErrors(f), "phone")
    ensures !AllWhitespace(f.message) ==>
              ValidateField("message", f.message) == Lookup(FormErrors(f), "message")
  {
    LowerFirstName();
    LowerLastName();
    LowerEmail();
    LowerPhone();
    LowerMessage();
    FirstNameReported(f);
    LastNameReported(f);
    EmailReported(f);
    PhoneReported(f);
    MessageReported(f);
  }

  /** A blank phone: validateForm accepts it, validateField reports it as required. */
  lemma BlankPhoneDisagreement(f: FormData)
    requires AllWhitespace(f.phone)
    ensures Lookup(FormErrors(f), "phone") == None
    ensures ValidateField("phone", f.phone) == Some("phone" + " is required")
  {
    LowerPhone();
    PhoneReported(f);
  }

  /** A blank message longer than 500: validateForm rejects it, validateField accepts it. */
  lemma BlankLongMessageDisagreement(f: FormData)
    requires AllWhitespace(f.message) && |f.message| > MaxMessageLength
    ensures Lookup(FormErrors(f), "message") == Some(MessageLengthError)
    ensures ValidateField("message", f.message) == None
  {
    LowerMessage();
    MessageReported(f);
  }

  /** A blank required field: the two report it under different wording. */
  lemma BlankRequiredWording(f: FormData)
    requires AllWhitespace(f.firstName)
    ensures Lookup(FormErrors(f), "firstName") == Some("First name is required")
    ensures ValidateField("firstName", f.firstName) == Some("firstName" + " is required")
  {
    LowerFirstName();
    FirstNameReported(f);
  }
}
