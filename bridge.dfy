/** src/utils/flutterBridge.js: the outbound half of the bridge between the
    form and the Flutter host. The two host globals are read once, as a
    snapshot handed to the constructor; what the host receives is recorded
    in the bridge's outbox, one entry per call into the host. */
module Bridge {
  import opened Text
  import opened Validation
  import opened FormFacts

  /** What one host global (`window.flutter_inappwebview` or
      `window.FlutterWebView`) holds: nothing, a falsy value such as null, or
      an object providing its transport method (`callHandler` or
      `postMessage`). A truthy value without that method, on which
      sendToFlutter would throw, has no state here. */
  datatype HostGlobal = Undefined | Falsy | Present

  datatype HostWindow = HostWindow(inAppWebView: HostGlobal, flutterWebView: HostGlobal)

  /** isInFlutterWeb(): either global is defined (`!== undefined`). */
  function IsInFlutterWeb(w: HostWindow): bool {
    w.inAppWebView != Undefined || w.flutterWebView != Undefined
  }

  /** The `data` argument of sendToFlutter, one alternative per object the
      bridge builds. */
  datatype Payload =
    | FormPayload(form: FormData)                                     // formData, as given
    | AlertPayload(kind: string, title: string, message: string)      // { type, title, message }
    | FieldPayload(field: string, value: string, isValid: bool, error: Option<string>)
    | EmptyObject                                                     // {}

  /** One sendToFlutter(channel, data) call. */
  datatype Message = Message(channel: string, data: Payload)

  /** What the host receives: `flutter_inappwebview.callHandler(channel, data)`,
      or `FlutterWebView.postMessage` of the `{ channel, data }` envelope
      (its JSON text is not modelled). */
  datatype Delivery =
    | CallHandler(channel: string, data: Payload)
    | PostMessage(envelope: Message)

  /** The message a delivery carries, whichever transport took it. */
  function Carried(d: Delivery): Message {
    match d
    case CallHandler(c, data) => Message(c, data)
    case PostMessage(e) => e
  }

  /** sendToFlutter(channel, data) on a bridge whose constructor found
      `isFlutter`: nothing outside a host; otherwise the in-app web view's
      handler if that global is truthy, else the plain web view's
      postMessage if that one is, else nothing. */
  function Deliver(isFlutter: bool, w: HostWindow, m: Message): seq<Delivery> {
    if !isFlutter then []
    else if w.inAppWebView == Present then [CallHandler(m.channel, m.data)]
    else if w.flutterWebView == Present then [PostMessage(m)]
    else []
  }

  /** The deliveries of several sendToFlutter calls, in order. */
  function Transmit(isFlutter: bool, w: HostWindow, ms: seq<Message>): seq<Delivery> {
    if ms == [] then [] else Deliver(isFlutter, w, ms[0]) + Transmit(isFlutter, w, ms[1..])
  }

  // ---------------------------------------------------------------------
  // The messages each public method sends.

  const ValidationKind := "validation"
  const ValidationTitle := "Validation Error"
  const SuccessKind := "success"
  const SuccessTitle := "Success"

  /** showValidationAlert(message) */
  function ValidationAlert(message: string): Message {
    Message("showAlert", AlertPayload(ValidationKind, ValidationTitle, message))
  }

  /** showSuccessAlert(message) */
  function SuccessAlert(message: string): Message {
    Message("showAlert", AlertPayload(SuccessKind, SuccessTitle, message))
  }

  /** `Object.values(errors)`: the messages, in insertion order. */
  function Values(errors: seq<ErrorEntry>): (vs: seq<string>)
    ensures |vs| == |errors|
    ensures forall i :: 0 <= i < |errors| ==> vs[i] == errors[i].message
  {
    if errors == [] then [] else [errors[0].message] + Values(errors[1..])
  }

  /** `Object.values(validationResult.errors).join("\n")` */
  function ErrorText(errors: seq<ErrorEntry>): string {
    Join(Values(errors), "\n")
  }

  /** submitForm(formData, validationResult) */
  function SubmitFormMessages(formData: FormData, result: ValidationResult): seq<Message> {
    if !result.isValid then [ValidationAlert(ErrorText(result.errors))]
    else [Message("submitForm", FormPayload(formData))]
  }

  /** requestInitialData() */
  function InitialDataRequest(): Message {
    Message("requestInitialData", EmptyObject)
  }

  /** A validation error is truthy unless it is null or the empty string. */
  predicate Truthy(e: Option<string>) {
    e.Some? && e.value != ""
  }

  /** updateField(fieldName, value, validationError) */
  function UpdateFieldMessages(fieldName: string, value: string, validationError: Option<string>)
    : seq<Message>
  {
    [Message("updateField", FieldPayload(fieldName, value, !Truthy(validationError), validationError))]
    + (if Truthy(validationError) then [ValidationAlert(validationError.value)] else [])
  }

  // ---------------------------------------------------------------------
  // The bridge object.

  class FlutterBridge {
    /** The host globals as the page sees them. */
    const window: HostWindow
    /** `this.isFlutter`, set once by the constructor. */
    const isFlutter: bool
    /** Every delivery made to the host so far, oldest first. */
    var outbox: seq<Delivery>

    constructor(window: HostWindow)
      ensures this.window == window
      ensures isFlutter == IsInFlutterWeb(window)
      ensures outbox == []
    {
      this.window := window;
      isFlutter := IsInFlutterWeb(window);
      outbox := [];
    }

    method SendToFlutter(channel: string, data: Payload)
      modifies this
      ensures outbox == old(outbox) + Transmit(isFlutter, window, [Message(channel, data)])
    {
      if !isFlutter {
        // outside a host the message is only logged
        return;
      }
      if window.inAppWebView == Present {
        outbox := outbox + [CallHandler(channel, data)];
      } else if window.flutterWebView == Present {
        outbox := outbox + [PostMessage(Message(channel, data))];
      }
    }

    method ShowValidationAlert(message: string)
      modifies this
      ensures outbox == old(outbox) + Transmit(isFlutter, window, [ValidationAlert(message)])
    {
      SendToFlutter("showAlert", AlertPayload(ValidationKind, ValidationTitle, message));
    }

    method ShowSuccessAlert(message: string)
      modifies this
      ensures outbox == old(outbox) + Transmit(isFlutter, window, [SuccessAlert(message)])
    {
      SendToFlutter("showAlert", AlertPayload(SuccessKind, SuccessTitle, message));
    }

    method SubmitForm(formData: FormData, validationResult: ValidationResult)
      modifies this
      ensures outbox == old(outbox)
                        + Transmit(isFlutter, window, SubmitFormMessages(formData, validationResult))
    {
      if !validationResult.isValid {
        ShowValidationAlert(ErrorText(validationResult.errors));
        return;
      }
      SendToFlutter("submitForm", FormPayload(formData));
    }

    method RequestInitialData()
      modifies this
      ensures outbox == old(outbox) + Transmit(isFlutter, window, [InitialDataRequest()])
    {
      SendToFlutter("requestInitialData", EmptyObject);
    }

    method UpdateField(fieldName: string, value: string, validationError: Option<string>)
      modifies this
      ensures outbox == old(outbox)
                        + Transmit(isFlutter, window, UpdateFieldMessages(fieldName, value, validationError))
    {
      SendToFlutter("updateField", FieldPayload(fieldName, value, !Truthy(validationError), validationError));
      if Truthy(validationError) {
        ShowValidationAlert(validationError.value);
      }
      TransmitAppend(isFlutter, window,
        [Message("updateField", FieldPayload(fieldName, value, !Truthy(validationError), validationError))],
        if Truthy(validationError) then [ValidationAlert(validationError.value)] else []);
    }
  }

  // ---------------------------------------------------------------------
  // Properties of the transport.

  lemma {:induction false} TransmitAppend(isFlutter: bool, w: HostWindow, a: seq<Message>, b: seq<Message>)
    ensures Transmit(isFlutter, w, a + b) == Transmit(isFlutter, w, a) + Transmit(isFlutter, w, b)
  {
    if a == [] {
      assert a + b == b;
    } else {
      assert (a + b)[1..] == a[1..] + b;
      TransmitAppend(isFlutter, w, a[1..], b);
    }
  }

  /** Outside a host nothing is ever delivered. */
  lemma {:induction false} NoHostNoDelivery(w: HostWindow, ms: seq<Message>)
    ensures Transmit(false, w, ms) == []
  {
    if ms != [] {
      NoHostNoDelivery(w, ms[1..]);
    }
  }

  /** Inside a host with a truthy global, every message is delivered once,
      in order and unchanged: through the in-app web view's handler when that
      global is truthy, which wins over the plain web view, and as a posted
      envelope otherwise. */
  lemma {:induction false} HostDeliversAll(w: HostWindow, ms: seq<Message>)
    requires w.inAppWebView == Present || w.flutterWebView == Present
    ensures |Transmit(true, w, ms)| == |ms|
    ensures forall i :: 0 <= i < |ms| ==> Carried(Transmit(true, w, ms)[i]) == ms[i]
    ensures forall i :: 0 <= i < |ms| ==>
              (w.inAppWebView == Present <==> Transmit(true, w, ms)[i].CallHandler?)
  {
    if ms != [] {
      HostDeliversAll(w, ms[1..]);
      var t := Transmit(true, w, ms);
      assert t == Deliver(true, w, ms[0]) + Transmit(true, w, ms[1..]);
      forall i | 1 <= i < |ms| ensures t[i] == Transmit(true, w, ms[1..])[i - 1] && ms[i] == ms[1..][i - 1] {
      }
    }
  }

  /** When no global holds a usable object, nothing is delivered, even on a
      bridge that found a defined global and so believes it is in a host. */
  lemma {:induction false} FalsyGlobalsDeliverNothing(w: HostWindow, ms: seq<Message>)
    requires w.inAppWebView != Present && w.flutterWebView != Present
    ensures Transmit(IsInFlutterWeb(w), w, ms) == []
  {
    if ms != [] {
      FalsyGlobalsDeliverNothing(w, ms[1..]);
    }
  }

  /** On a freshly built bridge, a message reaches the host exactly when one
      of the two globals is `Present`, an object providing its transport
      method. */
  lemma DeliveredIffPresent(w: HostWindow, m: Message)
    ensures Transmit(IsInFlutterWeb(w), w, [m]) != [] <==>
            w.inAppWebView == Present || w.flutterWebView == Present
  {
    assert [m][1..] == [];
  }

  // ---------------------------------------------------------------------
  // Properties of the messages.

  /** A failed validation sends one validation alert and never a submission;
      the alert text holds every error message of the result. */
  lemma SubmitInvalid(formData: FormData, result: ValidationResult)
    requires !result.isValid
    ensures SubmitFormMessages(formData, result) == [ValidationAlert(ErrorText(result.errors))]
    ensures forall m :: m in SubmitFormMessages(formData, result) ==> m.channel != "submitForm"
    ensures forall i :: 0 <= i < |result.errors| ==>
              Mentions(ErrorText(result.errors), result.errors[i].message)
  {
    var vs := Values(result.errors);
    forall i | 0 <= i < |result.errors|
      ensures Mentions(ErrorText(result.errors), result.errors[i].message)
    {
      JoinContains(vs, "\n", i);
      assert vs[i] == result.errors[i].message;
    }
  }

  /** updateField sends the field update first and then, exactly when the
      error is truthy, a validation alert carrying that error. */
  lemma UpdateFieldSends(fieldName: string, value: string, validationError: Option<string>)
    ensures var ms := UpdateFieldMessages(fieldName, value, validationError);
            && |ms| == (if Truthy(validationError) then 2 else 1)
            && ms[0].channel == "updateField"
            && ms[0].data == FieldPayload(fieldName, value, !Truthy(validationError), validationError)
            && (Truthy(validationError) ==> ms[1] == ValidationAlert(validationError.value))
  {
  }

  /** Submitting what validateForm computed: exactly one message, and it is
      the submission of the form, unchanged, exactly when both names and the
      email are filled in and well formed, the phone is blank or well formed
      and the message is at most 500 long; otherwise it is the alert. */
  lemma SubmitValidatedForm(f: FormData)
    ensures var ms := SubmitFormMessages(f, ValidationResult(FormErrors(f) == [], FormErrors(f)));
            && |ms| == 1
            && (ms[0] == Message("submitForm", FormPayload(f)) <==>
                && !AllWhitespace(f.firstName) && NameShape(f.firstName)
                && !AllWhitespace(f.lastName) && NameShape(f.lastName)
                && !AllWhitespace(f.email) && EmailShape(f.email)
                && (AllWhitespace(f.phone) || PhoneShape(f.phone))
                && |f.message| <= MaxMessageLength)
  {
    FormValidIff(f);
  }
}
