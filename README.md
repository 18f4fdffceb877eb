# Contact form validation and Flutter bridge, in Dafny

This project models the two utility modules behind a contact form that runs inside a
Flutter web view. It then proves what they promise.

* `src/utils/validation.js` holds three regular expressions (email, phone, name) and two
  checks. `validateField(name, value)` checks one field and returns an error message or
  null. `validateForm(formData)` checks the five fields firstName, lastName, email, phone
  and message. It fills an `errors` object and a `hasErrors` flag as it goes.
* `src/utils/flutterBridge.js` holds the `FlutterBridge` class. The constructor records
  whether a Flutter host global exists. Every outbound method goes through
  `sendToFlutter(channel, data)`. That call uses `flutter_inappwebview.callHandler` when the
  in-app web view is there, `FlutterWebView.postMessage` of a `{channel, data}` envelope
  when only the plain web view is there, and does nothing outside a host.

## Files

| file | module | contents |
|---|---|---|
| `text.dfy` | `Text` | The whitespace set of `\s` and `trim()`, `trim`, ASCII `toLowerCase`, `Array.prototype.join` |
| `regex.dfy` | `Regex` | Anchored patterns built from character classes with quantifiers. `Matches` is what a pattern means; `Test` is a backtracking search with the same answer as `RegExp.prototype.test`; the two are proved equal |
| `validation.dfy` | `Validation` | The three patterns and the shape each one accepts, `validateField` as a function, `validateForm` as a method |
| `form_facts.dfy` | `FormFacts` | What the errors object of `validateForm` holds, and how it compares with `validateField` |
| `pattern_examples.dfy` | `PatternExamples` | Concrete inputs for each pattern |
| `bridge.dfy` | `Bridge` | The `FlutterBridge` class, with an outbox of deliveries, and the messages each method sends |

### How things are represented

* **Error table.** The `errors` object is a sequence of `(field, message)` entries in
  insertion order. That order is what `Object.values` gives for these non-numeric keys.
  `validateForm` writes each key at most once (`FormFacts.FormErrorsKeys`), so appending
  is the same as setting a property.
* **Null.** JavaScript's `null` result is `None` of an `Option`.
* **Host globals.** The two globals are a `HostWindow` snapshot with three states each:
  `Undefined`, `Falsy` (defined but falsy, such as `null`) and `Present` (an object that
  provides the transport method, `callHandler` or `postMessage`). The
  constructor takes the snapshot as an argument. The source is not consistent here:
  detection tests `!== undefined`, while sending tests truthiness. So a bridge whose
  globals are defined but falsy believes it is inside a host, yet delivers nothing
  (`Bridge.FalsyGlobalsDeliverNothing`).
* **Outbox.** Each call into the host appends one `Delivery` to the bridge's `outbox`:
  `CallHandler(channel, data)` or `PostMessage({channel, data})`.

### Behaviour of the code worth knowing

`submitForm` puts every error value, joined with `"\n"`, into one alert
(`flutterBridge.js:84-86`, `Bridge.SubmitInvalid`).

`validateField` and `validateForm` disagree in four places:

* a blank phone is "required" for `validateField` but accepted by `validateForm`
  (`validation.js:18-20` against `:81`, `FormFacts.BlankPhoneDisagreement`);
* a whitespace-only message longer than 500 characters is accepted by `validateField`
  but rejected by `validateForm` (`:13-15` against `:87`,
  `FormFacts.BlankLongMessageDisagreement`);
* the required messages are worded differently, `firstName is required` against
  `First name is required` (`:19` against `:58`, `FormFacts.BlankRequiredWording`);
* a non-blank first or last name without the name shape gets the generic
  `Please enter a valid name (2-50 characters, letters only)` from `validateField`, but
  `Please enter a valid first name` or `Please enter a valid last name` from `validateForm`
  (`:38` against `:61` and `:69`, `FormFacts.FilledFieldsAgree`).

## Model

| member | source | states |
|---|---|---|
| Text.Trim | src/utils/validation.js:57 | `s.trim()` is empty exactly when every character of `s` is whitespace |
| Text.TrimIsInfix | src/utils/validation.js:13 | The trimmed string is a contiguous part of `s` with no whitespace at either end, and everything cut off on both sides is whitespace |
| Text.IsBlank | src/utils/validation.js:13 | `!value \|\| value.trim() === ""` holds exactly when the value is all whitespace (the empty string included) |
| Text.ToLower | src/utils/validation.js:22 | `toLowerCase` keeps the length and lower-cases each ASCII letter in place |
| Text.JoinContains | src/utils/flutterBridge.js:85 | Every element of a `join` occurs in the joined string |
| Regex.TestIsMatches | src/utils/validation.js:2-9 | The backtracking search for an anchored pattern accepts a string exactly when the string splits into runs, one per piece, each within the piece's class and repetition bounds |
| Regex.TestFromIsMatches | src/utils/validation.js:2-9 | The search that extends the first run from length `i` finds exactly the splits whose first run is at least `i` long |
| Regex.MatchesIsPartition | src/utils/validation.js:2-9 | A match is the same as a cut of the string into one run per piece |
| Validation.EmailPatternIsShape | src/utils/validation.js:2 | `emailRegex` accepts exactly: a non-empty local part of `[A-Za-z0-9._-]`, `@`, a non-empty domain of `[A-Za-z0-9.-]`, a dot, and 2 to 6 ASCII letters |
| Validation.PhonePatternIsShape | src/utils/validation.js:5-6 | `phoneRegex` accepts exactly three digit groups of 3, 3 and 4, with runs of whitespace, `(`, `)`, `.` or `-` before, between and after them |
| Validation.NamePatternIsShape | src/utils/validation.js:9 | `nameRegex` accepts exactly 2 to 50 characters, each an ASCII letter, whitespace, `'` or `-` |
| Validation.ValidateField | src/utils/validation.js:11-50 | A blank `message` (any case) gives null. Any other blank field gives `name + " is required"` with the name as written. A non-blank email, phone or first/last name gives null exactly when it has its shape, and otherwise its pattern message. A non-blank message is rejected exactly when it is longer than 500. A non-blank value of an unknown field gives null |
| Validation.LowerFirstName | src/utils/validation.js:35 | The form's key `firstName` reaches the `firstname` case of the switch |
| Validation.LowerLastName | src/utils/validation.js:36 | The form's key `lastName` reaches the `lastname` case of the switch |
| Validation.CheckRequired | src/utils/validation.js:57-79 | One required-field block: a blank value records the required message, a value the pattern rejects records the invalid message, and `hasErrors` stays equal to "errors is non-empty" |
| Validation.CheckPhone | src/utils/validation.js:81-84 | The phone block records the phone message only for a non-blank value the pattern rejects |
| Validation.CheckMessage | src/utils/validation.js:86-90 | The message block records the length message only for a non-empty message longer than 500 |
| Validation.ValidateForm | src/utils/validation.js:52-96 | The errors built are the five checks appended in order, and `isValid` holds exactly when errors is empty |
| FormFacts.FirstNameReported | src/utils/validation.js:57-63 | `errors.firstName` is "First name is required" when blank, "Please enter a valid first name" when non-blank without the name shape, and absent otherwise |
| FormFacts.LastNameReported | src/utils/validation.js:65-71 | The same for `errors.lastName` and its two messages |
| FormFacts.EmailReported | src/utils/validation.js:73-79 | `errors.email` is "Email is required" when blank, the email message when non-blank without the email shape, and absent otherwise |
| FormFacts.PhoneReported | src/utils/validation.js:81-84 | A blank phone never produces `errors.phone`; a non-blank one produces it exactly when it lacks the phone shape |
| FormFacts.MessageReported | src/utils/validation.js:86-90 | `errors.message` is present exactly when the untrimmed message is longer than 500 |
| FormFacts.FormErrorsKeys | src/utils/validation.js:52-95 | Every key of errors is one of the five field names, no key occurs twice, the keys come in check order, and each entry is what a lookup of its key returns |
| FormFacts.FormValidIff | src/utils/validation.js:92-95 | errors is empty (so `isValid`) exactly when both names and the email are non-blank and well formed, the phone is blank or well formed, and the message is at most 500 long |
| FormFacts.CollectLookup | src/utils/validation.js:57-90 | After the five steps, each field's key holds that field's outcome and no other key is present |
| FormFacts.CollectInOrder | src/utils/validation.js:57-90 | The five steps leave keys drawn from the five fields, in check order |
| FormFacts.CollectEmpty | src/utils/validation.js:54-93 | The five steps leave errors empty exactly when every check passed (that `hasErrors` tracks emptiness is the second ensures of `Validation.CheckRequired`, `Validation.CheckPhone` and `Validation.CheckMessage`) |
| FormFacts.LookupRecord | src/utils/validation.js:58 | After one `errors[key] = m` on a fresh key, looking up that key gives `m` and every other key is unchanged |
| FormFacts.InOrderLookup | src/utils/validation.js:53 | In an errors table whose keys are among the five field names, in check order (as every table `validateForm` builds is), looking up an entry's key gives that entry's message |
| FormFacts.FilledFieldsAgree | src/utils/validation.js:22-47 | For non-blank values, `validateField` and `validateForm` agree on whether each field passes. Email, phone and message get the same message from both; the names get `validateField`'s generic name message |
| FormFacts.BlankPhoneDisagreement | src/utils/validation.js:18-20 | A blank phone: `validateForm` accepts it, while `validateField("phone", …)` returns "phone is required" |
| FormFacts.BlankLongMessageDisagreement | src/utils/validation.js:13-15 | A whitespace-only message longer than 500: `validateForm` rejects it, while `validateField` accepts it |
| FormFacts.BlankRequiredWording | src/utils/validation.js:19 | A blank first name gives "First name is required" from `validateForm` and "firstName is required" from `validateField` |
| PatternExamples.EmailExamples | src/utils/validation.js:2 | `a@b.com` and `a.b-c_d@sub.domain.co` are accepted; `a@b` is rejected |
| PatternExamples.ShortIsNotEmail | src/utils/validation.js:2 | No string shorter than six characters is an email |
| PatternExamples.PhoneExamples | src/utils/validation.js:4-6 | `1234567890`, `123-456-7890` and `(123) 456-7890` are accepted; `12345` is rejected |
| PatternExamples.ShortIsNotPhone | src/utils/validation.js:5-6 | No string shorter than ten characters is a phone number |
| PatternExamples.NameExamples | src/utils/validation.js:9 | `O'Brien` and `Mary-Jane` are accepted; `A` (too short) and `12` (digits) are rejected |
| Bridge.Values | src/utils/flutterBridge.js:85 | `Object.values(errors)` lists the messages in insertion order, one per entry |
| Bridge.FlutterBridge.constructor | src/utils/flutterBridge.js:2-12 | `isFlutter` holds exactly when either host global is defined, and nothing has been sent yet |
| Bridge.FlutterBridge.SendToFlutter | src/utils/flutterBridge.js:15-35 | The outbox grows by exactly the delivery of this one message: none outside a host, `callHandler` when the in-app global is truthy, otherwise `postMessage` of the envelope when the plain global is truthy |
| Bridge.FlutterBridge.ShowValidationAlert | src/utils/flutterBridge.js:63-69 | Sends one `showAlert` with type "validation", title "Validation Error" and the given message |
| Bridge.FlutterBridge.ShowSuccessAlert | src/utils/flutterBridge.js:72-78 | Sends one `showAlert` with type "success", title "Success" and the given message |
| Bridge.FlutterBridge.SubmitForm | src/utils/flutterBridge.js:81-91 | Sends the alert of the joined error values when the result is invalid, and the form data otherwise |
| Bridge.FlutterBridge.RequestInitialData | src/utils/flutterBridge.js:94-96 | Sends one `requestInitialData` message with the empty object |
| Bridge.FlutterBridge.UpdateField | src/utils/flutterBridge.js:99-110 | Sends the field update `{field, value, isValid: !error, error}`, then a validation alert carrying the error exactly when the error is truthy |
| Bridge.TransmitAppend | src/utils/flutterBridge.js:100-109 | Sending two batches of messages one after the other delivers the deliveries of the first batch followed by those of the second |
| Bridge.NoHostNoDelivery | src/utils/flutterBridge.js:16-22 | Outside a host no message is ever delivered, so every outbound method leaves the outbox unchanged |
| Bridge.HostDeliversAll | src/utils/flutterBridge.js:25-34 | With a truthy global, every message is delivered once, in order, unchanged. All go through `callHandler` exactly when the in-app global is truthy, so it wins over the plain web view |
| Bridge.FalsyGlobalsDeliverNothing | src/utils/flutterBridge.js:2-7 | A bridge whose globals are defined but neither is truthy delivers nothing |
| Bridge.DeliveredIffPresent | src/utils/flutterBridge.js:2-34 | On a bridge built from a window, a message reaches the host exactly when one of the two globals is `Present`, an object providing its transport method |
| Bridge.SubmitInvalid | src/utils/flutterBridge.js:82-88 | An invalid result sends exactly one validation alert and never a `submitForm`; the alert text contains every error message of the result |
| Bridge.UpdateFieldSends | src/utils/flutterBridge.js:99-110 | `updateField` sends one message when the error is falsy and two when it is truthy; the field update comes first and the alert with the error second |
| Bridge.SubmitValidatedForm | src/utils/flutterBridge.js:81-91 | Submitting what `validateForm` computed sends exactly one message. It is the unchanged form under `submitForm` exactly when every field passes, as `FormValidIff` states |

## Left out

- `registerFlutterHandler` and the `handleValidationError`, `handleSubmissionSuccess` and `handlePrefilledData` wrappers (`flutterBridge.js:38-60`, `113-125`) are not modelled. They install event listeners and parse host messages with `JSON.parse`, which is foreign event machinery. Like `sendToFlutter`, they do nothing outside a host.
- `console.log` and `console.error` are not modelled; they have no effect on state.
- Bridge.FlutterBridge.SendToFlutter: `Present` stands for a global that provides `callHandler` (in-app web view) or `postMessage` (plain web view). A truthy global without that method, such as `window.flutter_inappwebview = {}`, makes `sendToFlutter` throw a TypeError (`flutterBridge.js:26`, `:28`). The error escapes every outbound method. That failure path is not modelled, so `Bridge.DeliveredIffPresent` and `Bridge.HostDeliversAll` speak only of globals that provide their method.
- The JSON text that `postMessage` carries is not modelled. The envelope is kept as the `{channel, data}` record that `JSON.stringify` encodes.
- The host globals are read once, as a snapshot passed to the constructor. The source re-reads `window` on every `sendToFlutter`, so a global that appears or disappears after construction is not modelled.
- The singleton export (`flutterBridge.js:129-130`) is not modelled. The model's constructor takes the window snapshot.
- `src/App.jsx` is not part of this model. It is the React component that calls the validator and the bridge.
- Text.ToLower: lower-cases ASCII letters only, not the full Unicode case mapping of `toLowerCase`. Only ASCII field names are compared, so only non-ASCII spellings of an unknown name could differ.
- Lengths count Dafny characters (code points), not the UTF-16 code units of JavaScript's `.length`. The two differ only for characters outside the Basic Multilingual Plane.
- `null` or `undefined` field values are not modelled. `validateForm` would throw on them, and the model's values are always strings.
- Regex: models only the fragment of JavaScript regular expressions these three patterns use: anchored sequences of character classes with quantifiers. The search tries the shortest run of each piece first, where JavaScript's greedy quantifiers try the longest. Only the yes/no answer of `test` is modelled, not which match is found. `\s` is the ECMAScript WhiteSpace and LineTerminator set written out character by character.
- Bridge.FlutterBridge.SubmitForm: the result is taken as an ordered list of entries. An arbitrary `validationResult` whose errors hold integer-like keys, which `Object.values` would list first, is not modelled.
