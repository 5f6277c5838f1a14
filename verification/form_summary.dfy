/** The form side of the widget: the confirmation summary built by the submit
    handler, and the show/hide password toggle. */
module FormSummary {
  import opened Sequences
  import opened JsValues

  /** Shown for a field left empty. */
  const Dash: string := "—"

  /** The masking character of the password summary. */
  const Bullet: char := '•'

  /** Passwords shorter than this still show this many bullets. */
  const MinBullets: nat := 6

  /** Shown when native validation rejects the form. */
  const InvalidMessage: string := "Please correct the highlighted fields before continuing."

  function Max(a: nat, b: nat): nat {
    if a < b then b else a
  }

  /** A text field's summary line: its value, or the dash when it is empty. */
  function SummaryField(v: string): (r: string)
    ensures v != "" ==> r == v
    ensures v == "" ==> r == Dash
    ensures r != ""
  {
    Or(Str(v), Str(Dash)).s
  }

  /** The password's summary line: the dash for an empty password, otherwise
      one bullet per character but never fewer than six. */
  function PasswordSummary(p: string): (r: string)
    ensures p == "" <==> r == Dash
    ensures p != "" ==>
      && |r| == Max(MinBullets, |p|)
      && |r| >= MinBullets
      && forall i :: 0 <= i < |r| ==> r[i] == Bullet
    ensures forall c :: c in r && c in p ==> c == Bullet
  {
    if |p| > 0 then Repeat(Bullet, Max(MinBullets, |p|)) else Dash
  }

  /** The mask reveals at most the length of the password. */
  lemma MaskRevealsOnlyLength(p: string, q: string)
    requires |p| == |q|
    ensures PasswordSummary(p) == PasswordSummary(q)
  {
  }

  /** All passwords of one to six characters give the same summary. */
  lemma ShortPasswordsLookAlike(p: string, q: string)
    requires 0 < |p| <= MinBullets && 0 < |q| <= MinBullets
    ensures PasswordSummary(p) == PasswordSummary(q)
  {
  }

  /** The values read from the form fields when it is submitted. */
  datatype FormInput = FormInput(
    fullName: string, email: string, gender: string,
    contact: string, username: string, password: string)

  /** The text written into the confirmation modal. */
  datatype Summary = Summary(
    fullName: string, email: string, gender: string,
    contact: string, username: string, password: string)

  /** What a submit does: reject with the inline message, or fill the
      confirmation modal. */
  datatype SubmitOutcome = Rejected(message: string) | Confirm(summary: Summary)

  /** The submit handler. `valid` is the browser's `checkValidity()`. */
  function Submit(valid: bool, f: FormInput): (o: SubmitOutcome)
    ensures o.Rejected? <==> !valid
    ensures o.Rejected? ==> o.message == InvalidMessage
    ensures o.Confirm? ==>
      var s := o.summary;
      && s.fullName == SummaryField(f.fullName)
      && s.email == SummaryField(f.email)
      && s.gender == SummaryField(f.gender)
      && s.contact == SummaryField(f.contact)
      && s.username == SummaryField(f.username)
      && s.password == PasswordSummary(f.password)
  {
    if !valid then Rejected(InvalidMessage)
    else Confirm(Summary(
      SummaryField(f.fullName), SummaryField(f.email), SummaryField(f.gender),
      SummaryField(f.contact), SummaryField(f.username),
      PasswordSummary(f.password)))
  }

  /** No line of an accepted summary is blank, and the password line never
      contains a character of the password other than the bullet. */
  lemma SummaryNeverBlank(f: FormInput)
    ensures var o := Submit(true, f);
      && o.Confirm?
      && o.summary.fullName != "" && o.summary.email != "" && o.summary.gender != ""
      && o.summary.contact != "" && o.summary.username != "" && o.summary.password != ""
      && (forall c :: c in f.password && c != Bullet ==> c !in o.summary.password)
  {
  }

  /** The password input's `type` and the toggle button's label. */
  datatype PasswordView = PasswordView(inputType: string, buttonText: string)

  /** One click of the toggle: a `password` input becomes `text` with the
      label "Hide"; any other type becomes `password` with the label "Show". */
  function Toggle(v: PasswordView): (w: PasswordView)
    ensures (w.inputType == "text") <==> (v.inputType == "password")
    ensures (w.inputType == "password") <==> (v.inputType != "password")
    ensures w.buttonText == "Hide" <==> w.inputType == "text"
    ensures w.buttonText == "Show" <==> w.inputType == "password"
  {
    var isHidden := v.inputType == "password";
    PasswordView(if isHidden then "text" else "password", if isHidden then "Hide" else "Show")
  }

  /** The two states the toggle moves between: hidden with "Show", visible
      with "Hide". */
  predicate Consistent(v: PasswordView) {
    || (v.inputType == "password" && v.buttonText == "Show")
    || (v.inputType == "text" && v.buttonText == "Hide")
  }

  /** A click always lands in one of the two states, and two clicks from
      either state return to it. */
  lemma ToggleTwoState(v: PasswordView)
    ensures Consistent(Toggle(v))
    ensures Consistent(v) ==> Toggle(Toggle(v)) == v
    ensures Consistent(v) ==> Toggle(v) != v
  {
  }
}
