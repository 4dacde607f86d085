/** The registration form of client/src/Register.js: the field update of
    `handleChange` and the account-number check of `handleSubmit`. */
module RegisterForm {
  import opened Patterns

  /** The form state: field name to text. */
  type Form = map<string, string>

  /** `useState({ fullName: '', idNumber: '', accountNumber: '', password: '' })`. */
  const InitialForm: Form :=
    map["fullName" := "", "idNumber" := "", "accountNumber" := "", "password" := ""]

  /** `setForm({ ...form, [e.target.name]: e.target.value })`. */
  function HandleChange(form: Form, name: string, value: string): (r: Form)
    ensures r.Keys == form.Keys + {name}
    ensures r[name] == value
    ensures forall k :: k in form && k != name ==> r[k] == form[k]
  {
    form[name := value]
  }

  /** `form.accountNumber` as `regex.test` sees it: a missing field is
      `undefined`, which the test reads as the text "undefined". */
  function AccountNumberOf(form: Form): string
  {
    if "accountNumber" in form then form["accountNumber"] else "undefined"
  }

  /** What `handleSubmit` does: alert and return, or post the whole form. */
  datatype SubmitAction = InvalidAccountAlert | PostRegister(body: Form)

  function HandleSubmit(form: Form): (r: SubmitAction)
    ensures r.PostRegister? ==> r.body == form
    ensures r.PostRegister? <==> Matches(AccountNumberPattern, AccountNumberOf(form))
  {
    if !Matches(AccountNumberPattern, AccountNumberOf(form)) then InvalidAccountAlert
    else PostRegister(form)
  }

  /** The request is sent exactly for a non-empty account number made only of
      ASCII letters and digits; anything else alerts before any request. */
  lemma SubmitDecision(form: Form)
    requires "accountNumber" in form
    ensures var a := form["accountNumber"];
      HandleSubmit(form) == (if a != [] && forall i :: 0 <= i < |a| ==> IsLower(a[i]) || IsUpper(a[i]) || IsDigit(a[i])
                             then PostRegister(form) else InvalidAccountAlert)
  {
    AccountNumberShape(form["accountNumber"]);
  }

  lemma EmptyAccountNumberRejected(form: Form)
    requires "accountNumber" in form && form["accountNumber"] == ""
    ensures HandleSubmit(form) == InvalidAccountAlert
  {
  }

  /** A space, a hyphen, an accented letter or any other character outside
      A-Z, a-z, 0-9 makes the account number invalid. */
  lemma ForeignCharacterRejected(form: Form, i: nat)
    requires "accountNumber" in form && i < |form["accountNumber"]|
    requires var c := form["accountNumber"][i]; !(IsLower(c) || IsUpper(c) || IsDigit(c))
    ensures HandleSubmit(form) == InvalidAccountAlert
  {
    SubmitDecision(form);
  }

  /** Editing any other field leaves the decision as it was. */
  lemma OtherFieldsDoNotMatter(form: Form, name: string, value: string)
    requires name != "accountNumber"
    ensures HandleSubmit(HandleChange(form, name, value)).PostRegister?
        == HandleSubmit(form).PostRegister?
  {
  }

  /** The form after a sequence of `handleChange` events. */
  function Edited(form: Form, edits: seq<(string, string)>): Form
    decreases |edits|
  {
    if edits == [] then form else Edited(HandleChange(form, edits[0].0, edits[0].1), edits[1..])
  }

  /** Starting from the initial state, the four fields stay present, so the
      check always sees the typed account number, never `undefined`. */
  lemma {:induction false} FieldsStayPresent(form: Form, edits: seq<(string, string)>)
    requires InitialForm.Keys <= form.Keys
    ensures InitialForm.Keys <= Edited(form, edits).Keys
    ensures "accountNumber" in Edited(form, edits)
    decreases |edits|
  {
    if edits != [] {
      FieldsStayPresent(HandleChange(form, edits[0].0, edits[0].1), edits[1..]);
    } else {
      assert "accountNumber" in InitialForm;
    }
  }
}
