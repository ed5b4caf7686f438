/**
 * The admin app's sign-up page: a form whose role is fixed to `student`, an
 * auth sign-up, then the `users` row, then navigation to the login page.
 */
module AdminSignupPage {
  import opened Common
  import opened AuthTypes
  import opened UsersStore

  datatype SignupForm = SignupForm(fullName: string, email: string, password: string, role: string)

  /** The inputs the form renders with `onChange`; the role input is hidden and fixed. */
  datatype Field = FullName | Email | Password

  function InitialForm(): SignupForm {
    SignupForm("", "", "", "student")
  }

  /** `handleChange`: `{ ...formData, [name]: value }`. */
  function HandleChange(f: SignupForm, name: Field, value: string): (g: SignupForm)
    ensures g.role == f.role
    ensures name == FullName ==> g == f.(fullName := value)
    ensures name == Email ==> g == f.(email := value)
    ensures name == Password ==> g == f.(password := value)
  {
    match name
      case FullName => f.(fullName := value)
      case Email => f.(email := value)
      case Password => f.(password := value)
  }

  /** The form after a sequence of edits, in order. */
  function ApplyEdits(f: SignupForm, edits: seq<(Field, string)>): SignupForm
    decreases |edits|
  {
    if edits == [] then f else ApplyEdits(HandleChange(f, edits[0].0, edits[0].1), edits[1..])
  }

  /** No sequence of edits changes the role: every sign-up from this page submits `student`. */
  lemma {:induction false} EditsKeepRole(f: SignupForm, edits: seq<(Field, string)>)
    ensures ApplyEdits(f, edits).role == f.role
    ensures ApplyEdits(InitialForm(), edits).role == "student"
    decreases |edits|
  {
    if edits != [] {
      EditsKeepRole(HandleChange(f, edits[0].0, edits[0].1), edits[1..]);
      EditsKeepRole(HandleChange(InitialForm(), edits[0].0, edits[0].1), edits[1..]);
    }
  }

  const CreatedTarget: string := "/login?message=Account created successfully!"

  /** What the page shows after submit: an error message, and where it navigated. */
  datatype SubmitResult = SubmitResult(error: Option<string>, navigate: Option<string>)

  /**
   * `handleSubmit`: an auth error is shown and nothing is inserted; without a
   * returned user nothing more happens; otherwise the row with the auth id and
   * the form's name, email and role is inserted, any insert error (the
   * primary-key violation for a taken id included) is shown, and success navigates to the login page.
   */
  method HandleSubmit(users: UsersTable, form: SignupForm, outcome: SignUpOutcome, refusal: Option<DbError>)
    returns (r: SubmitResult)
    requires users.Valid()
    modifies users
    ensures users.Valid()
    ensures outcome.SignUpError? ==> r == SubmitResult(Some(outcome.message), None) && users.rows == old(users.rows)
    ensures outcome.SignedUpWithoutUser? ==> r == SubmitResult(None, None) && users.rows == old(users.rows)
    ensures outcome.SignedUp? ==>
      var row := UserRow(outcome.user.id, Some(form.fullName), Some(form.email), form.role);
      if HasId(old(users.rows), row.id) then
        r == SubmitResult(Some(DuplicateUser.message), None) && users.rows == old(users.rows)
      else if refusal.Some? then
        r == SubmitResult(Some(refusal.value.message), None) && users.rows == old(users.rows)
      else r == SubmitResult(None, Some(CreatedTarget)) && users.rows == [row] + old(users.rows)
  {
    match outcome {
      case SignUpError(message) =>
        return SubmitResult(Some(message), None);
      case SignedUpWithoutUser =>
        return SubmitResult(None, None);
      case SignedUp(u) =>
        var err := users.Insert(UserRow(u.id, Some(form.fullName), Some(form.email), form.role), refusal);
        if err.Some? {
          return SubmitResult(Some(err.value.message), None);
        }
        return SubmitResult(None, Some(CreatedTarget));
    }
  }
}
