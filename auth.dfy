/**
 * The sign-up / sign-in form (pages/Auth.tsx): field-wise form updates, the
 * mode toggle, the consent guard of `handleSubmit`, and the user record the
 * simulated backend call produces.
 *
 * `handleSubmit` is two steps: the synchronous part, and the timer callback
 * that runs later. The callback sees the form and the mode as they were when
 * the form was submitted (it closes over that render's values), so a submit
 * that passes the guard queues a snapshot of both. The random id and the
 * timestamp are parameters of the callback.
 */
module Auth {
  import opened Users

  /** `formData`. */
  datatype Form = Form(name: string, email: string, password: string, consent: bool)

  const EmptyForm := Form("", "", "", false)

  /** The three text inputs, by their `name` attribute. */
  datatype TextField = NameField | EmailField | PasswordField

  /**
   * A change event of one of the form's inputs: a text input reports its
   * `value`, the `consent` checkbox its `checked`.
   */
  datatype InputEvent = TextInput(field: TextField, value: string) | Checkbox(checked: bool)

  const ConsentError := "You must consent to marketing communications to proceed."

  /** `handleInputChange`: the named field takes the event's value, or `checked` for the checkbox. */
  function ApplyChange(f: Form, e: InputEvent): Form {
    match e
    case Checkbox(checked) => f.(consent := checked)
    case TextInput(NameField, value) => f.(name := value)
    case TextInput(EmailField, value) => f.(email := value)
    case TextInput(PasswordField, value) => f.(password := value)
  }

  /** The name typed into the form, or, when it is empty, a placeholder that depends on the mode. */
  function DisplayName(name: string, isSignUp: bool): string {
    if name != "" then name else if isSignUp then "New User" else "Returning User"
  }

  /** The user the timer callback hands to `onAuthSuccess`. */
  function NewUser(f: Form, isSignUp: bool, id: string, createdAt: string): User {
    User(id, DisplayName(f.name, isSignUp), f.email, false, createdAt)
  }

  /** Whether the consent guard stops the submit. */
  predicate Blocked(f: Form, isSignUp: bool) {
    isSignUp && !f.consent
  }

  /** What a queued timer callback will build the user from. */
  datatype Submission = Submission(form: Form, isSignUp: bool)

  datatype AuthState = AuthState(isSignUp: bool, form: Form, error: string, loading: bool, pending: seq<Submission>)

  const Initial := AuthState(true, EmptyForm, "", false, [])

  function Change(s: AuthState, e: InputEvent): AuthState {
    s.(form := ApplyChange(s.form, e))
  }

  function Toggle(s: AuthState): AuthState {
    s.(isSignUp := !s.isSignUp)
  }

  /**
   * The synchronous part of `handleSubmit`: the error is cleared and loading
   * starts; without consent in sign-up mode the consent error is shown and
   * loading ends; otherwise the callback is queued.
   */
  function Submit(s: AuthState): AuthState {
    if Blocked(s.form, s.isSignUp) then s.(error := ConsentError, loading := false)
    else s.(error := "", loading := true, pending := s.pending + [Submission(s.form, s.isSignUp)])
  }

  /** The earliest queued callback runs: it produces its user and loading ends. */
  function Fire(s: AuthState, id: string, createdAt: string): (AuthState, User)
    requires |s.pending| > 0
  {
    var sub := s.pending[0];
    (s.(loading := false, pending := s.pending[1..]), NewUser(sub.form, sub.isSignUp, id, createdAt))
  }

  // ---------------------------------------------------------------------
  // Properties

  /** A change event changes exactly the field it names, and nothing else. */
  lemma ChangeOnlyNamedField(f: Form, e: InputEvent)
    ensures e.Checkbox? ==> ApplyChange(f, e) == f.(consent := e.checked)
    ensures e.TextInput? && e.field == NameField ==> ApplyChange(f, e) == f.(name := e.value)
    ensures e.TextInput? && e.field == EmailField ==> ApplyChange(f, e) == f.(email := e.value)
    ensures e.TextInput? && e.field == PasswordField ==> ApplyChange(f, e) == f.(password := e.value)
    ensures e.TextInput? ==> ApplyChange(f, e).consent == f.consent
    ensures e.Checkbox? ==> ApplyChange(f, e).name == f.name && ApplyChange(f, e).email == f.email && ApplyChange(f, e).password == f.password
  {
  }

  /** Replaying the same event changes nothing more. */
  lemma ChangeIdempotent(f: Form, e: InputEvent)
    ensures ApplyChange(ApplyChange(f, e), e) == ApplyChange(f, e)
  {
  }

  lemma ToggleFlips(s: AuthState)
    ensures Toggle(s).isSignUp == !s.isSignUp
    ensures Toggle(Toggle(s)) == s
  {
  }

  /** Sign-up without consent: the consent error, loading off, and nothing queued, so no user is ever produced. */
  lemma NoConsentNoUser(s: AuthState)
    requires s.isSignUp && !s.form.consent
    ensures Submit(s).error == ConsentError
    ensures !Submit(s).loading
    ensures Submit(s).pending == s.pending
  {
  }

  /** Sign-in is never stopped by the consent flag: the callback is queued whatever the checkbox holds. */
  lemma SignInNeverBlocked(s: AuthState)
    requires !s.isSignUp
    ensures Submit(s).pending == s.pending + [Submission(s.form, false)]
    ensures Submit(s).loading
  {
  }

  /** Every submit leaves the error either cleared or, only when blocked, the consent error. */
  lemma SubmitClearsError(s: AuthState)
    ensures Submit(s).error == if Blocked(s.form, s.isSignUp) then ConsentError else ""
    ensures Submit(s).loading <==> !Blocked(s.form, s.isSignUp)
  {
  }

  /** The produced user carries the form's email, is unverified, and has the form's name or the mode's fallback. */
  lemma NewUserFields(f: Form, isSignUp: bool, id: string, createdAt: string)
    ensures NewUser(f, isSignUp, id, createdAt).email == f.email
    ensures !NewUser(f, isSignUp, id, createdAt).isVerified
    ensures f.name != "" ==> NewUser(f, isSignUp, id, createdAt).name == f.name
    ensures f.name == "" && isSignUp ==> NewUser(f, isSignUp, id, createdAt).name == "New User"
    ensures f.name == "" && !isSignUp ==> NewUser(f, isSignUp, id, createdAt).name == "Returning User"
    ensures NewUser(f, isSignUp, id, createdAt).name != ""
    ensures NewUser(f, isSignUp, id, createdAt).id == id && NewUser(f, isSignUp, id, createdAt).createdAt == createdAt
  {
  }

  /**
   * Every queued submission passed the consent guard, and `loading` is on
   * exactly while one callback is queued.
   */
  ghost predicate Consistent(s: AuthState) {
    && (forall k :: 0 <= k < |s.pending| ==> !Blocked(s.pending[k].form, s.pending[k].isSignUp))
    && |s.pending| <= 1
    && (s.loading <==> |s.pending| == 1)
  }

  lemma InitialConsistent()
    ensures Consistent(Initial)
  {
  }

  /**
   * While loading, the submit button is disabled, so `Submit` only runs with
   * loading off: it keeps the invariant, and so do edits, the toggle and a
   * timer firing. A user produced by a callback therefore always comes from a
   * consenting sign-up or a sign-in.
   */
  lemma {:induction false} StepsPreserveConsistent(s: AuthState, e: InputEvent, id: string, createdAt: string)
    requires Consistent(s)
    ensures !s.loading ==> Consistent(Submit(s))
    ensures Consistent(Change(s, e)) && Consistent(Toggle(s))
    ensures |s.pending| > 0 ==> Consistent(Fire(s, id, createdAt).0)
    ensures |s.pending| > 0 ==> s.pending[0].isSignUp ==> s.pending[0].form.consent
  {
    if |s.pending| > 0 {
      assert !Blocked(s.pending[0].form, s.pending[0].isSignUp);
    }
  }

  // ---------------------------------------------------------------------
  // The component

  class AuthForm {
    var isSignUp: bool
    var form: Form
    var error: string
    var loading: bool
    var pending: seq<Submission>

    function State(): AuthState
      reads this
    {
      AuthState(isSignUp, form, error, loading, pending)
    }

    constructor()
      ensures State() == Initial
    {
      isSignUp := true;
      form := EmptyForm;
      error := "";
      loading := false;
      pending := [];
    }

    method HandleInputChange(e: InputEvent)
      modifies this
      ensures State() == Change(old(State()), e)
    {
      match e
      case Checkbox(checked) => form := form.(consent := checked);
      case TextInput(field, value) =>
        match field
        case NameField => form := form.(name := value);
        case EmailField => form := form.(email := value);
        case PasswordField => form := form.(password := value);
    }

    /** The mode link's click handler. */
    method ToggleMode()
      modifies this
      ensures State() == Toggle(old(State()))
    {
      isSignUp := !isSignUp;
    }

    /** The submit button is disabled while loading, so a submit only happens with loading off. */
    method HandleSubmit()
      requires !loading
      modifies this
      ensures State() == Submit(old(State()))
    {
      error := "";
      loading := true;
      if isSignUp && !form.consent {
        error := ConsentError;
        loading := false;
        return;
      }
      pending := pending + [Submission(form, isSignUp)];
    }

    /** The earliest queued timer fires; `user` is what it passes to `onAuthSuccess`. */
    method TimerFires(id: string, createdAt: string) returns (user: User)
      requires |pending| > 0
      modifies this
      ensures (State(), user) == Fire(old(State()), id, createdAt)
    {
      var sub := pending[0];
      user := User(id, DisplayName(sub.form.name, sub.isSignUp), sub.form.email, false, createdAt);
      pending := pending[1..];
      loading := false;
    }
  }
}
