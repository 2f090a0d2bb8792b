/**
 * The mobile session as a value: its state, one function per operation that
 * gives the outcome and the next state, and what holds of every run.
 */
module SessionModel {
  import opened Elements

  datatype Option<T> = None | Some(value: T)

  /** The form the session keeps: typed credentials, the terms box and the stream status. */
  datatype Form = Form(email: Option<string>, password: Option<string>, terms: bool, status: string)

  /** The form after every reset: nothing typed, terms unticked, no status. */
  const EmptyForm: Form := Form(None, None, false, "")

  datatype SessionState = SessionState(launched: bool, screen: Screen, form: Form)

  /** The state of a newly constructed session: app not launched. */
  const Fresh: SessionState := SessionState(false, Welcome, EmptyForm)

  /** The state right after the app is launched, whatever came before. */
  const Launched: SessionState := SessionState(true, Welcome, EmptyForm)

  /** The failures an operation reports, with the element or screen that caused them. */
  datatype Error =
    | UnsupportedPlatform(platform: string)
    | NotVisible(screen: Screen, element: string)
    | VisibilityTimeout(screen: Screen, element: string)
    | UnsupportedInput(element: string)
    | UnsupportedCheckbox(element: string)
    | UnsupportedLabel(element: string)

  datatype Result<T> = Ok(value: T) | Err(error: Error)

  /** The two accepted demo addresses and the two accepted demo passwords. */
  const ValidEmails: set<string> := {"demo_app1@nanit.com", "demo_app2@nanit.com"}
  const ValidPasswords: set<string> := {"12341234", "12344321"}

  /**
   * A login attempt with this form succeeds: any one of an unset or unlisted
   * email, an unset or unlisted password, or unticked terms refuses it.
   */
  predicate LoginAccepted(f: Form): (r: bool)
    ensures f.email.None? || f.email.value !in ValidEmails ==> !r
    ensures f.password.None? || f.password.value !in ValidPasswords ==> !r
    ensures !f.terms ==> !r
  {
    f.email.Some? && f.email.value in ValidEmails
    && f.password.Some? && f.password.value in ValidPasswords
    && f.terms
  }

  /** Whether an element is visible: no element is while the app is closed, nor any unknown id. */
  function IsVisible(st: SessionState, e: string): (r: bool)
    ensures r ==> st.launched
    ensures r ==> e in KnownIds
  {
    st.launched && e in VisibleOn(st.screen)
  }

  /** Closing the app: only the launched flag changes. */
  function CloseApp(st: SessionState): (r: SessionState)
    ensures !r.launched && r.screen == st.screen && r.form == st.form
    ensures forall e :: !IsVisible(r, e)
  {
    st.(launched := false)
  }

  /**
   * Evaluating the login form: the screen becomes the live stream and the
   * status "streaming" exactly when the credentials and terms are accepted;
   * otherwise the screen stays and the status becomes "login_failed". The
   * typed credentials and the terms box are never touched.
   */
  function AttemptLogin(st: SessionState): (r: SessionState)
    ensures r.launched == st.launched
    ensures r.form.email == st.form.email && r.form.password == st.form.password
    ensures r.form.terms == st.form.terms
    ensures r.screen == LiveStream <==> LoginAccepted(st.form) || st.screen == LiveStream
    ensures r.form.status == "streaming" <==> LoginAccepted(st.form)
    ensures !LoginAccepted(st.form) ==> r.screen == st.screen && r.form.status == "login_failed"
  {
    if LoginAccepted(st.form) then
      st.(screen := LiveStream, form := st.form.(status := "streaming"))
    else
      st.(form := st.form.(status := "login_failed"))
  }

  /**
   * Clicking an element. It fails, changing nothing, unless the element is
   * visible. A login button moves the welcome screen to the login screen and
   * submits the form on the login screen; every other visible element is a
   * no-op. A click never changes the launched flag or the typed credentials.
   */
  function Click(st: SessionState, e: string): (r: Result<SessionState>)
    ensures r.Err? <==> !IsVisible(st, e)
    ensures r.Err? ==> r.error == NotVisible(st.screen, e)
    ensures r.Ok? ==> r.value.launched == st.launched
    ensures r.Ok? ==> r.value.form.email == st.form.email && r.value.form.password == st.form.password
    ensures r.Ok? ==> r.value.form.terms == st.form.terms
    ensures r.Ok? && r.value != st ==> e in LoginButtons && st.screen != LiveStream
    ensures r.Ok? && st.screen == Welcome ==> r.value.form == st.form
  {
    if !IsVisible(st, e) then Err(NotVisible(st.screen, e))
    else if e in LoginButtons && st.screen == Welcome then Ok(st.(screen := Login))
    else if e in LoginButtons && st.screen == Login then Ok(AttemptLogin(st))
    else Ok(st)
  }

  /**
   * Typing into an element. Visibility is checked first, then that the id is
   * an email or password input. On success exactly one of email and password
   * is replaced by the text, and nothing else changes.
   */
  function Type(st: SessionState, e: string, text: string): (r: Result<SessionState>)
    ensures !IsVisible(st, e) ==> r == Err(NotVisible(st.screen, e))
    ensures IsVisible(st, e) && e !in EmailInputs && e !in PasswordInputs ==> r == Err(UnsupportedInput(e))
    ensures r.Ok? ==> st.launched && st.screen == Login
    ensures r.Ok? && e in EmailInputs ==> r.value == st.(form := st.form.(email := Some(text)))
    ensures r.Ok? && e !in EmailInputs ==> r.value == st.(form := st.form.(password := Some(text)))
    ensures IsVisible(st, e) && e in EmailInputs ==> r == Ok(st.(form := st.form.(email := Some(text))))
    ensures IsVisible(st, e) && e in PasswordInputs ==> r == Ok(st.(form := st.form.(password := Some(text))))
  {
    if !IsVisible(st, e) then Err(NotVisible(st.screen, e))
    else if e in EmailInputs then Ok(st.(form := st.form.(email := Some(text))))
    else if e in PasswordInputs then Ok(st.(form := st.form.(password := Some(text))))
    else Err(UnsupportedInput(e))
  }

  /**
   * Ticking or unticking a checkbox. Visibility is checked first, then that
   * the id is a terms checkbox. On success only the terms flag changes.
   */
  function SetCheckbox(st: SessionState, e: string, checked: bool): (r: Result<SessionState>)
    ensures !IsVisible(st, e) ==> r == Err(NotVisible(st.screen, e))
    ensures IsVisible(st, e) && e !in TermsCheckboxes ==> r == Err(UnsupportedCheckbox(e))
    ensures r.Ok? ==> st.launched && st.screen == Login
    ensures r.Ok? ==> r.value == st.(form := st.form.(terms := checked))
    ensures IsVisible(st, e) && e in TermsCheckboxes ==> r == Ok(st.(form := st.form.(terms := checked)))
  {
    if !IsVisible(st, e) then Err(NotVisible(st.screen, e))
    else if e in TermsCheckboxes then Ok(st.(form := st.form.(terms := checked)))
    else Err(UnsupportedCheckbox(e))
  }

  /**
   * Reading a label. Visibility is checked first, then that the id is a
   * stream status label, which is shown only on the live stream screen.
   */
  function GetText(st: SessionState, e: string): (r: Result<string>)
    ensures !IsVisible(st, e) ==> r == Err(NotVisible(st.screen, e))
    ensures IsVisible(st, e) && e !in StatusLabels ==> r == Err(UnsupportedLabel(e))
    ensures r.Ok? ==> st.launched && st.screen == LiveStream && r.value == st.form.status
    ensures IsVisible(st, e) && e in StatusLabels ==> r == Ok(st.form.status)
  {
    if !IsVisible(st, e) then Err(NotVisible(st.screen, e))
    else if e in StatusLabels then Ok(st.form.status)
    else Err(UnsupportedLabel(e))
  }

  /**
   * Waiting for an element for a number of polls. As nothing else changes
   * the state between polls, the wait succeeds exactly when there is at
   * least one poll and the element is visible; otherwise it times out.
   */
  function WaitForVisibility(st: SessionState, e: string, polls: int): (r: Result<bool>)
    ensures r.Ok? <==> polls > 0 && IsVisible(st, e)
    ensures r.Ok? ==> r.value
    ensures r.Err? ==> r.error == VisibilityTimeout(st.screen, e)
  {
    if polls > 0 && IsVisible(st, e) then Ok(true) else Err(VisibilityTimeout(st.screen, e))
  }

  /** The calls a test can make on a session. */
  datatype Action =
    | DoOpen
    | DoClose
    | DoClick(element: string)
    | DoType(element: string, text: string)
    | DoSetCheckbox(element: string, checked: bool)
    | DoGetText(element: string)
    | DoWait(element: string, polls: int)

  /** The state after one call; a failing call raises and so ends the run. */
  function Step(st: SessionState, a: Action): Result<SessionState>
  {
    match a
    case DoOpen => Ok(Launched)
    case DoClose => Ok(CloseApp(st))
    case DoClick(e) => Click(st, e)
    case DoType(e, text) => Type(st, e, text)
    case DoSetCheckbox(e, checked) => SetCheckbox(st, e, checked)
    case DoGetText(e) => (match GetText(st, e) case Ok(_) => Ok(st) case Err(err) => Err(err))
    case DoWait(e, polls) => (match WaitForVisibility(st, e, polls) case Ok(_) => Ok(st) case Err(err) => Err(err))
  }

  /** A sequence of calls, stopped by the first failure. */
  function Run(st: SessionState, acts: seq<Action>): Result<SessionState>
    decreases |acts|
  {
    if acts == [] then Ok(st)
    else
      match Step(st, acts[0])
      case Err(err) => Err(err)
      case Ok(next) => Run(next, acts[1..])
  }

  /**
   * What every reachable state satisfies: the welcome screen shows an empty
   * form, the login screen a status that is empty or "login_failed", and the
   * live stream is shown, with status "streaming", only for accepted
   * credentials and terms.
   */
  ghost predicate Consistent(st: SessionState)
  {
    && (st.screen == Welcome ==> st.form == EmptyForm)
    && (st.screen == Login ==> st.form.status == "" || st.form.status == "login_failed")
    && (st.screen == LiveStream ==> st.form.status == "streaming" && LoginAccepted(st.form))
  }

  lemma StepPreservesConsistency(st: SessionState, a: Action)
    requires Consistent(st)
    ensures Step(st, a).Ok? ==> Consistent(Step(st, a).value)
  {
  }

  lemma {:induction false} RunPreservesConsistency(st: SessionState, acts: seq<Action>)
    requires Consistent(st)
    ensures Run(st, acts).Ok? ==> Consistent(Run(st, acts).value)
    decreases |acts|
  {
    if acts != [] {
      StepPreservesConsistency(st, acts[0]);
      if Step(st, acts[0]).Ok? {
        RunPreservesConsistency(Step(st, acts[0]).value, acts[1..]);
      }
    }
  }

  /**
   * From a new session, whatever the calls: the stream status is one of "",
   * "streaming" and "login_failed", it is "streaming" exactly on the live
   * stream screen, and that screen is reached only with accepted credentials.
   */
  lemma ReachableStates(acts: seq<Action>)
    ensures Run(Fresh, acts).Ok? ==>
      var s := Run(Fresh, acts).value;
      && (s.form.status == "" || s.form.status == "streaming" || s.form.status == "login_failed")
      && (s.screen == LiveStream <==> s.form.status == "streaming")
      && (s.screen == LiveStream ==> LoginAccepted(s.form))
      && (s.screen == Welcome ==> s.form == EmptyForm)
  {
    RunPreservesConsistency(Fresh, acts);
  }

  /** Running two call sequences one after the other is running their concatenation. */
  lemma {:induction false} RunAppend(st: SessionState, xs: seq<Action>, ys: seq<Action>)
    ensures Run(st, xs + ys) == (match Run(st, xs) case Ok(mid) => Run(mid, ys) case Err(err) => Err(err))
    decreases |xs|
  {
    if xs == [] {
      assert xs + ys == ys;
    } else {
      assert (xs + ys)[0] == xs[0];
      assert (xs + ys)[1..] == xs[1..] + ys;
      if Step(st, xs[0]).Ok? {
        RunAppend(Step(st, xs[0]).value, xs[1..], ys);
      }
    }
  }

  /**
   * Launch, anything, close, launch: when the first part completes, the
   * session is back at the welcome screen with an empty form, whatever the
   * state reached before closing.
   */
  lemma RelaunchResets(st: SessionState, xs: seq<Action>)
    requires Run(st, [DoOpen] + xs).Ok?
    ensures Run(st, [DoOpen] + xs + [DoClose, DoOpen]) == Ok(Launched)
  {
    RunAppend(st, [DoOpen] + xs, [DoClose, DoOpen]);
  }

  /** On a closed app every element call fails; only opening and closing succeed. */
  lemma ClosedSessionRejects(st: SessionState, a: Action)
    requires !st.launched
    ensures Step(st, a).Ok? <==> a.DoOpen? || a.DoClose?
    ensures a.DoClose? ==> Step(st, a) == Ok(st)
  {
  }

  /**
   * With the app launched on a screen, the visible elements are exactly
   * those of the screen's table entry.
   */
  lemma VisibleExactly(st: SessionState, e: string)
    requires st.launched
    ensures IsVisible(st, e) <==> e in VisibleOn(st.screen)
  {
  }

  /** A login button on the welcome screen leads to the login screen, form untouched. */
  lemma WelcomeLoginNavigates(st: SessionState, p: Platform)
    requires st.launched && st.screen == Welcome
    ensures Click(st, Id(LoginButton, p)) == Ok(st.(screen := Login))
  {
  }

  /**
   * A login button on the login screen: the live stream with status
   * "streaming" when email, password and terms are all accepted, and
   * otherwise the login screen with status "login_failed".
   */
  lemma LoginOutcome(st: SessionState, p: Platform)
    requires st.launched && st.screen == Login
    ensures LoginAccepted(st.form) ==>
      Click(st, Id(LoginButton, p)) == Ok(st.(screen := LiveStream, form := st.form.(status := "streaming")))
    ensures !LoginAccepted(st.form) ==>
      Click(st, Id(LoginButton, p)) == Ok(st.(form := st.form.(status := "login_failed")))
  {
  }

  /** Results of a call agree up to the element id named in an error. */
  predicate SameEffect<T(==)>(r1: Result<T>, r2: Result<T>)
  {
    r1.Ok? == r2.Ok? && (r1.Ok? ==> r1.value == r2.value)
  }

  /** The ios and android ids of a widget are interchangeable on every session. */
  lemma PlatformsInterchangeable(st: SessionState, w: Widget, text: string, checked: bool)
    ensures IsVisible(st, Id(w, Ios)) == IsVisible(st, Id(w, Android))
    ensures SameEffect(Click(st, Id(w, Ios)), Click(st, Id(w, Android)))
    ensures SameEffect(Type(st, Id(w, Ios), text), Type(st, Id(w, Android), text))
    ensures SameEffect(SetCheckbox(st, Id(w, Ios), checked), SetCheckbox(st, Id(w, Android), checked))
    ensures SameEffect(GetText(st, Id(w, Ios)), GetText(st, Id(w, Android)))
  {
  }
}
