/**
 * The page objects as the calls they make on a session, and the test suite's
 * flows run against the model and against the session object.
 */
module Scenarios {
  import opened Elements
  import opened SessionModel
  import opened Session

  // Each page-object action is one session call with the element id of the page's platform.

  /** Tapping login addresses a login button, which the welcome and login screens both show. */
  function TapLogin(p: Platform): (a: Action)
    ensures a.DoClick? && a.element in LoginButtons
    ensures a.element in VisibleOn(Welcome) && a.element in VisibleOn(Login)
  {
    DoClick(Id(LoginButton, p))
  }

  /** Entering the email types the given text into an email input of the login screen. */
  function EnterEmail(p: Platform, email: string): (a: Action)
    ensures a.DoType? && a.element in EmailInputs && a.element in VisibleOn(Login) && a.text == email
  {
    DoType(Id(EmailInput, p), email)
  }

  /** Entering the password types the given text into a password input of the login screen. */
  function EnterPassword(p: Platform, password: string): (a: Action)
    ensures a.DoType? && a.element in PasswordInputs && a.element in VisibleOn(Login) && a.text == password
  {
    DoType(Id(PasswordInput, p), password)
  }

  /** Accepting the terms ticks a terms checkbox of the login screen. */
  function AcceptTerms(p: Platform): (a: Action)
    ensures a.DoSetCheckbox? && a.element in TermsCheckboxes && a.element in VisibleOn(Login) && a.checked
  {
    DoSetCheckbox(Id(TermsCheckbox, p), true)
  }

  /** Waiting until a page is visible polls for a known id of that page's widget. */
  function WaitUntilVisible(p: Platform, w: Widget, polls: int): (a: Action)
    ensures a.DoWait? && a.element in KnownIds && a.polls == polls
  {
    DoWait(Id(w, p), polls)
  }

  /**
   * The tests' flow: open the app, tap login on the welcome page, enter the
   * credentials, accept the terms and tap login again. After opening, every
   * call addresses an element of the login screen, and the last submits.
   */
  function LoginFlow(p: Platform, email: string, password: string): (r: seq<Action>)
    ensures |r| == 6 && r[0] == DoOpen && r[5].DoClick? && r[5].element in LoginButtons
    ensures forall i :: 1 <= i < |r| ==> !r[i].DoOpen? && !r[i].DoClose? && r[i].element in VisibleOn(Login)
  {
    [DoOpen, TapLogin(p), EnterEmail(p, email), EnterPassword(p, password), AcceptTerms(p), TapLogin(p)]
  }

  /**
   * From any state, the flow completes without an error. It reaches the live
   * stream with status "streaming" exactly for an accepted email and
   * password; otherwise it stays on the login screen with "login_failed",
   * where the status label is not visible.
   */
  lemma LoginFlowOutcome(st: SessionState, p: Platform, email: string, password: string)
    ensures Run(st, LoginFlow(p, email, password)).Ok?
    ensures var s := Run(st, LoginFlow(p, email, password)).value;
      var accepted := email in ValidEmails && password in ValidPasswords;
      && s.launched
      && (s.screen == LiveStream <==> accepted)
      && (!accepted ==> s.screen == Login)
      && s.form.status == (if accepted then "streaming" else "login_failed")
      && GetText(s, Id(StreamStatusLabel, p))
         == (if accepted then Ok("streaming") else Err(NotVisible(Login, Id(StreamStatusLabel, p))))
  {
    var s1 := Launched;
    var s2 := s1.(screen := Login);
    var s3 := s2.(form := s2.form.(email := Some(email)));
    var s4 := s3.(form := s3.form.(password := Some(password)));
    var s5 := s4.(form := s4.form.(terms := true));
    assert Step(st, DoOpen) == Ok(s1);
    assert Step(s1, TapLogin(p)) == Ok(s2);
    assert Step(s2, EnterEmail(p, email)) == Ok(s3);
    assert Step(s3, EnterPassword(p, password)) == Ok(s4);
    assert Step(s4, AcceptTerms(p)) == Ok(s5);
    var s6 := AttemptLogin(s5);
    assert Step(s5, TapLogin(p)) == Ok(s6);
    var flow := LoginFlow(p, email, password);
    assert Run(s5, flow[5..]) == Run(s6, flow[6..]) == Ok(s6);
    assert Run(s4, flow[4..]) == Run(s5, flow[5..]);
    assert Run(s3, flow[3..]) == Run(s4, flow[4..]);
    assert Run(s2, flow[2..]) == Run(s3, flow[3..]);
    assert Run(s1, flow[1..]) == Run(s2, flow[2..]);
    assert Run(st, flow) == Run(s1, flow[1..]);
  }

  /** Scenario: android, first demo account, accepted password: the stream is live. */
  lemma AndroidDemoLoginStreams()
    ensures var r := Run(Fresh, LoginFlow(Android, "demo_app1@nanit.com", "12341234"));
      r.Ok? && GetText(r.value, Id(StreamStatusLabel, Android)) == Ok("streaming")
  {
    LoginFlowOutcome(Fresh, Android, "demo_app1@nanit.com", "12341234");
  }

  /** Scenario: the same with a wrong password: still on login, status "login_failed". */
  lemma WrongPasswordFails()
    ensures var r := Run(Fresh, LoginFlow(Android, "demo_app1@nanit.com", "wrongpass"));
      r.Ok? && r.value.screen == Login && r.value.form.status == "login_failed"
  {
    LoginFlowOutcome(Fresh, Android, "demo_app1@nanit.com", "wrongpass");
  }

  /** Scenario: reading the status from an email input is an unsupported label. */
  lemma StatusFromEmailInputUnsupported(p: Platform)
    ensures var r := Run(Fresh, [DoOpen, TapLogin(p)]);
      r.Ok? && GetText(r.value, Id(EmailInput, p)) == Err(UnsupportedLabel(Id(EmailInput, p)))
  {
    var acts := [DoOpen, TapLogin(p)];
    assert Run(Launched, acts[1..]) == Run(Launched.(screen := Login), acts[2..]);
  }

  /**
   * Scenario: waiting on the welcome screen for the stream container times
   * out, and so does a wait with no polls for the login button that is shown.
   */
  lemma WaitsTimeOut(p: Platform, polls: int)
    ensures Run(Fresh, [DoOpen, WaitUntilVisible(p, LiveStreamContainer, polls)])
      == Err(VisibilityTimeout(Welcome, Id(LiveStreamContainer, p)))
    ensures Run(Fresh, [DoOpen, WaitUntilVisible(p, LoginButton, 0)])
      == Err(VisibilityTimeout(Welcome, Id(LoginButton, p)))
    ensures polls > 0 ==> Run(Fresh, [DoOpen, WaitUntilVisible(p, LoginButton, polls)]) == Ok(Launched)
  {
    var hidden := [DoOpen, WaitUntilVisible(p, LiveStreamContainer, polls)];
    assert Run(Fresh, hidden) == Run(Launched, hidden[1..]);
    var noPolls := [DoOpen, WaitUntilVisible(p, LoginButton, 0)];
    assert Run(Fresh, noPolls) == Run(Launched, noPolls[1..]);
    var shown := [DoOpen, WaitUntilVisible(p, LoginButton, polls)];
    assert polls > 0 ==> Run(Launched, shown[1..]) == Run(Launched, shown[2..]);
  }

  /**
   * The tests' flow on a session object created for the platform: the
   * status read at the end is "streaming" for accepted credentials, and
   * otherwise the status label is not visible on the login screen.
   */
  method DeviceLoginFlow(p: Platform, email: string, password: string) returns (status: Result<string>)
    ensures status.Ok? <==> email in ValidEmails && password in ValidPasswords
    ensures status.Ok? ==> status.value == "streaming"
    ensures status.Err? ==> status.error == NotVisible(Login, Id(StreamStatusLabel, p))
  {
    var created := MobileSession.Create(PlatformName(p), "local", map[]);
    var session := created.value;
    session.Open();
    var shown := session.WaitForVisibility(Id(LoginButton, p), 30);
    assert shown == Ok(true);
    var o := session.Click(Id(LoginButton, p));
    assert o == Pass && session.screen == Login;
    o := session.Type(Id(EmailInput, p), email);
    assert o == Pass;
    o := session.Type(Id(PasswordInput, p), password);
    assert o == Pass;
    o := session.SetCheckbox(Id(TermsCheckbox, p), true);
    assert o == Pass && session.form.terms;
    o := session.Click(Id(LoginButton, p));
    assert o == Pass;
    status := session.GetText(Id(StreamStatusLabel, p));
  }

  /** Scenario: typing into the email input before the app is launched is refused. */
  method TypeBeforeLaunch(p: Platform, email: string) returns (r: Outcome)
    ensures r == Fail(NotVisible(Welcome, Id(EmailInput, p)))
  {
    var created := MobileSession.Create(PlatformName(p), "local", map[]);
    var session := created.value;
    r := session.Type(Id(EmailInput, p), email);
  }

  /** Closing the app hides every element, whatever screen it was on. */
  method CloseHidesAll(session: MobileSession, e: string) returns (visible: bool)
    requires session.Valid()
    modifies session
    ensures !visible
    ensures session.screen == old(session.screen) && session.form == old(session.form)
  {
    session.Close();
    visible := session.IsVisible(e);
  }
}
