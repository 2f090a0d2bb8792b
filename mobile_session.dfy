/**
 * The mobile session object: its fields are updated in place by the
 * lifecycle and element methods, each proved to produce the state that the
 * matching function of SessionModel gives.
 */
module Session {
  import opened Elements
  import opened SessionModel

  /** An operation that returns nothing and may raise. */
  datatype Outcome = Pass | Fail(error: Error)

  /** What the session reports about itself. */
  datatype Snapshot = Snapshot(
    sessionType: string,
    env: string,
    platform: string,
    appLaunched: bool,
    currentScreen: string,
    state: Form,
    metadata: map<string, string>)

  class MobileSession {
    const platform: string
    const env: string
    const metadata: map<string, string>

    var launched: bool
    var screen: Screen
    var form: Form

    /** The session's state as a value of the model. */
    function State(): SessionState
      reads this
    {
      SessionState(launched, screen, form)
    }

    /** The platform is a supported one and the state is one the flow can reach. */
    ghost predicate Valid()
      reads this
    {
      platform in SupportedPlatforms && Consistent(State())
    }

    constructor (platform: string, env: string, metadata: map<string, string>)
      requires platform in SupportedPlatforms
      ensures Valid()
      ensures this.platform == platform && this.env == env && this.metadata == metadata
      ensures State() == Fresh
    {
      this.platform := platform;
      this.env := env;
      this.metadata := metadata;
      launched := false;
      screen := Welcome;
      new;
      ResetState();
    }

    /** Creating a session fails for a platform other than ios and android. */
    static method Create(platform: string, env: string, metadata: map<string, string>)
      returns (r: Result<MobileSession>)
      ensures r.Err? <==> platform !in SupportedPlatforms
      ensures r.Err? ==> r.error == UnsupportedPlatform(platform)
      ensures r.Ok? ==> fresh(r.value) && r.value.Valid() && r.value.State() == Fresh
      ensures r.Ok? ==> r.value.platform == platform && r.value.env == env && r.value.metadata == metadata
    {
      if platform !in SupportedPlatforms {
        return Err(UnsupportedPlatform(platform));
      }
      var session := new MobileSession(platform, env, metadata);
      return Ok(session);
    }

    function DumpState(): (s: Snapshot)
      reads this
      ensures s.sessionType == "mobile" && s.env == env && s.platform == platform
      ensures s.metadata == metadata
      ensures s.appLaunched == launched && s.state == form
      ensures s.currentScreen == ScreenName(screen)
    {
      Snapshot("mobile", env, platform, launched, ScreenName(screen), form, metadata)
    }

    method Open()
      requires Valid()
      modifies this
      ensures Valid() && State() == Launched
    {
      LaunchApp();
    }

    method Close()
      requires Valid()
      modifies this
      ensures Valid() && State() == SessionModel.CloseApp(old(State()))
    {
      CloseApp();
    }

    /** Launching resets the screen and the form whatever the state was. */
    method LaunchApp()
      requires Valid()
      modifies this
      ensures Valid() && State() == Launched
    {
      launched := true;
      screen := Welcome;
      ResetState();
    }

    method CloseApp()
      requires Valid()
      modifies this
      ensures Valid() && State() == SessionModel.CloseApp(old(State()))
    {
      launched := false;
    }

    /** No element is visible while the app is closed; when open, exactly the current screen's ids are. */
    function IsVisible(e: string): (r: bool)
      reads this
      ensures r ==> launched && e in KnownIds
      ensures launched ==> (r <==> e in VisibleOn(screen))
    {
      SessionModel.IsVisible(State(), e)
    }

    /**
     * Polls visibility up to `polls` times. The state cannot change between
     * polls, so the result is the model's.
     */
    method WaitForVisibility(e: string, polls: int) returns (r: Result<bool>)
      ensures r == SessionModel.WaitForVisibility(State(), e, polls)
    {
      var tick := 0;
      while tick < polls
        invariant tick == 0 || tick <= polls
        invariant tick > 0 ==> !IsVisible(e)
      {
        if IsVisible(e) {
          return Ok(true);
        }
        tick := tick + 1;
      }
      return Err(VisibilityTimeout(screen, e));
    }

    method Click(e: string) returns (r: Outcome)
      requires Valid()
      modifies this
      ensures Valid()
      ensures var m := SessionModel.Click(old(State()), e);
        && (m.Ok? ==> r == Pass && State() == m.value)
        && (m.Err? ==> r == Fail(m.error) && State() == old(State()))
    {
      if !IsVisible(e) {
        return Fail(NotVisible(screen, e));
      }
      if e in LoginButtons && screen == Welcome {
        screen := Login;
      } else if e in LoginButtons && screen == Login {
        AttemptLogin();
      }
      StepPreservesConsistency(old(State()), DoClick(e));
      return Pass;
    }

    method Type(e: string, text: string) returns (r: Outcome)
      requires Valid()
      modifies this
      ensures Valid()
      ensures var m := SessionModel.Type(old(State()), e, text);
        && (m.Ok? ==> r == Pass && State() == m.value)
        && (m.Err? ==> r == Fail(m.error) && State() == old(State()))
    {
      if !IsVisible(e) {
        return Fail(NotVisible(screen, e));
      }
      if e in EmailInputs {
        form := form.(email := Some(text));
      } else if e in PasswordInputs {
        form := form.(password := Some(text));
      } else {
        return Fail(UnsupportedInput(e));
      }
      return Pass;
    }

    method SetCheckbox(e: string, checked: bool) returns (r: Outcome)
      requires Valid()
      modifies this
      ensures Valid()
      ensures var m := SessionModel.SetCheckbox(old(State()), e, checked);
        && (m.Ok? ==> r == Pass && State() == m.value)
        && (m.Err? ==> r == Fail(m.error) && State() == old(State()))
    {
      if !IsVisible(e) {
        return Fail(NotVisible(screen, e));
      }
      if e in TermsCheckboxes {
        form := form.(terms := checked);
      } else {
        return Fail(UnsupportedCheckbox(e));
      }
      return Pass;
    }

    method GetText(e: string) returns (r: Result<string>)
      ensures r == SessionModel.GetText(State(), e)
    {
      if !IsVisible(e) {
        return Err(NotVisible(screen, e));
      }
      if e in StatusLabels {
        return Ok(form.status);
      }
      return Err(UnsupportedLabel(e));
    }

    /** Puts the form back to nothing typed, terms unticked and no status. */
    method ResetState()
      modifies this
      ensures form == EmptyForm && launched == old(launched) && screen == old(screen)
    {
      form := EmptyForm;
    }

    method AttemptLogin()
      modifies this
      ensures State() == SessionModel.AttemptLogin(old(State()))
    {
      var validEmail := form.email.Some? && form.email.value in ValidEmails;
      var validPassword := form.password.Some? && form.password.value in ValidPasswords;
      var termsOk := form.terms;
      if validEmail && validPassword && termsOk {
        screen := LiveStream;
        form := form.(status := "streaming");
      } else {
        form := form.(status := "login_failed");
      }
    }
  }
}
