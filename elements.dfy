/** Screens, element ids and the fixed table of which ids each screen shows. */
module Elements {

  /** The three screens of the simulated app, in flow order. */
  datatype Screen = Welcome | Login | LiveStream

  /** The name under which the session reports a screen; distinct screens have distinct names. */
  function ScreenName(s: Screen): (r: string)
    ensures r == "welcome" <==> s == Welcome
    ensures r == "login" <==> s == Login
    ensures r == "live_stream" <==> s == LiveStream
  {
    match s
    case Welcome => "welcome"
    case Login => "login"
    case LiveStream => "live_stream"
  }

  /** Platform names a session may be created for. */
  const SupportedPlatforms: set<string> := {"ios", "android"}

  datatype Platform = Ios | Android

  /** The name of a platform: a supported one, and distinct for the two platforms. */
  function PlatformName(p: Platform): (r: string)
    ensures r in SupportedPlatforms
    ensures r == "ios" <==> p == Ios
  {
    match p
    case Ios => "ios"
    case Android => "android"
  }

  /** The logical widgets of the app; each has one id per platform. */
  datatype Widget =
    | LoginButton
    | EmailInput
    | PasswordInput
    | TermsCheckbox
    | LiveStreamContainer
    | StreamStatusLabel

  /**
   * The platform-qualified id of a widget: a known id, in the dispatch group
   * of its widget only, and shown on the screens that show the widget.
   */
  function Id(w: Widget, p: Platform): (r: string)
    ensures r in KnownIds
    ensures r in LoginButtons <==> w == LoginButton
    ensures r in EmailInputs <==> w == EmailInput
    ensures r in PasswordInputs <==> w == PasswordInput
    ensures r in TermsCheckboxes <==> w == TermsCheckbox
    ensures r in StatusLabels <==> w == StreamStatusLabel
    ensures r in VisibleOn(Welcome) <==> w == LoginButton
    ensures r in VisibleOn(Login) <==> w in {LoginButton, EmailInput, PasswordInput, TermsCheckbox}
    ensures r in VisibleOn(LiveStream) <==> w in {LiveStreamContainer, StreamStatusLabel}
  {
    match w
    case LoginButton => if p == Ios then "login_button_ios" else "login_button_android"
    case EmailInput => if p == Ios then "email_input_ios" else "email_input_android"
    case PasswordInput => if p == Ios then "password_input_ios" else "password_input_android"
    case TermsCheckbox =>
      if p == Ios then "terms_and_conditions_check_box_ios" else "terms_and_conditions_check_box_android"
    case LiveStreamContainer =>
      if p == Ios then "live_stream_container_ios" else "live_stream_container_android"
    case StreamStatusLabel =>
      if p == Ios then "stream_status_label_ios" else "stream_status_label_android"
  }

  /** Every id the app knows, both platforms. */
  const KnownIds: set<string> := {
    "login_button_ios", "login_button_android",
    "email_input_ios", "email_input_android",
    "password_input_ios", "password_input_android",
    "terms_and_conditions_check_box_ios", "terms_and_conditions_check_box_android",
    "live_stream_container_ios", "live_stream_container_android",
    "stream_status_label_ios", "stream_status_label_android"
  }

  // The id groups the session's operations dispatch on.
  const LoginButtons: set<string> := {"login_button_ios", "login_button_android"}
  const EmailInputs: set<string> := {"email_input_ios", "email_input_android"}
  const PasswordInputs: set<string> := {"password_input_ios", "password_input_android"}
  const TermsCheckboxes: set<string> :=
    {"terms_and_conditions_check_box_ios", "terms_and_conditions_check_box_android"}
  const StatusLabels: set<string> := {"stream_status_label_ios", "stream_status_label_android"}

  /** The ids visible on a screen, all of them known ones. */
  function VisibleOn(s: Screen): (r: set<string>)
    ensures r <= KnownIds
  {
    match s
    case Welcome => {"login_button_ios", "login_button_android"}
    case Login => {
      "email_input_ios",
      "password_input_ios",
      "login_button_ios",
      "terms_and_conditions_check_box_ios",
      "email_input_android",
      "password_input_android",
      "login_button_android",
      "terms_and_conditions_check_box_android"
    }
    case LiveStream => {
      "live_stream_container_ios",
      "stream_status_label_ios",
      "live_stream_container_android",
      "stream_status_label_android"
    }
  }
}
