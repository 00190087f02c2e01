/**
 * The desktop sign-up window (desktop-app/ui/signup_window.py): the
 * validation chain of `handle_signup` and what follows the registration
 * call, and the password fields' visibility toggles and focus borders.
 */
module SignupWindow {
  import opened Common
  import Serializers

  const GenderPlaceholder := "Select gender"

  /** The first failing check of `handle_signup`, or None when `register`
    * is called. */
  function SignupFormError(fullName: string, username: string, email: string, password: string, confirm: string,
                           gender: string): Option<string>
  {
    if fullName == [] || username == [] || email == [] || password == [] || confirm == [] then
      Some("Please fill in all fields")
    else if gender == GenderPlaceholder then Some("Please select a gender")
    else if password != confirm then Some("Passwords do not match")
    else if |password| < 6 then Some("Password must be at least 6 characters")
    else None
  }

  /** The checks in their order; `register` is called exactly when every
    * field is filled, a gender chosen, and the password confirmed and at
    * least 6 characters long. */
  lemma SignupGuards(fullName: string, username: string, email: string, password: string, confirm: string, gender: string)
    ensures SignupFormError(fullName, username, email, password, confirm, gender).None? <==>
              fullName != [] && username != [] && email != [] && password != [] && confirm != [] &&
              gender != GenderPlaceholder && password == confirm && |password| >= 6
    ensures (fullName == [] || username == [] || email == [] || password == [] || confirm == []) ==>
              SignupFormError(fullName, username, email, password, confirm, gender) == Some("Please fill in all fields")
    ensures fullName != [] && username != [] && email != [] && password != [] && confirm != [] &&
            gender == GenderPlaceholder ==>
              SignupFormError(fullName, username, email, password, confirm, gender) == Some("Please select a gender")
    ensures fullName != [] && username != [] && email != [] && password != [] && confirm != [] &&
            gender != GenderPlaceholder && password != confirm ==>
              SignupFormError(fullName, username, email, password, confirm, gender) == Some("Passwords do not match")
    ensures fullName != [] && username != [] && email != [] && password != [] && password == confirm &&
            gender != GenderPlaceholder && |password| < 6 ==>
              SignupFormError(fullName, username, email, password, confirm, gender) ==
                Some("Password must be at least 6 characters")
  {
  }

  /** The window's minimum is looser than the server's: a 6-character
    * password passes the window, and every password under 8 characters the
    * window lets through is refused by the registration serializer. */
  lemma SignupLooserThanServer(fullName: string, username: string, email: string, password: string, gender: string)
    ensures SignupFormError("A", "a", "a", "abcdef", "abcdef", "Male").None?
    ensures SignupFormError(fullName, username, email, password, password, gender).None? && |password| < 8 ==>
              !Serializers.PasswordCheck(Some(password)).Accepted?
  {
    Serializers.CharFieldFacts(Some(password), true, Some(8), None);
  }

  /** The answer of `register`. */
  datatype RegisterResponse = RegisterError(error: string) | Registered(requiresOtp: bool, email: string)

  /** What the window does after the checks. */
  datatype SignupOutcome =
    | Warned(message: string)            // a failed check; nothing sent
    | RegistrationFailed(error: string)  // the server refused
    | Verified(email: string)            // OTP accepted; back to login
    | Unverified(email: string)          // OTP dialog closed or failed; back to login
    | InvalidResponse                    // neither an error nor an OTP request

  function HandleSignup(fullName: string, username: string, email: string, password: string, confirm: string,
                        gender: string, response: RegisterResponse, otpAccepted: bool): (r: SignupOutcome)
  {
    var error := SignupFormError(fullName, username, email, password, confirm, gender);
    if error.Some? then Warned(error.value)
    else if response.RegisterError? then RegistrationFailed(response.error)
    else if response.requiresOtp then (if otpAccepted then Verified(response.email) else Unverified(response.email))
    else InvalidResponse
  }

  /** The server's answer matters only after the checks pass; an OTP
    * request always opens the dialog for the e-mail the server names, and
    * only its acceptance reports success. */
  lemma HandleSignupFacts(fullName: string, username: string, email: string, password: string, confirm: string,
                          gender: string, response: RegisterResponse, otpAccepted: bool)
    ensures var r := HandleSignup(fullName, username, email, password, confirm, gender, response, otpAccepted);
            (r.Warned? <==> SignupFormError(fullName, username, email, password, confirm, gender).Some?) &&
            (r.Verified? <==> !r.Warned? && response.Registered? && response.requiresOtp && otpAccepted) &&
            ((r.Verified? || r.Unverified?) ==> response.Registered? && r.email == response.email) &&
            (r.InvalidResponse? <==> !r.Warned? && response.Registered? && !response.requiresOtp)
  {
  }

  // ------------------------------------------------------------ password fields

  datatype EchoMode = Normal | Password

  /** The container border colour for a focused or unfocused field. */
  function BorderColor(focused: bool): (c: string)
    ensures c == (if focused then "#00BFFF" else "#e5e7eb")
  {
    if focused then "#00BFFF" else "#e5e7eb"
  }

  /** One password field with its show/hide button and its container. */
  class PasswordField {
    var echo: EchoMode
    var buttonText: string
    var border: string

    /** The button names the action it offers: "Hide" while the text is
      * shown, "Show" while it is masked. */
    predicate Valid()
      reads this
    {
      (echo == Normal <==> buttonText == "Hide") && (echo == Password <==> buttonText == "Show") &&
      (border == BorderColor(true) || border == BorderColor(false))
    }

    /** As built: masked, offering "Show", unfocused border. */
    constructor ()
      ensures Valid() && echo == Password && buttonText == "Show" && border == BorderColor(false)
    {
      echo := Password;
      buttonText := "Show";
      border := BorderColor(false);
    }

    /** `toggle_password_visibility` / `toggle_confirm_visibility`. */
    method ToggleVisibility(toggled: bool)
      requires Valid()
      modifies this
      ensures Valid() && border == old(border)
      ensures toggled ==> echo == Normal && buttonText == "Hide"
      ensures !toggled ==> echo == Password && buttonText == "Show"
    {
      if toggled {
        echo := Normal;
        buttonText := "Hide";
      } else {
        echo := Password;
        buttonText := "Show";
      }
    }

    /** `set_focus_style`, run on focus-in and focus-out. */
    method SetFocusStyle(hasFocus: bool)
      requires Valid()
      modifies this
      ensures Valid() && echo == old(echo) && buttonText == old(buttonText)
      ensures border == BorderColor(hasFocus)
    {
      border := BorderColor(hasFocus);
    }
  }
}
