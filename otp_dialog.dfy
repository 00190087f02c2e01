/**
 * The desktop OTP dialog (desktop-app/ui/otp_dialog.py): its two buttons
 * and the code it records. Each handler is split at its API call into the
 * part before the call and the part after it, so the button state while
 * the call is in flight is part of the model; the answers are parameters.
 */
module OtpDialog {
  import opened Common

  /** The API's answer: an error message, or success. */
  datatype Answer = AnswerError(error: string) | AnswerOk

  class OtpDialog {
    const email: string
    /** `self.otp_code`: the verified code, once there is one. */
    var otpCode: Option<string>
    var accepted: bool
    var verifyEnabled: bool
    var verifyText: string
    var resendEnabled: bool
    var resendText: string
    /** The codes sent to `verify_otp`, in order. */
    var verifyCalls: seq<string>
    /** The number of `resend_otp` calls. */
    var resendCalls: nat
    /** The message of the last dialog shown. */
    var shown: string

    /** A recorded code is one that was sent for verification, and is six
      * characters long; an accepted dialog has one. */
    predicate Valid()
      reads this
    {
      (otpCode.Some? ==> |otpCode.value| == 6 && otpCode.value in verifyCalls) &&
      (accepted ==> otpCode.Some?)
    }

    constructor (email: string)
      ensures this.email == email && Valid()
      ensures otpCode.None? && !accepted && verifyCalls == [] && resendCalls == 0
      ensures verifyEnabled && verifyText == "Verify Account" && resendEnabled && resendText == "Resend"
    {
      this.email := email;
      otpCode := None;
      accepted := false;
      verifyEnabled := true;
      verifyText := "Verify Account";
      resendEnabled := true;
      resendText := "Resend";
      verifyCalls := [];
      resendCalls := 0;
      shown := [];
    }

    /** `verify_otp` up to the call: a stripped input that is not six
      * characters long is refused with nothing sent and the button left as
      * it was; otherwise the button is disabled, relabelled, and the code
      * is sent. */
    method BeginVerify(input: string) returns (sent: Option<string>)
      requires Valid()
      modifies this
      ensures Valid()
      ensures |Strip(input)| != 6 ==>
                sent.None? && shown == "Please enter a 6-digit code." &&
                verifyCalls == old(verifyCalls) && verifyEnabled == old(verifyEnabled) && verifyText == old(verifyText)
      ensures |Strip(input)| == 6 ==>
                sent == Some(Strip(input)) && !verifyEnabled && verifyText == "Verifying..." &&
                verifyCalls == old(verifyCalls) + [Strip(input)] && shown == old(shown)
      ensures otpCode == old(otpCode) && accepted == old(accepted)
      ensures resendEnabled == old(resendEnabled) && resendText == old(resendText) && resendCalls == old(resendCalls)
    {
      var otp := Strip(input);
      if |otp| != 6 {
        shown := "Please enter a 6-digit code.";
        return None;
      }
      verifyEnabled := false;
      verifyText := "Verifying...";
      verifyCalls := verifyCalls + [otp];
      sent := Some(otp);
    }

    /** `verify_otp` after the call: an error re-enables the button with
      * its original label and leaves the dialog open; success records the
      * code and accepts the dialog. */
    method FinishVerify(otp: string, answer: Answer)
      requires Valid() && |otp| == 6 && otp in verifyCalls
      modifies this
      ensures Valid()
      ensures answer.AnswerError? ==>
                verifyEnabled && verifyText == "Verify Account" && shown == answer.error &&
                otpCode == old(otpCode) && accepted == old(accepted)
      ensures answer.AnswerOk? ==>
                otpCode == Some(otp) && accepted && shown == "Email verified successfully!" &&
                verifyEnabled == old(verifyEnabled) && verifyText == old(verifyText)
      ensures verifyCalls == old(verifyCalls)
      ensures resendEnabled == old(resendEnabled) && resendText == old(resendText) && resendCalls == old(resendCalls)
    {
      if answer.AnswerError? {
        shown := answer.error;
        verifyEnabled := true;
        verifyText := "Verify Account";
      } else {
        otpCode := Some(otp);
        shown := "Email verified successfully!";
        accepted := true;
      }
    }

    /** The whole handler: the dialog is accepted exactly when a six
      * character code was sent and the answer was not an error, and then
      * the recorded code is the stripped input. */
    method VerifyOtp(input: string, answer: Answer)
      requires Valid()
      modifies this
      ensures Valid()
      ensures accepted == (old(accepted) || (|Strip(input)| == 6 && answer.AnswerOk?))
      ensures |Strip(input)| == 6 && answer.AnswerOk? ==> otpCode == Some(Strip(input))
      ensures |Strip(input)| != 6 ==> verifyCalls == old(verifyCalls) && otpCode == old(otpCode)
      ensures |Strip(input)| == 6 && answer.AnswerError? ==>
                verifyEnabled && verifyText == "Verify Account" && shown == answer.error && otpCode == old(otpCode)
      ensures |Strip(input)| == 6 && answer.AnswerOk? ==>
                shown == "Email verified successfully!" && !verifyEnabled && verifyText == "Verifying..."
      ensures |Strip(input)| == 6 ==> verifyCalls == old(verifyCalls) + [Strip(input)]
      ensures |Strip(input)| != 6 ==>
                shown == "Please enter a 6-digit code." &&
                verifyEnabled == old(verifyEnabled) && verifyText == old(verifyText)
      ensures resendEnabled == old(resendEnabled) && resendText == old(resendText) && resendCalls == old(resendCalls)
    {
      var sent := BeginVerify(input);
      if sent.Some? {
        FinishVerify(sent.value, answer);
      }
    }

    /** `resend_otp` up to the call: the button is disabled and relabelled. */
    method BeginResend()
      requires Valid()
      modifies this
      ensures Valid()
      ensures !resendEnabled && resendText == "Sending..." && resendCalls == old(resendCalls) + 1
      ensures otpCode == old(otpCode) && accepted == old(accepted) && verifyCalls == old(verifyCalls)
      ensures verifyEnabled == old(verifyEnabled) && verifyText == old(verifyText) && shown == old(shown)
    {
      resendEnabled := false;
      resendText := "Sending...";
      resendCalls := resendCalls + 1;
    }

    /** `resend_otp` after the call: the answer is shown and, whatever it
      * was, the button is enabled again as "Resend". */
    method FinishResend(answer: Answer)
      requires Valid()
      modifies this
      ensures Valid()
      ensures resendEnabled && resendText == "Resend"
      ensures shown == (if answer.AnswerError? then answer.error else "A new code has been sent to your email")
      ensures otpCode == old(otpCode) && accepted == old(accepted) && verifyCalls == old(verifyCalls)
      ensures verifyEnabled == old(verifyEnabled) && verifyText == old(verifyText) && resendCalls == old(resendCalls)
    {
      shown := if answer.AnswerError? then answer.error else "A new code has been sent to your email";
      resendEnabled := true;
      resendText := "Resend";
    }

    /** The whole handler: one call, and the button always ends enabled. */
    method ResendOtp(answer: Answer)
      requires Valid()
      modifies this
      ensures Valid()
      ensures resendEnabled && resendText == "Resend" && resendCalls == old(resendCalls) + 1
      ensures shown == (if answer.AnswerError? then answer.error else "A new code has been sent to your email")
      ensures otpCode == old(otpCode) && accepted == old(accepted) && verifyCalls == old(verifyCalls)
      ensures verifyEnabled == old(verifyEnabled) && verifyText == old(verifyText)
    {
      BeginResend();
      FinishResend(answer);
    }
  }
}
