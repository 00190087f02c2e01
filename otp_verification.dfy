/**
 * The web OTP form (web/src/components/OTPVerification.tsx): the input
 * filter, the verify guard, and the resend countdown. Each handler is split
 * at its awaited call; one tick of the countdown is one firing of the
 * one-second interval followed by the effect it triggers.
 */
module OtpVerification {
  import opened Common

  const CodeLength: nat := 6
  const ResendDelay: nat := 60

  /** `value.replace(/\D/g, "").slice(0, 6)`. */
  function KeepCode(value: string): (r: string)
  {
    Take(Filter(value, IsDigit), CodeLength)
  }

  /** The kept text is at most six digits, the first digits of the input
    * in order; filtering it again changes nothing, and a code of at most
    * six digits is kept as typed. */
  lemma KeepCodeFacts(value: string)
    ensures var r := KeepCode(value);
            |r| <= CodeLength && (forall i :: 0 <= i < |r| ==> IsDigit(r[i])) &&
            r == Take(Filter(value, IsDigit), CodeLength) && r <= Filter(value, IsDigit) &&
            KeepCode(r) == r
    ensures |value| <= CodeLength && (forall i :: 0 <= i < |value| ==> IsDigit(value[i])) ==> KeepCode(value) == value
  {
    var digits := Filter(value, IsDigit);
    FilterFacts(value, IsDigit);
    TakeFacts(digits, CodeLength);
    var r := KeepCode(value);
    assert forall i :: 0 <= i < |r| ==> r[i] in digits;
    AllDigitsKept(r);
    if forall i :: 0 <= i < |value| ==> IsDigit(value[i]) {
      AllDigitsKept(value);
    }
  }

  lemma AllDigitsKept(s: string)
    requires forall i :: 0 <= i < |s| ==> IsDigit(s[i])
    ensures Filter(s, IsDigit) == s
    ensures |s| <= CodeLength ==> KeepCode(s) == s
  {
    FilterAll(s, IsDigit);
  }

  /** One interval firing: the timer counts down while positive. */
  function NextTimer(t: nat): nat
  {
    if t > 0 then t - 1 else 0
  }

  /** The timer after k firings. */
  function TimerAfter(t: nat, k: nat): nat
  {
    if k == 0 then t else TimerAfter(NextTimer(t), k - 1)
  }

  /** Starting from t, the timer is positive for the first t - 1 firings
    * and reaches 0 at firing t, where it stays. */
  lemma {:induction false} CountdownReachesZero(t: nat, k: nat)
    ensures TimerAfter(t, k) == if k < t then t - k else 0
  {
    if k > 0 {
      CountdownReachesZero(NextTimer(t), k - 1);
    }
  }

  class OtpForm {
    var otp: string
    var loading: bool
    var resendLoading: bool
    var timer: nat
    var canResend: bool
    /** The codes handed to `onVerify`, in order. */
    var verifyCalls: seq<string>
    var resendCalls: nat

    /** The input holds at most six digits; resending is offered exactly
      * when the countdown is over. */
    predicate Valid()
      reads this
    {
      |otp| <= CodeLength && (forall i :: 0 <= i < |otp| ==> IsDigit(otp[i])) &&
      timer <= ResendDelay && (canResend <==> timer == 0)
    }

    /** The verify button's `disabled` condition. */
    predicate VerifyDisabled()
      reads this
    {
      |otp| != CodeLength || loading
    }

    constructor ()
      ensures Valid() && otp == [] && !loading && !resendLoading && timer == ResendDelay && !canResend
      ensures verifyCalls == [] && resendCalls == 0
    {
      otp := [];
      loading := false;
      resendLoading := false;
      timer := ResendDelay;
      canResend := false;
      verifyCalls := [];
      resendCalls := 0;
    }

    /** `handleOtpChange`. */
    method OtpChange(value: string)
      requires Valid()
      modifies this
      ensures Valid() && otp == KeepCode(value)
      ensures loading == old(loading) && timer == old(timer) && canResend == old(canResend) && verifyCalls == old(verifyCalls)
      ensures resendLoading == old(resendLoading) && resendCalls == old(resendCalls)
    {
      KeepCodeFacts(value);
      otp := KeepCode(value);
    }

    /** One second of the countdown: the interval decrements a positive
      * timer, and the effect then offers resending once it is 0. */
    method Tick()
      requires Valid()
      modifies this
      ensures Valid() && timer == NextTimer(old(timer))
      ensures canResend == (old(canResend) || NextTimer(old(timer)) == 0)
      ensures otp == old(otp) && loading == old(loading) && verifyCalls == old(verifyCalls)
      ensures resendLoading == old(resendLoading) && resendCalls == old(resendCalls)
    {
      if timer > 0 {
        timer := timer - 1;
      }
      if timer == 0 {
        canResend := true;
      }
    }

    /** `handleVerify` up to the awaited call: nothing unless the code has
      * six digits, and then exactly when the button is enabled, apart from
      * the loading flag. */
    method BeginVerify() returns (sent: bool)
      requires Valid()
      modifies this
      ensures Valid()
      ensures sent <==> |old(otp)| == CodeLength
      ensures sent ==> loading && verifyCalls == old(verifyCalls) + [otp]
      ensures !sent ==> loading == old(loading) && verifyCalls == old(verifyCalls)
      ensures otp == old(otp) && timer == old(timer) && canResend == old(canResend)
      ensures resendLoading == old(resendLoading) && resendCalls == old(resendCalls)
    {
      if |otp| != CodeLength {
        return false;
      }
      loading := true;
      verifyCalls := verifyCalls + [otp];
      sent := true;
    }

    /** `handleVerify` after the call. */
    method FinishVerify()
      requires Valid()
      modifies this
      ensures Valid() && !loading
      ensures otp == old(otp) && timer == old(timer) && canResend == old(canResend) && verifyCalls == old(verifyCalls)
      ensures resendLoading == old(resendLoading) && resendCalls == old(resendCalls)
    {
      loading := false;
    }

    /** `handleResend` up to the awaited call. */
    method BeginResend()
      requires Valid()
      modifies this
      ensures Valid() && resendLoading && resendCalls == old(resendCalls) + 1
      ensures otp == old(otp) && timer == old(timer) && canResend == old(canResend)
      ensures loading == old(loading) && verifyCalls == old(verifyCalls)
    {
      resendLoading := true;
      resendCalls := resendCalls + 1;
    }

    /** `handleResend` after the call: the countdown restarts at 60 and
      * resending is withdrawn. */
    method FinishResend()
      requires Valid()
      modifies this
      ensures Valid() && !resendLoading && timer == ResendDelay && !canResend
      ensures otp == old(otp) && resendCalls == old(resendCalls) && verifyCalls == old(verifyCalls) && loading == old(loading)
    {
      resendLoading := false;
      timer := ResendDelay;
      canResend := false;
    }
  }
}
