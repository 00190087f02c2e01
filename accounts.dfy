/**
 * The account views of the backend (backend/accounts/views.py):
 * `login_view`, `resend_otp` and `verify_otp` over the table of e-mail
 * one-time passwords, and the guard chain of `change_password`.
 *
 * Authentication, the user lookup by e-mail, sending the e-mail, the random
 * digits, the clock and a fresh token key are parameters.
 */
module Accounts {
  import opened Common
  import opened Models
  import opened Uploads

  /** The user an authentication or a lookup found. */
  datatype Account = Account(username: string, email: string)

  /** A row `EmailOTP.objects.filter(user=user, verified=False).delete()` removes. */
  predicate Pending(o: EmailOtp, user: string)
    reads o
  {
    o.user == user && !o.verified
  }

  /** The rows that deletion leaves, in order. */
  function Survivors(s: seq<EmailOtp>, user: string): (r: seq<EmailOtp>)
    reads s
    ensures |r| <= |s|
    ensures forall i :: 0 <= i < |r| ==> r[i] in s && !Pending(r[i], user)
    ensures forall i :: 0 <= i < |s| && !Pending(s[i], user) ==> s[i] in r
  {
    if s == [] then []
    else
      var o := s[|s| - 1];
      Survivors(s[..|s| - 1], user) + (if Pending(o, user) then [] else [o])
  }

  /** The server error an uncaught `Profile.DoesNotExist` becomes. */
  const ProfileMissing: Reply := Err(500, "Profile matching query does not exist.")

  class OtpTable {
    var rows: seq<EmailOtp>
    /** Users whose `is_active` flag is set. */
    var active: set<string>
    /** The REST token of each user that has one. */
    var tokens: map<string, string>
    /** Users that have a `Profile` row. */
    var profiles: set<string>

    constructor (profiles: set<string>)
      ensures rows == [] && active == {} && tokens == map[] && this.profiles == profiles
    {
      rows := [];
      active := {};
      tokens := map[];
      this.profiles := profiles;
    }

    /** The user's unverified codes are deleted, then one new code is
      * created and generated; afterwards it is the user's only pending code
      * and every other row is kept. */
    method Issue(user: string, email: string, draw: seq<nat>, now: int) returns (code: string, o: EmailOtp)
      requires |draw| == OtpLength && forall i :: 0 <= i < |draw| ==> draw[i] < 10
      modifies this
      ensures fresh(o)
      ensures rows == old(Survivors(rows, user)) + [o]
      ensures o.email == email && o.user == user && o.createdAt == now && !o.verified
      ensures code == o.otp == OtpFromDraw(draw) && o.expiresAt == Some(now + OtpLifetime)
      ensures forall i :: 0 <= i < |rows| && Pending(rows[i], user) ==> rows[i] == o
      ensures active == old(active) && tokens == old(tokens) && profiles == old(profiles)
    {
      var kept := Survivors(rows, user);
      o := new EmailOtp(email, user, now);
      code := o.GenerateOtp(draw, now);
      rows := kept + [o];
    }

    /** The last row is a code just issued to `user` for `email` at `now`:
      * unverified, carrying the drawn digits, expiring ten minutes later,
      * and the user's only pending code. */
    predicate JustIssued(user: string, email: string, draw: seq<nat>, now: int)
      requires forall i :: 0 <= i < |draw| ==> draw[i] < 10
      reads this, rows
    {
      |rows| > 0 &&
      var o := rows[|rows| - 1];
      o.user == user && o.email == email && o.otp == OtpFromDraw(draw) && !o.verified &&
      o.createdAt == now && o.expiresAt == Some(now + OtpLifetime) &&
      forall i :: 0 <= i < |rows| && Pending(rows[i], user) ==> rows[i] == o
    }

    /** `login_view`: a failed authentication is refused with nothing
      * changed; otherwise a new code is issued, and it stays issued even
      * when the e-mail cannot be sent. */
    method Login(account: Option<Account>, draw: seq<nat>, now: int, sent: bool) returns (reply: Reply)
      requires |draw| == OtpLength && forall i :: 0 <= i < |draw| ==> draw[i] < 10
      modifies this
      ensures account.None? ==> reply == Err(401, "Invalid username or password") && rows == old(rows)
      ensures account.Some? ==>
                JustIssued(account.value.username, account.value.email, draw, now) && fresh(rows[|rows| - 1]) &&
                rows[..|rows| - 1] == old(Survivors(rows, account.value.username)) &&
                reply == (if sent then Ok("OTP sent to your email.")
                          else Err(500, "Failed to send OTP email. Please try again."))
      ensures active == old(active) && tokens == old(tokens) && profiles == old(profiles)
    {
      if account.None? {
        return Err(401, "Invalid username or password");
      }
      var code, o := Issue(account.value.username, account.value.email, draw, now);
      reply := if sent then Ok("OTP sent to your email.")
               else Err(500, "Failed to send OTP email. Please try again.");
    }

    /** `resend_otp`: an unknown e-mail is a 404 with nothing changed;
      * otherwise the same delete-then-issue as at login, the new row taking
      * the requested e-mail. */
    method Resend(email: string, account: Option<Account>, draw: seq<nat>, now: int, sent: bool) returns (reply: Reply)
      requires |draw| == OtpLength && forall i :: 0 <= i < |draw| ==> draw[i] < 10
      modifies this
      ensures account.None? ==> reply == Err(404, "Email not found") && rows == old(rows)
      ensures account.Some? ==>
                JustIssued(account.value.username, email, draw, now) && fresh(rows[|rows| - 1]) &&
                rows[..|rows| - 1] == old(Survivors(rows, account.value.username)) &&
                reply == (if sent then Ok("New OTP sent to your email.") else Err(500, "Failed to send OTP email."))
      ensures active == old(active) && tokens == old(tokens) && profiles == old(profiles)
    {
      if account.None? {
        return Err(404, "Email not found");
      }
      var code, o := Issue(account.value.username, email, draw, now);
      reply := if sent then Ok("New OTP sent to your email.") else Err(500, "Failed to send OTP email.");
    }

    /** A row the `verify_otp` query selects. */
    predicate Candidate(o: EmailOtp, email: string, code: string)
      reads o
    {
      o.email == email && o.otp == code && !o.verified
    }

    /** `.filter(email=…, otp=…, verified=False).latest('created_at')`:
      * the index of a candidate created no earlier than any other, or None
      * when there is no candidate. */
    method Latest(email: string, code: string) returns (best: Option<nat>)
      ensures best.None? <==> forall i :: 0 <= i < |rows| ==> !Candidate(rows[i], email, code)
      ensures best.Some? ==> best.value < |rows| && Candidate(rows[best.value], email, code) &&
                             forall i :: 0 <= i < |rows| && Candidate(rows[i], email, code) ==>
                               rows[i].createdAt <= rows[best.value].createdAt
    {
      best := None;
      for i := 0 to |rows|
        invariant best.None? <==> forall k :: 0 <= k < i ==> !Candidate(rows[k], email, code)
        invariant best.Some? ==> best.value < i && Candidate(rows[best.value], email, code) &&
                                 forall k :: 0 <= k < i && Candidate(rows[k], email, code) ==>
                                   rows[k].createdAt <= rows[best.value].createdAt
      {
        if Candidate(rows[i], email, code) && (best.None? || rows[i].createdAt > rows[best.value].createdAt) {
          best := Some(i);
        }
      }
    }

    /** `verify_otp`, with `chosen` the row `.latest` selected. No candidate
      * is "Invalid OTP code"; an expired choice is refused; both change
      * nothing. A valid choice becomes verified (so it is never valid
      * again), its user is activated and gets its existing token or, lacking
      * one, `freshKey`; the login then succeeds exactly when the user has a
      * profile, and fails with a server error, the changes kept, otherwise. */
    method Verify(email: string, code: string, now: int, freshKey: string)
      returns (reply: Reply, token: Option<string>, chosen: Option<nat>)
      modifies this, rows`verified
      ensures rows == old(rows) && profiles == old(profiles)
      ensures chosen.None? <==> forall i :: 0 <= i < |rows| ==> !old(Candidate(rows[i], email, code))
      ensures chosen.Some? ==>
                chosen.value < |rows| && old(Candidate(rows[chosen.value], email, code)) &&
                forall i :: 0 <= i < |rows| && old(Candidate(rows[i], email, code)) ==>
                  old(rows[i].createdAt) <= old(rows[chosen.value].createdAt)
      ensures chosen.None? ==> reply == Err(400, "Invalid OTP code")
      ensures chosen.Some? && !old(rows[chosen.value].IsValid(now)) ==>
                reply == Err(400, "OTP has expired. Please request a new one.")
      ensures chosen.None? || !old(rows[chosen.value].IsValid(now)) ==>
                token.None? && active == old(active) && tokens == old(tokens) &&
                forall i :: 0 <= i < |rows| ==> rows[i].verified == old(rows[i].verified)
      ensures chosen.Some? && old(rows[chosen.value].IsValid(now)) ==>
                var b := rows[chosen.value];
                var key := if b.user in old(tokens) then old(tokens)[b.user] else freshKey;
                b.verified && !b.IsValid(now) &&
                (forall i :: 0 <= i < |rows| && rows[i] != b ==> rows[i].verified == old(rows[i].verified)) &&
                active == old(active) + {b.user} && tokens == old(tokens)[b.user := key] &&
                (b.user in profiles ==> reply == Ok("Login successful") && token == Some(key)) &&
                (b.user !in profiles ==> reply == ProfileMissing && token.None?)
    {
      chosen := Latest(email, code);
      if chosen.None? {
        return Err(400, "Invalid OTP code"), None, chosen;
      }
      var o := rows[chosen.value];
      if !o.IsValid(now) {
        return Err(400, "OTP has expired. Please request a new one."), None, chosen;
      }
      o.verified := true;
      active := active + {o.user};
      var key := if o.user in tokens then tokens[o.user] else freshKey;
      tokens := tokens[o.user := key];
      if o.user !in profiles {
        return ProfileMissing, None, chosen;
      }
      token := Some(key);
      reply := Ok("Login successful");
    }
  }

  // ------------------------------------------------------------ password

  /** Python truthiness of an optional request field. */
  predicate Given(x: Option<string>) { x.Some? && x.value != [] }

  /** `change_password`'s outcome: refused with a message, or the new
    * password to set. */
  datatype PasswordChange = Refused(error: string) | SetPassword(password: string)

  function ChangePassword(current: Option<string>, next: Option<string>, checkPassword: string -> bool): (r: PasswordChange)
  {
    if !Given(current) || !Given(next) then Refused("Both current and new password are required")
    else if !checkPassword(current.value) then Refused("Current password is incorrect")
    else if |next.value| < 8 then Refused("New password must be at least 8 characters")
    else SetPassword(next.value)
  }

  /** The guards in order: both fields present, the current password
    * correct, the new one at least 8 characters; the password is set to the
    * new one exactly when all three pass, and each refusal names the first
    * failing guard. */
  lemma ChangePasswordGuards(current: Option<string>, next: Option<string>, checkPassword: string -> bool)
    ensures ChangePassword(current, next, checkPassword).SetPassword? <==>
              Given(current) && Given(next) && checkPassword(current.value) && |next.value| >= 8
    ensures ChangePassword(current, next, checkPassword).SetPassword? ==>
              ChangePassword(current, next, checkPassword).password == next.value
    ensures !Given(current) || !Given(next) ==>
              ChangePassword(current, next, checkPassword) == Refused("Both current and new password are required")
    ensures Given(current) && Given(next) && !checkPassword(current.value) ==>
              ChangePassword(current, next, checkPassword) == Refused("Current password is incorrect")
    ensures Given(current) && Given(next) && checkPassword(current.value) && |next.value| < 8 ==>
              ChangePassword(current, next, checkPassword) == Refused("New password must be at least 8 characters")
  {
  }
}
