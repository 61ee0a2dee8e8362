/** The session and phone sign-in state of the reminder application, as a
    pure transition function over the four component fields it involves.
    External outcomes (an identity push, the result of an OTP request, the
    verdict of an OTP confirmation) are the events. */
module AuthSession {
  import opened Types

  const SendingNotice := "Sending OTP..."
  const OtpSentNotice := "OTP sent successfully!"
  const OtpErrorNotice := "Error sending OTP. Please try again."
  const VerifiedNotice := "Phone number verified. You are now logged in!"
  const InvalidOtpNotice := "Invalid OTP. Please try again."

  /** The fields `isAuthenticated`, `userId`, `otpSent`, `confirmationResult`. */
  datatype SessionState = SessionState(
    isAuthenticated: bool,
    userId: Option<Uid>,
    otpSent: bool,
    confirmationResult: Option<ConfirmationResult>)

  /** The state the component starts in. */
  const Initial := SessionState(false, None, false, None)

  datatype AuthEvent =
    | IdentityPushed(user: Option<Uid>)                     // onAuthStateChanged callback
    | OtpRequestDone(result: Option<ConfirmationResult>)    // signInWithPhoneNumber resolved (Some) or threw (None)
    | OtpConfirmDone(confirmed: bool)                       // confirmationResult.confirm(otp) resolved or threw

  /** The fields agree: without authentication there is no user id. Only
      an identity push sets the id, and it sets both together. */
  predicate Consistent(s: SessionState) {
    !s.isAuthenticated ==> s.userId.None?
  }

  /** One handler run. */
  function Next(s: SessionState, e: AuthEvent): (t: SessionState)
    ensures e.IdentityPushed? ==>
      t.isAuthenticated == e.user.Some? && t.userId == e.user &&
      t.otpSent == s.otpSent && t.confirmationResult == s.confirmationResult
    ensures e.OtpRequestDone? && e.result.Some? ==>
      t.otpSent && t.confirmationResult == e.result &&
      t.isAuthenticated == s.isAuthenticated && t.userId == s.userId
    ensures e.OtpRequestDone? && e.result.None? ==> t == s
    ensures e.OtpConfirmDone? && (s.confirmationResult.None? || !e.confirmed) ==> t == s
    ensures e.OtpConfirmDone? && s.confirmationResult.Some? && e.confirmed ==>
      t.isAuthenticated && !t.otpSent &&
      t.userId == s.userId && t.confirmationResult == s.confirmationResult
    ensures Consistent(s) ==> Consistent(t)
  {
    match e
    case IdentityPushed(user) =>
      s.(isAuthenticated := user.Some?, userId := user)
    case OtpRequestDone(result) =>
      if result.Some? then s.(confirmationResult := result, otpSent := true) else s
    case OtpConfirmDone(confirmed) =>
      if s.confirmationResult.None? || !confirmed then s
      else s.(isAuthenticated := true, otpSent := false)
  }

  /** The notices a handler run shows, in order. */
  function Notices(s: SessionState, e: AuthEvent): (ns: seq<string>)
    ensures e.IdentityPushed? ==> ns == []
    ensures e.OtpRequestDone? ==>
      |ns| == 2 && ns[0] == SendingNotice &&
      ns[1] == (if e.result.Some? then OtpSentNotice else OtpErrorNotice)
    ensures e.OtpConfirmDone? ==> (ns == [] <==> s.confirmationResult.None?)
    ensures e.OtpConfirmDone? && ns != [] ==> ns == [if e.confirmed then VerifiedNotice else InvalidOtpNotice]
  {
    match e
    case IdentityPushed(_) => []
    case OtpRequestDone(result) =>
      [SendingNotice, if result.Some? then OtpSentNotice else OtpErrorNotice]
    case OtpConfirmDone(confirmed) =>
      if s.confirmationResult.None? then []
      else [if confirmed then VerifiedNotice else InvalidOtpNotice]
  }

  /** The owner the reminders listener is filtered to, if the guard
      `isAuthenticated && userId` lets one be set up. */
  function SubscriptionFor(s: SessionState): (owner: Option<Uid>)
    ensures owner.Some? <==> s.isAuthenticated && s.userId.Some?
    ensures owner.Some? ==> owner == s.userId
  {
    if s.isAuthenticated && s.userId.Some? then s.userId else None
  }

  /** Several handler runs, one after another. */
  function Run(s: SessionState, es: seq<AuthEvent>): SessionState
    decreases es
  {
    if es == [] then s else Run(Next(s, es[0]), es[1..])
  }

  function Repeat(e: AuthEvent, n: nat): (es: seq<AuthEvent>)
    ensures |es| == n && forall i :: 0 <= i < n ==> es[i] == e
  {
    if n == 0 then [] else [e] + Repeat(e, n - 1)
  }

  lemma {:induction false} RunAppend(s: SessionState, a: seq<AuthEvent>, b: seq<AuthEvent>)
    ensures Run(s, a + b) == Run(Run(s, a), b)
    decreases a
  {
    if a == [] {
      assert a + b == b;
    } else {
      assert (a + b)[0] == a[0] && (a + b)[1..] == a[1..] + b;
      RunAppend(Next(s, a[0]), a[1..], b);
    }
  }

  /** Every reachable state is consistent. */
  lemma {:induction false} RunConsistent(s: SessionState, es: seq<AuthEvent>)
    requires Consistent(s)
    ensures Consistent(Run(s, es))
    decreases es
  {
    if es != [] {
      RunConsistent(Next(s, es[0]), es[1..]);
    }
  }

  /** Any number of rejected codes leaves the whole session as it was, so the
      pending handle can be used again without a new OTP request. */
  lemma {:induction false} RejectedCodesChangeNothing(s: SessionState, n: nat)
    ensures Run(s, Repeat(OtpConfirmDone(false), n)) == s
  {
    if n > 0 {
      var es := Repeat(OtpConfirmDone(false), n);
      assert es[1..] == Repeat(OtpConfirmDone(false), n - 1);
      RejectedCodesChangeNothing(s, n - 1);
    }
  }

  /** After any number of rejected codes, an accepted one authenticates with
      the same handle and resets `otpSent`; the user id is left to the
      identity push that follows. */
  lemma RetryThenAccept(s: SessionState, n: nat)
    requires s.confirmationResult.Some?
    ensures var t := Run(s, Repeat(OtpConfirmDone(false), n) + [OtpConfirmDone(true)]);
      t.isAuthenticated && !t.otpSent &&
      t.confirmationResult == s.confirmationResult && t.userId == s.userId
  {
    RunAppend(s, Repeat(OtpConfirmDone(false), n), [OtpConfirmDone(true)]);
    RejectedCodesChangeNothing(s, n);
  }

  /** Phone sign-in from the initial state: a sent code, a wrong code, the
      right code, then the identity push. The wrong code leaves the user
      signed out; the right one signs in, but the listener starts only once
      the push has supplied the user id. */
  lemma PhoneSignIn(h: ConfirmationResult, uid: Uid)
    ensures var s1 := Next(Initial, OtpRequestDone(Some(h)));
            var s2 := Next(s1, OtpConfirmDone(false));
            var s3 := Next(s2, OtpConfirmDone(true));
            var s4 := Next(s3, IdentityPushed(Some(uid)));
      s1.otpSent && s1.confirmationResult == Some(h) &&
      !s2.isAuthenticated && s2 == s1 &&
      Notices(s1, OtpConfirmDone(false)) == [InvalidOtpNotice] &&
      s3.isAuthenticated && SubscriptionFor(s3).None? &&
      s4 == SessionState(true, Some(uid), false, Some(h)) && SubscriptionFor(s4) == Some(uid)
  {
  }
}
