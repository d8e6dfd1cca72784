/** The one-time-passcode login page: an email phase and a code phase, a
    busy flag that gates both submit buttons, and the digit filter on the
    code field. */
module Login {
  import opened AuthTypes

  /** The code field's `maxLength`. */
  const MaxCodeLength := 6
  const SendFailedMessage := "Failed to send OTP"
  const VerifyFailedMessage := "Invalid OTP"

  // ---------------------------------------------------------------------
  // The code field's filter: every character that is not 0-9 is removed
  // (`replace(/\D/g, "")`; in JavaScript `\D` is "not ASCII 0-9").
  // ---------------------------------------------------------------------

  predicate IsDigit(c: char) {
    '0' <= c <= '9'
  }

  predicate AllDigits(s: string) {
    forall i :: 0 <= i < |s| ==> IsDigit(s[i])
  }

  function DigitsOnly(s: string): (r: string)
    ensures AllDigits(r)
    ensures |r| <= |s|
  {
    if s == [] then []
    else if IsDigit(s[0]) then [s[0]] + DigitsOnly(s[1..])
    else DigitsOnly(s[1..])
  }

  /** `a` can be obtained from `b` by deleting characters. */
  predicate IsSubsequence(a: string, b: string)
    decreases |b|
  {
    if a == [] then true
    else if b == [] then false
    else if a[0] == b[0] then IsSubsequence(a[1..], b[1..])
    else IsSubsequence(a, b[1..])
  }

  /** The filter only deletes: the digits it keeps stay in their order. */
  lemma {:induction false} DigitsOnlyIsSubsequence(s: string)
    ensures IsSubsequence(DigitsOnly(s), s)
  {
    if s != [] {
      DigitsOnlyIsSubsequence(s[1..]);
      var rest := DigitsOnly(s[1..]);
      if !IsDigit(s[0]) && rest != [] {
        assert IsDigit(rest[0]);
      }
    }
  }

  /** The filter keeps every digit (as many of each as the input has) and
      nothing else. */
  lemma {:induction false} DigitsOnlyKeepsEveryDigit(s: string)
    ensures forall c :: multiset(DigitsOnly(s))[c] == if IsDigit(c) then multiset(s)[c] else 0
  {
    if s != [] {
      DigitsOnlyKeepsEveryDigit(s[1..]);
      assert s == [s[0]] + s[1..];
      assert multiset(s) == multiset{s[0]} + multiset(s[1..]);
      if IsDigit(s[0]) {
        assert multiset(DigitsOnly(s)) == multiset{s[0]} + multiset(DigitsOnly(s[1..]));
      }
    }
  }

  /** The filter leaves a string unchanged exactly when it is all digits. */
  lemma {:induction false} DigitsOnlyFixesDigitStrings(s: string)
    ensures DigitsOnly(s) == s <==> AllDigits(s)
  {
    if s != [] {
      DigitsOnlyFixesDigitStrings(s[1..]);
      if !IsDigit(s[0]) {
        assert |DigitsOnly(s)| < |s|;
      } else {
        assert AllDigits(s) ==> AllDigits(s[1..]);
        assert s == [s[0]] + s[1..];
      }
    }
  }

  /** Filtering twice is filtering once. */
  lemma {:induction false} DigitsOnlyIdempotent(s: string)
    ensures DigitsOnly(DigitsOnly(s)) == DigitsOnly(s)
  {
    DigitsOnlyFixesDigitStrings(DigitsOnly(s));
  }

  /** The filter works character by character: it distributes over concatenation. */
  lemma {:induction false} DigitsOnlyAppend(a: string, b: string)
    ensures DigitsOnly(a + b) == DigitsOnly(a) + DigitsOnly(b)
  {
    if a != [] {
      assert (a + b)[1..] == a[1..] + b;
      DigitsOnlyAppend(a[1..], b);
    } else {
      assert a + b == b;
    }
  }

  // ---------------------------------------------------------------------
  // The submit buttons' `disabled` expressions.
  // ---------------------------------------------------------------------

  /** The Send button is enabled unless a call is outstanding. */
  function SendEnabled(isLoading: bool): (enabled: bool)
    ensures enabled <==> !isLoading
  {
    !isLoading
  }

  /** The Verify button: `disabled={isLoading || otp.length !== 6}`. */
  function VerifyEnabled(isLoading: bool, otp: string): (enabled: bool)
    ensures enabled <==> SendEnabled(isLoading) && |otp| == MaxCodeLength
  {
    !(isLoading || |otp| != MaxCodeLength)
  }

  /** A complete code: six digits. */
  predicate IsCompleteCode(otp: string) {
    |otp| == MaxCodeLength && AllDigits(otp)
  }

  /** The error paragraph renders `error && <p>…</p>`: a message that is null
      or empty is not shown. */
  function ErrorShown(error: Option<string>): (shown: bool)
    ensures shown <==> error.Some? && |error.value| > 0
  {
    error.Some? && error.value != ""
  }

  /** After a failed send or verify, the error is shown unless it came from
      an `Error` whose message is empty; the default messages always show. */
  lemma FailureMessageShown(reason: Thrown, fallback: string)
    requires fallback == SendFailedMessage || fallback == VerifyFailedMessage
    ensures ErrorShown(Some(MessageOr(reason, fallback))) <==> reason.OtherValue? || reason.message != ""
  {
  }

  // ---------------------------------------------------------------------
  // The page's state and its transitions.
  // ---------------------------------------------------------------------

  /** The provider call a handler is suspended on, if any. */
  datatype Call = NoCall | SendingCode | VerifyingCode

  class LoginPage {
    var email: string
    /** The phase: false shows the email form, true the code form. */
    var otpSent: bool
    var otp: string
    var error: Option<string>
    var isLoading: bool
    /** The handler whose `await` has not resumed yet. */
    var inFlight: Call
    /** Provider calls and router calls, oldest first. */
    var effects: seq<Effect>

    ghost predicate Valid()
      reads this
    {
      // the code field holds at most six digits
      && AllDigits(otp) && |otp| <= MaxCodeLength
      // the busy flag is set exactly while a handler is suspended
      && (isLoading <==> inFlight != NoCall)
      // each attempt starts from a cleared error, which stays cleared until it settles
      && (inFlight != NoCall ==> error == None)
      // a code request is only outstanding in the email phase
      && (inFlight == SendingCode ==> !otpSent)
    }

    /** The state hooks' initial values. */
    constructor ()
      ensures Valid()
      ensures email == "" && !otpSent && otp == "" && error == None && !isLoading
      ensures inFlight == NoCall && effects == []
    {
      email, otpSent, otp, error, isLoading := "", false, "", None, false;
      inFlight, effects := NoCall, [];
    }

    /** The mount check once `getUser` has resolved: a signed-in visitor is
        sent home; otherwise nothing happens. */
    method CheckAuthResolved(user: Option<User>)
      requires Valid()
      modifies this`effects
      ensures Valid()
      ensures effects == old(effects) + (if user.Some? then [Push("/")] else [])
    {
      if user.Some? {
        effects := effects + [Push("/")];
      }
    }

    /** Typing in the email field, which is editable only in the email phase. */
    method EditEmail(value: string)
      requires Valid() && !otpSent
      modifies this`email
      ensures Valid() && email == value
    {
      email := value;
    }

    /** Typing in the code field. `raw` is the field's value, which the
        browser keeps within `maxLength`; the stored code is its digits. */
    method EditCode(raw: string)
      requires Valid() && otpSent
      requires |raw| <= MaxCodeLength
      modifies this`otp
      ensures Valid()
      ensures otp == DigitsOnly(raw)
      ensures AllDigits(otp) && |otp| <= MaxCodeLength && IsSubsequence(otp, raw)
    {
      otp := DigitsOnly(raw);
      DigitsOnlyIsSubsequence(raw);
    }

    /** `handleSendOTP` up to its `await`: the busy flag goes up, the error is
        cleared and a code is requested for the current email, creating the
        user if needed. Both submit buttons are then disabled. */
    method SubmitEmail()
      requires Valid() && !otpSent && SendEnabled(isLoading)
      modifies this`isLoading, this`error, this`inFlight, this`effects
      ensures Valid()
      ensures isLoading && error == None && inFlight == SendingCode
      ensures effects == old(effects) + [SignInWithOtp(email, true)]
      ensures !SendEnabled(isLoading) && !VerifyEnabled(isLoading, otp)
    {
      isLoading := true;
      error := None;
      inFlight := SendingCode;
      effects := effects + [SignInWithOtp(email, true)];
    }

    /** `handleSendOTP` after its `await`: success moves to the code phase,
        failure records the message (or the default) and stays in the email
        phase; the busy flag comes down either way. */
    method SendResolved(outcome: CallOutcome)
      requires Valid() && inFlight == SendingCode
      modifies this`otpSent, this`error, this`isLoading, this`inFlight
      ensures Valid()
      ensures !isLoading && inFlight == NoCall
      ensures outcome.Succeeded? ==> otpSent && error == None
      ensures outcome.Rejected? ==>
        !otpSent && error == Some(MessageOr(outcome.reason, SendFailedMessage))
      ensures email == old(email) && otp == old(otp) && effects == old(effects)
    {
      if outcome.Succeeded? {
        otpSent := true;
      } else {
        error := Some(MessageOr(outcome.reason, SendFailedMessage));
      }
      isLoading := false;
      inFlight := NoCall;
    }

    /** `handleVerifyOTP` up to its `await`: the busy flag goes up, the error
        is cleared and the six-digit code is checked for the current email. */
    method SubmitCode()
      requires Valid() && otpSent && VerifyEnabled(isLoading, otp)
      modifies this`isLoading, this`error, this`inFlight, this`effects
      ensures Valid()
      ensures isLoading && error == None && inFlight == VerifyingCode
      ensures effects == old(effects) + [VerifyOtp(email, otp, "email")]
      ensures IsCompleteCode(otp)
      ensures !SendEnabled(isLoading) && !VerifyEnabled(isLoading, otp)
    {
      isLoading := true;
      error := None;
      inFlight := VerifyingCode;
      effects := effects + [VerifyOtp(email, otp, "email")];
    }

    /** `handleVerifyOTP` after its `await`: success navigates home and then
        refreshes; failure records the message (or the default) and
        navigates nowhere. The phase is left as it is and the busy flag
        comes down either way. */
    method VerifyResolved(outcome: CallOutcome)
      requires Valid() && inFlight == VerifyingCode
      modifies this`error, this`isLoading, this`inFlight, this`effects
      ensures Valid()
      ensures !isLoading && inFlight == NoCall
      ensures outcome.Succeeded? ==> effects == old(effects) + [Push("/"), Refresh] && error == None
      ensures outcome.Rejected? ==>
        effects == old(effects) && error == Some(MessageOr(outcome.reason, VerifyFailedMessage))
      ensures otpSent == old(otpSent) && email == old(email) && otp == old(otp)
    {
      if outcome.Succeeded? {
        effects := effects + [Push("/")];
        effects := effects + [Refresh];
      } else {
        error := Some(MessageOr(outcome.reason, VerifyFailedMessage));
      }
      isLoading := false;
      inFlight := NoCall;
    }

    /** The Back button of the code phase: back to the email phase with the
        code and the error cleared and the email kept. */
    method Back()
      requires Valid() && otpSent
      modifies this`otpSent, this`otp, this`error
      ensures Valid()
      ensures !otpSent && otp == "" && error == None
      ensures email == old(email) && isLoading == old(isLoading) && effects == old(effects)
    {
      otpSent := false;
      otp := "";
      error := None;
    }

    /** `handleSendOTP` when no other event comes between the call and its
        answer. */
    method HandleSendOTP(outcome: CallOutcome)
      requires Valid() && !otpSent && SendEnabled(isLoading)
      modifies this`otpSent, this`error, this`isLoading, this`inFlight, this`effects
      ensures Valid() && !isLoading
      ensures effects == old(effects) + [SignInWithOtp(old(email), true)]
      ensures otpSent <==> outcome.Succeeded?
      ensures error == if outcome.Succeeded? then None else Some(MessageOr(outcome.reason, SendFailedMessage))
    {
      SubmitEmail();
      SendResolved(outcome);
    }

    /** `handleVerifyOTP` when no other event comes between the call and its
        answer: the phase stays the code phase, and the only navigation is
        home-then-refresh on success. */
    method HandleVerifyOTP(outcome: CallOutcome)
      requires Valid() && otpSent && VerifyEnabled(isLoading, otp)
      modifies this`error, this`isLoading, this`inFlight, this`effects
      ensures Valid() && !isLoading && otpSent
      ensures effects == old(effects) + [VerifyOtp(email, otp, "email")]
        + (if outcome.Succeeded? then [Push("/"), Refresh] else [])
      ensures error == if outcome.Succeeded? then None else Some(MessageOr(outcome.reason, VerifyFailedMessage))
    {
      SubmitCode();
      VerifyResolved(outcome);
    }
  }
}
