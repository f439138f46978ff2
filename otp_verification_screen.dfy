/** The OTP verification form: the input is reduced to its first six ASCII
    digits as it is typed, Continue is offered only for six of them, and the
    store is asked to verify only a code the OTP validator accepts. */
module OtpVerificationScreen {
  import opened Types
  import AuthContext

  const OtpLength := 6
  const InvalidOtpMessage := "Please enter a valid 6-digit OTP code"

  /** What a submit led to: the code was refused by validation, the screen
      navigated to Main, or the verification-failed alert was raised. */
  datatype OtpOutcome = Rejected | NavigateToMain | VerificationFailedAlert

  /** The characters the pattern `[0-9]` matches. */
  predicate IsDigit(c: char) {
    '0' <= c <= '9'
  }

  ghost predicate AllDigits(s: string) {
    forall i :: 0 <= i < |s| ==> IsDigit(s[i])
  }

  /** Six ASCII digits. */
  ghost predicate IsSixDigitCode(s: string) {
    |s| == OtpLength && AllDigits(s)
  }

  /** `value.replace(/[^0-9]/g, '')`: the digits of `value`, in order. */
  function DigitsOnly(value: string): (r: string)
    ensures AllDigits(r)
    ensures |r| <= |value|
  {
    if value == [] then []
    else (if IsDigit(value[0]) then [value[0]] else []) + DigitsOnly(value[1..])
  }

  /** Removing non-digits commutes with concatenation: the digits of `a + b`
      are the digits of `a` followed by the digits of `b`. */
  lemma {:induction false} DigitsOnlyAppend(a: string, b: string)
    ensures DigitsOnly(a + b) == DigitsOnly(a) + DigitsOnly(b)
    decreases |a|
  {
    if a == [] {
      assert a + b == b;
    } else {
      var head := if IsDigit(a[0]) then [a[0]] else [];
      assert (a + b)[0] == a[0];
      assert (a + b)[1..] == a[1..] + b;
      assert DigitsOnly(a + b) == head + DigitsOnly(a[1..] + b);
      DigitsOnlyAppend(a[1..], b);
      assert head + (DigitsOnly(a[1..]) + DigitsOnly(b)) == (head + DigitsOnly(a[1..])) + DigitsOnly(b);
    }
  }

  /** A string of digits is left as it is. */
  lemma {:induction false} DigitsOnlyKeepsDigits(s: string)
    requires AllDigits(s)
    ensures DigitsOnly(s) == s
    decreases |s|
  {
    if s != [] {
      DigitsOnlyKeepsDigits(s[1..]);
    }
  }

  /** `value.replace(/[^0-9]/g, '').slice(0, 6)`: the first at most six
      digits of `value`, in their original order. */
  function Sanitize(value: string): (r: string)
    ensures AllDigits(r)
    ensures |r| <= OtpLength
    ensures |r| <= |DigitsOnly(value)| && r == DigitsOnly(value)[..|r|]
    ensures |r| == OtpLength || r == DigitsOnly(value)
  {
    var digits := DigitsOnly(value);
    if |digits| <= OtpLength then digits else digits[..OtpLength]
  }

  /** Sanitising a sanitised value changes nothing. */
  lemma SanitizeIdempotent(value: string)
    ensures Sanitize(Sanitize(value)) == Sanitize(value)
  {
    DigitsOnlyKeepsDigits(Sanitize(value));
  }

  /** Typing a character that is not a digit leaves the code as it was. */
  lemma SanitizeIgnoresNonDigit(value: string, c: char)
    requires !IsDigit(c)
    ensures Sanitize(value + [c]) == Sanitize(value)
  {
    DigitsOnlyAppend(value, [c]);
    assert DigitsOnly([c]) == [] by {
      assert [c][1..] == [];
    }
    assert DigitsOnly(value) + [] == DigitsOnly(value);
  }

  /** The sanitised code is complete exactly when the input holds at least six digits. */
  lemma SanitizeCompleteIff(value: string)
    ensures |Sanitize(value)| == OtpLength <==> |DigitsOnly(value)| >= OtpLength
    ensures |Sanitize(value)| == OtpLength ==> IsSixDigitCode(Sanitize(value))
  {
  }

  /** The screen's state: the code as shown and the inline error. */
  class OtpScreenState {
    var otp: string
    var error: string

    /** The field only ever holds what the sanitiser produced. */
    ghost predicate Valid()
      reads this
    {
      AllDigits(otp) && |otp| <= OtpLength
    }

    constructor ()
      ensures Valid() && otp == "" && error == ""
    {
      otp := "";
      error := "";
    }

    /** `handleOTPChange(value)`: keeps the first six digits, and clears any error. */
    method HandleOtpChange(value: string)
      modifies this
      ensures Valid()
      ensures otp == Sanitize(value)
      ensures error == ""
    {
      otp := Sanitize(value);
      if error != "" {
        error := "";
      }
    }

    /** The Continue button is pressable only for a complete code and while no
        request is in flight (the button disables itself while loading). */
    function ContinueEnabled(isLoading: bool): (enabled: bool)
      requires Valid()
      reads this
      ensures enabled <==> |otp| == OtpLength && !isLoading
      ensures enabled ==> IsSixDigitCode(otp)
    {
      |otp| == OtpLength && !isLoading
    }

    /** `validateForm`: asks the OTP validator about the current code, and on
        refusal shows the invalid-code message. */
    method ValidateForm(validateOtp: string -> bool) returns (ok: bool)
      modifies this`error
      ensures ok <==> validateOtp(otp)
      ensures error == if ok then old(error) else InvalidOtpMessage
    {
      if !validateOtp(otp) {
        error := InvalidOtpMessage;
        return false;
      }
      return true;
    }

    /** `handleVerifyOTP`: a code the validator refuses never reaches the
        store; an accepted one is verified, and the outcome follows the store's answer. */
    method HandleVerifyOtp(auth: AuthContext.AuthStore, validateOtp: string -> bool) returns (outcome: OtpOutcome)
      requires auth.Valid()
      modifies this`error, auth
      ensures auth.Valid()
      ensures !validateOtp(otp) ==> outcome == Rejected && error == InvalidOtpMessage
      ensures !validateOtp(otp) ==> auth.state == old(auth.state) && auth.dispatched == old(auth.dispatched)
      ensures validateOtp(otp) ==> error == old(error)
      ensures validateOtp(otp) ==> auth.dispatched == old(auth.dispatched) + AuthContext.VerifyOtpActions(otp)
      ensures validateOtp(otp) ==> (outcome == NavigateToMain <==> otp == AuthContext.MockOtp)
      ensures validateOtp(otp) ==> (outcome == VerificationFailedAlert <==> otp != AuthContext.MockOtp)
      ensures validateOtp(otp) && otp == AuthContext.MockOtp ==> auth.state == AuthContext.SignedInAs(AuthContext.VerifiedUser)
      ensures validateOtp(otp) && otp != AuthContext.MockOtp ==> auth.state == AuthContext.InitialState
    {
      var valid := ValidateForm(validateOtp);
      if !valid {
        return Rejected;
      }
      var success := auth.VerifyOtp(otp);
      outcome := if success then NavigateToMain else VerificationFailedAlert;
    }

    /** A press of Continue, the only way the screen submits: the button runs
        `handleVerifyOTP` only while it is enabled, so whatever the validator
        accepts, a code that reaches the store is six ASCII digits. */
    method PressContinue(auth: AuthContext.AuthStore, validateOtp: string -> bool) returns (outcome: OtpOutcome)
      requires Valid() && auth.Valid()
      requires ContinueEnabled(auth.state.isLoading)
      modifies this`error, auth
      ensures Valid() && auth.Valid()
      ensures auth.dispatched != old(auth.dispatched) ==> IsSixDigitCode(otp)
      ensures auth.dispatched != old(auth.dispatched) ==> auth.dispatched == old(auth.dispatched) + AuthContext.VerifyOtpActions(otp)
      ensures outcome == NavigateToMain <==> validateOtp(otp) && otp == AuthContext.MockOtp
    {
      outcome := HandleVerifyOtp(auth, validateOtp);
    }
  }
}
