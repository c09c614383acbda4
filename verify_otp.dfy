/**
 * The one-time-password form's schema: `otp` must be exactly six characters
 * and match `/^\d+$/`. Both checks of the string schema run, so an input can
 * carry both messages at once.
 */
module VerifyOtp {
  import opened FormRules

  const OtpLength: nat := 6
  const LengthMessage: string := "OTP must be exactly 6 digits"
  const DigitsMessage: string := "OTP must contain only numbers"
  /** The form's default value. */
  const DefaultOtp: string := ""

  /** The messages the schema reports for `otp`; empty means accepted. */
  function OtpErrors(otp: string): (errors: set<string>)
    ensures errors <= {LengthMessage, DigitsMessage}
    ensures LengthMessage in errors <==> |otp| != OtpLength
    ensures DigitsMessage in errors <==> !MatchesDigits(otp)
  {
    (if |otp| != OtpLength then {LengthMessage} else {}) +
    (if MatchesDigits(otp) then {} else {DigitsMessage})
  }

  predicate OtpAccepted(otp: string)
  {
    OtpErrors(otp) == {}
  }

  /** Accepted exactly when the input is six ASCII digits. */
  lemma AcceptedIffSixDigits(otp: string)
    ensures OtpAccepted(otp) <==> |otp| == 6 && AllDigits(otp)
  {
  }

  /** A six-character input with a non-digit gets only the digits message. */
  lemma NonDigitOfRightLength(otp: string)
    requires |otp| == 6 && !AllDigits(otp)
    ensures OtpErrors(otp) == {DigitsMessage}
  {
  }

  /** A wrong-length all-digit input gets only the length message. */
  lemma DigitsOfWrongLength(otp: string)
    requires |otp| != 6 && MatchesDigits(otp)
    ensures OtpErrors(otp) == {LengthMessage}
  {
  }

  /** The untouched form is rejected with both messages (`/^\d+$/` needs at least one digit). */
  lemma DefaultRejected()
    ensures OtpErrors(DefaultOtp) == {LengthMessage, DigitsMessage}
  {
  }

  /** Leading zeros are fine. */
  lemma LeadingZerosAccepted()
    ensures OtpAccepted("000000")
  {
  }

  /** The accepted inputs are exactly the one million zero-padded codes `000000` to `999999`. */
  lemma AcceptedAreSixDigitCodes(otp: string)
    ensures OtpAccepted(otp) <==> exists v: nat :: v < 1000000 && otp == Padded(v, 6)
  {
    AcceptedIffSixDigits(otp);
    DigitStringsArePaddings(otp, 6);
    assert Pow10(6) == 1000000;
  }

  /** Different codes are different inputs, so exactly one million inputs are accepted. */
  lemma DistinctCodesDistinctOtps(v1: nat, v2: nat)
    requires v1 < 1000000 && v2 < 1000000 && v1 != v2
    ensures Padded(v1, 6) != Padded(v2, 6)
  {
    assert Pow10(6) == 1000000;
    ValueOfPadded(v1, 6);
    ValueOfPadded(v2, 6);
  }
}
