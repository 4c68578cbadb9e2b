/**
 * The sign-in component (`PhoneAuth`): Sri Lankan mobile number validation
 * and formatting, and the step machine phone → OTP → profile → contacts that
 * ends by reporting the formatted number and the trimmed name.
 *
 * The simulated SMS, verification and permission delays are explicit timer
 * events; the random code `generateOTP` draws is the parameter `code` of the
 * events that deliver it; the `onAuthSuccess` callback is the log `authResults`.
 */
module PhoneAuth {
  import opened Text
  import ContactVerification

  // ---------------------------------------------------------------------------
  // Validation and formatting

  /**
   * `validateSriLankanPhone`: the digits of the input are either `947`
   * followed by 8 digits, or `07` followed by 8 digits.
   */
  predicate ValidSriLankanPhone(phone: string)
  {
    var digits := Digits(phone);
    if StartsWith(digits, "94") then |digits| == 11 && StartsWith(digits, "947")
    else if StartsWith(digits, "0") then |digits| == 10 && StartsWith(digits, "07")
    else false
  }

  /**
   * `formatPhoneNumber`: the same rule as the contact service's
   * `normalizePhone`, so it is defined as that function. A valid number comes
   * out as `+947` followed by 8 digits.
   */
  function FormatPhoneNumber(phone: string): (r: string)
    ensures ContactVerification.International(r) || r == phone
    ensures ValidSriLankanPhone(phone) ==> ContactVerification.International(r)
  {
    ContactVerification.NormalizePhone(phone)
  }

  /** Every accepted number formats to `+947` followed by 8 digits. */
  lemma FormatValid(phone: string)
    requires ValidSriLankanPhone(phone)
    ensures |FormatPhoneNumber(phone)| == 12 && StartsWith(FormatPhoneNumber(phone), "+947") && AllDigits(FormatPhoneNumber(phone)[1..])
  {
    var digits := Digits(phone);
    if StartsWith(digits, "0") {
      assert digits[0] == '0';
      assert !StartsWith(digits, "94");
      assert digits[..2] == "07";
      var f := "+94" + digits[1..];
      assert FormatPhoneNumber(phone) == f;
      assert digits[1] == digits[..2][1] == '7';
      assert f[3] == digits[1];
      assert f[..4] == "+947" && f[1..] == "94" + digits[1..];
    } else {
      assert digits[..3] == "947";
      var f := "+" + digits;
      assert FormatPhoneNumber(phone) == f;
      assert f[..4] == "+947" && f[1..] == digits;
    }
  }

  /** Exactly the numbers `947` + 8 digits and `07` + 8 digits are accepted, whatever separators surround the digits. */
  lemma ValidExactly(phone: string)
    ensures ValidSriLankanPhone(phone) <==>
      (|Digits(phone)| == 11 && StartsWith(Digits(phone), "947")) || (|Digits(phone)| == 10 && StartsWith(Digits(phone), "07"))
  {
    var d := Digits(phone);
    if |d| == 10 && StartsWith(d, "07") {
      assert d[..2] == "07";
      assert !StartsWith(d, "94");
      assert StartsWith(d, "0");
    }
    if |d| == 11 && StartsWith(d, "947") {
      assert d[..3] == "947";
      assert d[..2] == "94";
    }
  }

  /** An accepted number formats as its digits do, so `077 123 4567` and `0771234567` give the same `+94771234567`. */
  lemma FormatIgnoresSeparators(phone: string)
    requires ValidSriLankanPhone(phone)
    ensures FormatPhoneNumber(phone) == FormatPhoneNumber(Digits(phone))
    ensures StartsWith(Digits(phone), "0") ==> FormatPhoneNumber(phone) == "+94" + Digits(phone)[1..]
    ensures !StartsWith(Digits(phone), "0") ==> FormatPhoneNumber(phone) == "+" + Digits(phone)
  {
    ValidExactly(phone);
    ContactVerification.NormalizeIgnoresSeparators(phone);
  }

  /** The local and the international spelling of the same mobile number are both accepted and format identically. */
  lemma LocalAndInternationalAgree(rest: string)
    requires |rest| == 8 && AllDigits(rest)
    ensures ValidSriLankanPhone("07" + rest) && ValidSriLankanPhone("947" + rest)
    ensures FormatPhoneNumber("07" + rest) == FormatPhoneNumber("947" + rest) == "+947" + rest
  {
    var local := "07" + rest;
    var intl := "947" + rest;
    assert AllDigits(local) && AllDigits(intl);
    assert local[..2] == "07" && local[..1] == "0";
    assert intl[..3] == "947" && intl[..2] == "94";
    assert local == "0" + ("7" + rest);
    assert intl == "94" + ("7" + rest);
    assert "+94" + ("7" + rest) == "+947" + rest;
    ContactVerification.NormalizeLocalAndInternational("7" + rest);
  }

  /** A formatted valid number is itself valid, and formatting it again changes nothing. */
  lemma FormattedStaysValid(phone: string)
    requires ValidSriLankanPhone(phone)
    ensures ValidSriLankanPhone(FormatPhoneNumber(phone))
    ensures FormatPhoneNumber(FormatPhoneNumber(phone)) == FormatPhoneNumber(phone)
  {
    FormatValid(phone);
    var f := FormatPhoneNumber(phone);
    var tail := f[1..];
    assert f == "+" + tail;
    DigitsConcat("+", tail);
    assert Digits("+") == [];
    assert Digits(f) == tail;
    assert tail[..3] == "947" && tail[..2] == "94";
    assert ContactVerification.International(f);
    ContactVerification.NormalizeInternational(f);
  }

  // ---------------------------------------------------------------------------
  // The OTP field

  /** The OTP field's `onChange`: the digits typed, cut to the first 6. */
  function SanitizeOtp(input: string): (r: string)
    ensures AllDigits(r) && |r| <= 6
    ensures StartsWith(Digits(input), r)
    ensures |r| == if |Digits(input)| < 6 then |Digits(input)| else 6
  {
    var digits := Digits(input);
    digits[..if |digits| < 6 then |digits| else 6]
  }

  /** Sanitising an already sanitised value keeps it. */
  lemma SanitizeOtpIdempotent(input: string)
    ensures SanitizeOtp(SanitizeOtp(input)) == SanitizeOtp(input)
  {
  }

  /** `generateOTP`'s range, 100000 to 999999, always renders as exactly 6 digits, so a generated code can be typed in full. */
  lemma GeneratedCodeHasSixDigits(code: nat)
    requires 100000 <= code <= 999999
    ensures |NatToString(code)| == 6 && SanitizeOtp(NatToString(code)) == NatToString(code)
  {
    var n := code;
    assert |NatToString(n / 100000)| == 1;
    assert |NatToString(n / 10000)| == 2;
    assert |NatToString(n / 1000)| == 3;
    assert |NatToString(n / 100)| == 4;
    assert |NatToString(n / 10)| == 5;
  }

  // ---------------------------------------------------------------------------
  // The step machine

  datatype AuthStep = PhoneStep | OtpStep | ProfileStep | ContactsStep

  datatype Permission = Pending | Granted | Denied

  /** The success banner; `SmsSent` and `SmsResent` show the code sent. */
  datatype Success = NoSuccess | SmsSent(to: string, code: string) | PhoneVerified | ContactsGranted | SmsResent(code: string)

  /** One call of `onAuthSuccess`. */
  datatype AuthResult = AuthResult(phone: string, name: string)

  /** What `onAuthSuccess` is called with: the formatted number and the trimmed name. */
  function Report(phone: string, name: string): AuthResult
  {
    AuthResult(FormatPhoneNumber(phone), Trim(name))
  }

  const PhoneError := "Please enter a valid Sri Lankan mobile number (07X XXX XXXX)"
  const OtpLengthError := "Please enter a valid 6-digit OTP"
  const OtpMismatchError := "Invalid OTP. Please check the code and try again."
  const NameError := "Please enter your name"

  class PhoneAuthForm {
    var step: AuthStep
    var phoneNumber: string
    var otp: string
    var name: string
    var isLoading: bool
    var error: string
    var successMessage: Success
    var generatedOtp: string
    var contactsPermission: Permission
    /** Every call of `onAuthSuccess`, in order. */
    var authResults: seq<AuthResult>
    /** Pending timers: the SMS of a phone submit, the code comparisons of OTP submits (each fixed when submitted), resends, the permission grant, and the report after it. */
    var smsTimers: nat
    var otpChecks: seq<bool>
    var resendTimers: nat
    var grantTimers: nat
    var reportTimers: nat

    constructor ()
      ensures step == PhoneStep && phoneNumber == "" && otp == "" && name == "" && !isLoading && error == ""
      ensures successMessage == NoSuccess && generatedOtp == "" && contactsPermission == Pending && authResults == []
      ensures smsTimers == 0 && otpChecks == [] && resendTimers == 0 && grantTimers == 0 && reportTimers == 0
    {
      step := PhoneStep;
      phoneNumber := "";
      otp := "";
      name := "";
      isLoading := false;
      error := "";
      successMessage := NoSuccess;
      generatedOtp := "";
      contactsPermission := Pending;
      authResults := [];
      smsTimers := 0;
      otpChecks := [];
      resendTimers := 0;
      grantTimers := 0;
      reportTimers := 0;
    }

    method SetPhoneNumber(value: string)
      modifies this`phoneNumber
      ensures phoneNumber == value
    {
      phoneNumber := value;
    }

    /** The OTP field's `onChange`. */
    method SetOtp(value: string)
      modifies this`otp
      ensures otp == SanitizeOtp(value)
    {
      otp := SanitizeOtp(value);
    }

    method SetName(value: string)
      modifies this`name
      ensures name == value
    {
      name := value;
    }

    /** `handlePhoneSubmit`: an invalid number only sets the error; a valid one starts sending the SMS. */
    method HandlePhoneSubmit()
      modifies this`error, this`successMessage, this`isLoading, this`smsTimers
      ensures successMessage == NoSuccess
      ensures !ValidSriLankanPhone(phoneNumber) ==>
        error == PhoneError && isLoading == old(isLoading) && smsTimers == old(smsTimers)
      ensures ValidSriLankanPhone(phoneNumber) ==> error == "" && isLoading && smsTimers == old(smsTimers) + 1
    {
      error := "";
      successMessage := NoSuccess;
      if !ValidSriLankanPhone(phoneNumber) {
        error := PhoneError;
        return;
      }
      isLoading := true;
      smsTimers := smsTimers + 1;
    }

    /** The SMS timer fires with the drawn `code`: it becomes the expected code and the step `otp`. */
    method SmsTimerFired(code: nat)
      requires smsTimers > 0 && 100000 <= code <= 999999
      modifies this`generatedOtp, this`successMessage, this`step, this`isLoading, this`smsTimers
      ensures generatedOtp == NatToString(code) && |generatedOtp| == 6
      ensures successMessage == SmsSent(FormatPhoneNumber(phoneNumber), NatToString(code))
      ensures step == OtpStep && !isLoading && smsTimers == old(smsTimers) - 1
    {
      GeneratedCodeHasSixDigits(code);
      generatedOtp := NatToString(code);
      successMessage := SmsSent(FormatPhoneNumber(phoneNumber), generatedOtp);
      step := OtpStep;
      isLoading := false;
      smsTimers := smsTimers - 1;
    }

    /** `handleOtpSubmit`: a code that is not 6 characters long is refused at once; otherwise it is compared, with the answer given when the timer fires. */
    method HandleOtpSubmit()
      modifies this`error, this`successMessage, this`isLoading, this`otpChecks
      ensures successMessage == NoSuccess
      ensures |otp| != 6 ==> error == OtpLengthError && isLoading == old(isLoading) && otpChecks == old(otpChecks)
      ensures |otp| == 6 ==> error == "" && isLoading && otpChecks == old(otpChecks) + [otp == generatedOtp]
    {
      error := "";
      successMessage := NoSuccess;
      if |otp| != 6 {
        error := OtpLengthError;
        return;
      }
      isLoading := true;
      otpChecks := otpChecks + [otp == generatedOtp];
    }

    /** The verification timer fires: a matching code leads to the profile step, a wrong one to an error with the step kept. */
    method OtpTimerFired()
      requires otpChecks != []
      modifies this`successMessage, this`step, this`error, this`isLoading, this`otpChecks
      ensures otpChecks == old(otpChecks[1..]) && !isLoading
      ensures old(otpChecks[0]) ==> successMessage == PhoneVerified && step == ProfileStep && error == old(error)
      ensures !old(otpChecks[0]) ==> error == OtpMismatchError && step == old(step) && successMessage == old(successMessage)
    {
      if otpChecks[0] {
        successMessage := PhoneVerified;
        step := ProfileStep;
      } else {
        error := OtpMismatchError;
      }
      isLoading := false;
      otpChecks := otpChecks[1..];
    }

    /** "Change Number": back to the phone step. */
    method ChangeNumber()
      modifies this`step
      ensures step == PhoneStep
    {
      step := PhoneStep;
    }

    /** `handleResendOTP`: a new SMS is on its way. */
    method HandleResendOtp()
      modifies this`error, this`successMessage, this`isLoading, this`resendTimers
      ensures error == "" && successMessage == NoSuccess && isLoading && resendTimers == old(resendTimers) + 1
    {
      error := "";
      successMessage := NoSuccess;
      isLoading := true;
      resendTimers := resendTimers + 1;
    }

    /** The resend timer fires with the drawn `code`: it replaces the expected code, and the entered code is cleared. */
    method ResendTimerFired(code: nat)
      requires resendTimers > 0 && 100000 <= code <= 999999
      modifies this`generatedOtp, this`otp, this`successMessage, this`isLoading, this`resendTimers
      ensures generatedOtp == NatToString(code) && otp == ""
      ensures successMessage == SmsResent(NatToString(code)) && !isLoading && resendTimers == old(resendTimers) - 1
    {
      generatedOtp := NatToString(code);
      otp := "";
      successMessage := SmsResent(generatedOtp);
      isLoading := false;
      resendTimers := resendTimers - 1;
    }

    /** `handleProfileSubmit`: a blank name sets the error; any other moves on to the contacts step. */
    method HandleProfileSubmit()
      modifies this`error, this`step
      ensures IsBlank(name) ==> error == NameError && step == old(step)
      ensures !IsBlank(name) ==> step == ContactsStep && error == old(error)
    {
      if IsBlank(name) {
        error := NameError;
        return;
      }
      step := ContactsStep;
    }

    /** `requestContactsAccess`: the permission prompt is simulated by a timer. */
    method RequestContactsAccess()
      modifies this`isLoading, this`error, this`grantTimers
      ensures isLoading && error == "" && grantTimers == old(grantTimers) + 1
    {
      isLoading := true;
      error := "";
      grantTimers := grantTimers + 1;
    }

    /** The permission timer fires: access is granted and the report is scheduled. */
    method GrantTimerFired()
      requires grantTimers > 0
      modifies this`contactsPermission, this`successMessage, this`isLoading, this`grantTimers, this`reportTimers
      ensures contactsPermission == Granted && successMessage == ContactsGranted && !isLoading
      ensures grantTimers == old(grantTimers) - 1 && reportTimers == old(reportTimers) + 1
    {
      contactsPermission := Granted;
      successMessage := ContactsGranted;
      isLoading := false;
      grantTimers := grantTimers - 1;
      reportTimers := reportTimers + 1;
    }

    /** The report timer fires: `onAuthSuccess` gets the formatted number and the trimmed name. */
    method ReportTimerFired()
      requires reportTimers > 0
      modifies this`authResults, this`reportTimers
      ensures authResults == old(authResults) + [Report(phoneNumber, name)]
      ensures reportTimers == old(reportTimers) - 1
    {
      authResults := authResults + [Report(phoneNumber, name)];
      reportTimers := reportTimers - 1;
    }

    /** `skipContactsAccess`: access is denied and `onAuthSuccess` gets the same report at once. */
    method SkipContactsAccess()
      modifies this`contactsPermission, this`authResults
      ensures contactsPermission == Denied
      ensures authResults == old(authResults) + [Report(phoneNumber, name)]
    {
      contactsPermission := Denied;
      authResults := authResults + [Report(phoneNumber, name)];
    }
  }

  /** A valid number is entered and submitted, and the SMS carrying `code` arrives. */
  method ReceiveCode(form: PhoneAuthForm, phone: string, code: nat)
    requires ValidSriLankanPhone(phone) && 100000 <= code <= 999999
    requires form.smsTimers == 0 && form.otpChecks == []
    modifies form
    ensures form.phoneNumber == phone && form.step == OtpStep && form.generatedOtp == NatToString(code)
    ensures form.otpChecks == [] && form.authResults == old(form.authResults)
  {
    form.SetPhoneNumber(phone);
    form.HandlePhoneSubmit();
    form.SmsTimerFired(code);
  }

  /** The code received is typed in full and submitted, and the comparison succeeds. */
  method EnterCode(form: PhoneAuthForm, code: nat)
    requires 100000 <= code <= 999999
    requires form.generatedOtp == NatToString(code) && form.otpChecks == []
    modifies form
    ensures form.step == ProfileStep && form.phoneNumber == old(form.phoneNumber) && form.authResults == old(form.authResults)
  {
    GeneratedCodeHasSixDigits(code);
    form.SetOtp(NatToString(code));
    form.HandleOtpSubmit();
    form.OtpTimerFired();
  }

  /**
   * A complete sign-in: a valid number is entered and submitted, the SMS
   * arrives with `code`, the code is typed and accepted, a non-blank name is
   * entered, and contact access is skipped. The one report carries the number
   * in `+947` form and the trimmed name.
   */
  method SignIn(phone: string, code: nat, name: string) returns (form: PhoneAuthForm)
    requires ValidSriLankanPhone(phone) && 100000 <= code <= 999999 && !IsBlank(name)
    ensures form.step == ContactsStep && form.contactsPermission == Denied
    ensures form.authResults == [Report(phone, name)]
    ensures StartsWith(form.authResults[0].phone, "+947") && |form.authResults[0].phone| == 12
  {
    FormatValid(phone);
    form := new PhoneAuthForm();
    ReceiveCode(form, phone, code);
    EnterCode(form, code);
    form.SetName(name);
    form.HandleProfileSubmit();
    form.SkipContactsAccess();
  }

  /** A mistyped code is refused: the form stays at the OTP step with the mismatch error. */
  method WrongCode(phone: string, code: nat, typed: string) returns (form: PhoneAuthForm)
    requires ValidSriLankanPhone(phone) && 100000 <= code <= 999999
    requires |SanitizeOtp(typed)| == 6 && SanitizeOtp(typed) != NatToString(code)
    ensures form.step == OtpStep && form.error == OtpMismatchError && form.authResults == []
  {
    form := new PhoneAuthForm();
    ReceiveCode(form, phone, code);
    form.SetOtp(typed);
    form.HandleOtpSubmit();
    assert form.otpChecks == [false];
    form.OtpTimerFired();
  }
}
