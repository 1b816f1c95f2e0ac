/** The login screen: the mobile-number and e-mail rules, the one-time
    code countdown and its `m:ss` text, and the screen's state machine from
    number entry through code entry to the new-user profile form. */
module Login {
  import opened Common

  predicate IsDigit(c: char) {
    '0' <= c <= '9'
  }

  predicate AllDigits(s: string) {
    forall i :: 0 <= i < |s| ==> IsDigit(s[i])
  }

  /** `/^[6-9]\d{9}$/`: ten ASCII digits, the first one 6 to 9. */
  predicate IsValidMobile(s: string) {
    |s| == 10 && '6' <= s[0] <= '9' && AllDigits(s)
  }

  const MobileError := "Enter a valid 10-digit mobile number"

  /** What `/^\S+@\S+\.\S+$/` accepts: no white space anywhere, an '@' after
      at least one character, and a '.' with at least one character between
      it and the '@' and at least one after it. */
  ghost predicate EmailShape(s: string) {
    NoSpace(s) && exists i, j :: 1 <= i && i + 2 <= j <= |s| - 2 && s[i] == '@' && s[j] == '.'
  }

  /** The first position at or after `from` that holds `c`. */
  function FindFrom(s: string, c: char, from: nat): (r: Option<nat>)
    ensures r.Some? ==> from <= r.value < |s| && s[r.value] == c
    ensures r.Some? ==> forall k :: from <= k < r.value ==> s[k] != c
    ensures r.None? ==> forall k :: from <= k < |s| ==> s[k] != c
    decreases |s| - from
  {
    if from >= |s| then None
    else if s[from] == c then Some(from)
    else FindFrom(s, c, from + 1)
  }

  /** The e-mail rule, decided by looking for the first '@' that has a
      character before it and then for a '.' that fits between it and the
      last character. */
  function IsValidEmail(s: string): (b: bool)
    ensures b <==> EmailShape(s)
  {
    if !NoSpace(s) || |s| < 5 then
      assert !EmailShape(s);
      false
    else
      match FindFrom(s, '@', 1)
      case None => false
      case Some(i) =>
        var dot := FindFrom(s[..|s| - 1], '.', i + 2);
        assert EmailShape(s) ==> dot.Some? by {
          if EmailShape(s) {
            var i', j' :| 1 <= i' && i' + 2 <= j' <= |s| - 2 && s[i'] == '@' && s[j'] == '.';
            assert i <= i';
            assert s[..|s| - 1][j'] == '.';
          }
        }
        assert dot.Some? ==> s[dot.value] == '.';
        dot.Some?
  }

  /** An address the rule accepts is never blank, so the separate
      `!email.trim()` test adds nothing. */
  lemma EmailShapeNotBlank(s: string)
    requires EmailShape(s)
    ensures !IsBlank(s)
  {
    assert !IsSpace(s[0]);
  }

  datatype ProfileResult = FocusFirstName | FocusEmail | Submitted

  /** handleProfileSubmit's checks, in order: a first name that is not
      blank, then an e-mail address that is not blank and fits the rule. */
  function ProfileCheck(firstName: string, email: string): (r: ProfileResult)
    ensures r == FocusFirstName <==> IsBlank(firstName)
    ensures r == FocusEmail <==> !IsBlank(firstName) && !EmailShape(email)
    ensures r == Submitted <==> !IsBlank(firstName) && EmailShape(email)
  {
    if Trim(firstName) == "" then FocusFirstName
    else if Trim(email) == "" || !IsValidEmail(email) then
      assert EmailShape(email) ==> !IsBlank(email) by {
        if EmailShape(email) { EmailShapeNotBlank(email); }
      }
      FocusEmail
    else Submitted
  }

  /** The decimal digits of `n`, as `toString()` writes them. */
  function NatToString(n: nat): (s: string)
    ensures |s| >= 1 && AllDigits(s)
    ensures n < 10 ==> |s| == 1
    ensures n >= 10 ==> |s| >= 2
    ensures s[0] == '0' <==> n == 0
    decreases n
  {
    if n < 10 then [(48 + n) as char]
    else NatToString(n / 10) + [(48 + n % 10) as char]
  }

  /** The value of a string of decimal digits. */
  function DigitsValue(s: string): nat
    requires AllDigits(s)
  {
    if s == [] then 0 else DigitsValue(s[..|s| - 1]) * 10 + (s[|s| - 1] as int - 48)
  }

  /** Reading the digits back gives the number. */
  lemma {:induction false} NatToStringRoundTrip(n: nat)
    ensures DigitsValue(NatToString(n)) == n
    decreases n
  {
    if n >= 10 {
      NatToStringRoundTrip(n / 10);
      var s := NatToString(n);
      assert s[..|s| - 1] == NatToString(n / 10);
    }
  }

  /** `s.padStart(2, '0')`. */
  function PadTwo(s: string): (r: string)
    ensures |s| >= 2 ==> r == s
    ensures |s| < 2 ==> |r| == 2 && r[2 - |s|..] == s
    ensures |s| < 2 ==> forall i :: 0 <= i < 2 - |s| ==> r[i] == '0'
  {
    if |s| >= 2 then s
    else if |s| == 1 then "0" + s
    else "00"
  }

  const ExpiredText := "Code expired. Click resend code"

  /** formatTimer: the expiry text at 0, `m:ss` otherwise. */
  function FormatTimer(t: nat): string {
    if t == 0 then ExpiredText
    else NatToString(t / 60) + ":" + PadTwo(NatToString(t % 60))
  }

  /** Seconds below a minute always come out as exactly two digits. */
  lemma PadTwoSeconds(n: nat)
    requires n < 60
    ensures |PadTwo(NatToString(n))| == 2 && AllDigits(PadTwo(NatToString(n)))
    ensures DigitsValue(PadTwo(NatToString(n))) == n
  {
    NatToStringRoundTrip(n);
    var d := NatToString(n);
    var ss := PadTwo(d);
    if n < 10 {
      assert ss == "0" + d && ss[..1] == "0" && ss[1] == d[0];
      assert DigitsValue(d) == DigitsValue(d[..0]) * 10 + (d[0] as int - 48);
    }
  }

  /** For a positive time the text is the minutes, unpadded and without a
      leading zero, a colon and exactly two digits of seconds, and reading
      them back gives the time. */
  lemma FormatTimerSpec(t: nat)
    requires t > 0
    ensures var r := FormatTimer(t);
      && |r| >= 4 && r[|r| - 3] == ':'
      && AllDigits(r[..|r| - 3]) && AllDigits(r[|r| - 2..])
      && DigitsValue(r[|r| - 2..]) < 60
      && DigitsValue(r[..|r| - 3]) * 60 + DigitsValue(r[|r| - 2..]) == t
      && (r[0] == '0' ==> r[..|r| - 3] == "0")
  {
    var m := NatToString(t / 60);
    var ss := PadTwo(NatToString(t % 60));
    NatToStringRoundTrip(t / 60);
    PadTwoSeconds(t % 60);
    var r := m + ":" + ss;
    assert FormatTimer(t) == r;
    assert r[..|r| - 3] == m;
    assert r[|r| - 2..] == ss;
    assert r[0] == m[0];
    assert m[0] == '0' ==> m == NatToString(0);
  }

  /** Two sample values: a fresh code shows 2:00 and 59 seconds show 0:59. */
  lemma FormatTimerSamples()
    ensures FormatTimer(120) == "2:00"
    ensures FormatTimer(59) == "0:59"
    ensures FormatTimer(0) == ExpiredText
  {
  }

  /** The countdown line under the code boxes. Its expiry text is its own,
      so the formatter's expiry text is never shown. */
  function TimerText(t: nat): (r: string)
    ensures t == 0 ==> r == "Code Expired. Click resend code."
    ensures t > 0 ==> r == "Code Expires in: " + FormatTimer(t) && r != "Code Expires in: " + ExpiredText
  {
    if t == 0 then "Code Expired. Click resend code."
    else
      assert FormatTimer(t)[0] != ExpiredText[0] by {
        var m := NatToString(t / 60);
        assert FormatTimer(t)[0] == m[0];
      }
      assert ("Code Expires in: " + FormatTimer(t))[17] == FormatTimer(t)[0];
      "Code Expires in: " + FormatTimer(t)
  }

  /** `otp.join('')`. */
  function Joined(boxes: seq<string>): string {
    if boxes == [] then "" else Joined(boxes[..|boxes| - 1]) + boxes[|boxes| - 1]
  }

  /** With at most one character per box, the joined code is shorter than
      the number of boxes exactly when some box is empty. */
  lemma {:induction false} JoinedShort(boxes: seq<string>)
    requires forall k :: 0 <= k < |boxes| ==> |boxes[k]| <= 1
    ensures |Joined(boxes)| <= |boxes|
    ensures |Joined(boxes)| < |boxes| <==> exists k :: 0 <= k < |boxes| && boxes[k] == ""
  {
    if boxes != [] {
      var init := boxes[..|boxes| - 1];
      JoinedShort(init);
      if exists k :: 0 <= k < |init| && init[k] == "" {
        var k :| 0 <= k < |init| && init[k] == "";
        assert boxes[k] == "";
      }
      if exists k :: 0 <= k < |boxes| && boxes[k] == "" {
        var k :| 0 <= k < |boxes| && boxes[k] == "";
        if k < |init| { assert init[k] == ""; }
      }
    }
  }

  const NewUserMobile := "9876543210"
  const DemoCode := "1234"
  const MissingDigitsError := "Please enter all 4 digits"
  const InvalidCodeError := "Invalid OTP. Please try again."

  datatype VerifyOutcome = MissingDigits | InvalidCode | Verified(newUser: bool)

  /** handleVerifyOtp's decision: too few digits, the wrong code, or the
      right one, with the new-user flag from the mobile number. */
  function Verify(boxes: seq<string>, mobile: string): (r: VerifyOutcome)
    ensures r == MissingDigits <==> |Joined(boxes)| < 4
    ensures r.Verified? <==> Joined(boxes) == DemoCode
    ensures r.Verified? ==> (r.newUser <==> mobile == NewUserMobile)
  {
    if |Joined(boxes)| < 4 then MissingDigits
    else if Joined(boxes) == DemoCode then Verified(mobile == NewUserMobile)
    else InvalidCode
  }

  /** For four one-character boxes the code is accepted exactly when they
      hold 1, 2, 3 and 4 in order, and rejected as incomplete exactly when
      a box is empty. */
  lemma VerifyBoxes(boxes: seq<string>, mobile: string)
    requires |boxes| == 4 && forall k :: 0 <= k < 4 ==> |boxes[k]| <= 1
    ensures Verify(boxes, mobile) == MissingDigits <==> exists k :: 0 <= k < 4 && boxes[k] == ""
    ensures Verify(boxes, mobile).Verified? <==> boxes == ["1", "2", "3", "4"]
  {
    JoinedShort(boxes);
    var b := boxes;
    assert Joined(b) == b[0] + b[1] + b[2] + b[3] by {
      assert b[..3][..2][..1] == [b[0]];
      assert b[..3][..2] == [b[0], b[1]] && b[..3] == [b[0], b[1], b[2]];
      assert Joined([b[0]]) == b[0];
      assert Joined([b[0], b[1]]) == b[0] + b[1];
      assert Joined([b[0], b[1], b[2]]) == b[0] + b[1] + b[2];
    }
    if Joined(b) == DemoCode {
      assert |b[0]| == 1 && |b[1]| == 1 && |b[2]| == 1 && |b[3]| == 1;
      assert b[0] == "1" && b[1] == "2" && b[2] == "3" && b[3] == "4" by {
        assert b[0][0] == Joined(b)[0] && b[1][0] == Joined(b)[1];
        assert b[2][0] == Joined(b)[2] && b[3][0] == Joined(b)[3];
      }
    }
  }

  const EmptyCode: seq<string> := ["", "", "", ""]
  const CodeSeconds := 120

  /** All of the screen's state, for stating what each handler changes. */
  datatype LoginState = LoginState(
    mobile: string,
    otpSent: bool,
    otpVerified: bool,
    otp: seq<string>,
    timer: int,
    isNewUser: bool,
    firstName: string,
    email: string,
    otpError: string,
    resentMessage: bool)

  /** The screen's state. */
  class LoginScreen {
    var mobile: string
    var otpSent: bool
    var otpVerified: bool
    var otp: seq<string>
    var timer: int
    var isNewUser: bool
    var firstName: string
    var email: string
    var otpError: string
    var resentMessage: bool

    function State(): LoginState
      reads this
    {
      LoginState(mobile, otpSent, otpVerified, otp, timer, isNewUser, firstName, email, otpError, resentMessage)
    }

    /** Four boxes of at most one character, and a countdown between 0
        and 120 seconds. */
    ghost predicate Valid()
      reads this
    {
      |otp| == 4 && (forall k :: 0 <= k < 4 ==> |otp[k]| <= 1) && 0 <= timer <= CodeSeconds
    }

    constructor ()
      ensures Valid()
      ensures State() == LoginState("", false, false, EmptyCode, CodeSeconds, false, "", "", "", false)
    {
      mobile := "";
      otpSent := false;
      otpVerified := false;
      otp := EmptyCode;
      timer := CodeSeconds;
      isNewUser := false;
      firstName := "";
      email := "";
      otpError := "";
      resentMessage := false;
    }

    /** Typing a number clears the error. */
    method EditMobile(text: string)
      requires Valid()
      modifies this
      ensures Valid()
      ensures State() == old(State()).(mobile := text, otpError := "")
    {
      mobile := text;
      otpError := "";
    }

    /** handleSendOtp, with its delay folded in: a valid number moves on to
        code entry with a fresh countdown; any other sets the error. */
    method SendOtp()
      requires Valid()
      modifies this
      ensures Valid()
      ensures IsValidMobile(old(mobile)) ==> State() == old(State()).(otpSent := true, timer := CodeSeconds)
      ensures !IsValidMobile(old(mobile)) ==> State() == old(State()).(otpError := MobileError)
    {
      if IsValidMobile(mobile) {
        otpSent := true;
        timer := CodeSeconds;
      } else {
        otpError := MobileError;
      }
    }

    /** One second of the countdown, which runs only while a code has been
        sent and time is left; it never goes below zero. */
    method Tick()
      requires Valid()
      modifies this
      ensures Valid() && timer >= 0
      ensures old(otpSent) && old(timer) > 0 ==> State() == old(State()).(timer := old(timer) - 1)
      ensures !(old(otpSent) && old(timer) > 0) ==> State() == old(State())
    {
      if otpSent && timer > 0 {
        timer := timer - 1;
      }
    }

    /** handleResendOtp: empty boxes, a fresh countdown, no error, and the
        "resent" heading. */
    method ResendOtp()
      requires Valid()
      modifies this
      ensures Valid()
      ensures State() == old(State()).(otp := EmptyCode, timer := CodeSeconds, otpError := "", resentMessage := true)
    {
      otp := EmptyCode;
      timer := CodeSeconds;
      otpError := "";
      resentMessage := true;
    }

    /** "Change Number": back to number entry with empty boxes; the
        countdown is left as it was. */
    method ChangeNumber()
      requires Valid()
      modifies this
      ensures Valid()
      ensures State() == old(State()).(otpSent := false, otp := EmptyCode, otpError := "", resentMessage := false)
    {
      otpSent := false;
      otp := EmptyCode;
      otpError := "";
      resentMessage := false;
    }

    /** handleOtpChange: only box `index` takes the typed character, and the
        error is cleared. */
    method OtpChange(value: string, index: nat)
      requires Valid() && index < 4 && |value| <= 1
      modifies this
      ensures Valid()
      ensures State() == old(State()).(otp := old(otp)[index := value], otpError := "")
      ensures forall k :: 0 <= k < 4 && k != index ==> otp[k] == old(otp)[k]
    {
      otp := otp[index := value];
      otpError := "";
    }

    /** handleVerifyOtp, with its delay folded in. A returning user is sent
        to the service list; a new user stays for the profile form. */
    method VerifyOtp() returns (route: Option<string>)
      requires Valid()
      modifies this
      ensures Valid()
      ensures var v := Verify(old(otp), old(mobile));
        && (v == MissingDigits ==> State() == old(State()).(otpError := MissingDigitsError) && route == None)
        && (v == InvalidCode ==> State() == old(State()).(otpError := InvalidCodeError) && route == None)
        && (v.Verified? ==> State() == old(State()).(otpVerified := true, otpError := "", isNewUser := v.newUser))
        && (v.Verified? ==> (route == Some("ServiceSelection") <==> !v.newUser))
        && (v.Verified? && v.newUser ==> route == None)
    {
      route := None;
      var v := Verify(otp, mobile);
      match v
      case MissingDigits =>
        otpError := MissingDigitsError;
      case InvalidCode =>
        otpError := InvalidCodeError;
      case Verified(newUser) =>
        otpVerified := true;
        otpError := "";
        isNewUser := newUser;
        if !newUser {
          route := Some("ServiceSelection");
        }
    }

    method EditFirstName(text: string)
      requires Valid()
      modifies this
      ensures Valid()
      ensures State() == old(State()).(firstName := text)
    {
      firstName := text;
    }

    method EditEmail(text: string)
      requires Valid()
      modifies this
      ensures Valid()
      ensures State() == old(State()).(email := text)
    {
      email := text;
    }

    /** handleProfileSubmit: it only moves the focus or navigates, so it
        changes none of the screen's fields. */
    method ProfileSubmit() returns (result: ProfileResult)
      ensures result == Submitted <==> !IsBlank(firstName) && EmailShape(email)
      ensures result == FocusFirstName <==> IsBlank(firstName)
    {
      result := ProfileCheck(firstName, email);
    }
  }
}
