/**
 * The `CrowdfundingApp` component: a login form with a mocked OTP flow and,
 * behind it, a contribution form whose total is recomputed from the list of
 * contributions on every render.
 *
 * Each `useState` slot is a field of the class `CrowdfundingApp`; each event
 * handler is a method that changes exactly the slots its setters touch.
 * The random draw behind the OTP is the parameter `r` of `SendOtp`.
 */
module Header {
  import opened JsValues

  // ---------------------------------------------------------------------------
  // Password strength: /^(?=.*[0-9])(?=.*[!@#$%^&*])[a-zA-Z0-9!@#$%^&*]{8,}$/

  const SpecialChars: set<char> := {'!', '@', '#', '$', '%', '^', '&', '*'}

  predicate IsSpecial(c: char)
  {
    c in SpecialChars
  }

  predicate IsLetter(c: char)
  {
    'a' <= c <= 'z' || 'A' <= c <= 'Z'
  }

  /** A member of the character class `[a-zA-Z0-9!@#$%^&*]`. */
  predicate IsAllowed(c: char)
  {
    IsLetter(c) || IsDigit(c) || IsSpecial(c)
  }

  /** The characters `.` does not match in a JavaScript regular expression. */
  predicate IsLineTerminator(c: char)
  {
    c == '\n' || c == '\r' || c == '\U{2028}' || c == '\U{2029}'
  }

  /** The two classes the password's look-aheads search for. */
  datatype Required = Digit | Symbol

  predicate InRequired(c: char, k: Required)
  {
    match k
    case Digit => IsDigit(c)
    case Symbol => IsSpecial(c)
  }

  /**
   * The look-ahead `(?=.*[k])` at the start of `s`: `.*` skips characters
   * other than line terminators until one of class `k` is found.
   */
  predicate LookaheadFinds(s: string, k: Required)
  {
    |s| > 0 && (InRequired(s[0], k) || (!IsLineTerminator(s[0]) && LookaheadFinds(s[1..], k)))
  }

  /** `[a-zA-Z0-9!@#$%^&*]{8,}$` anchored at the start of the string. */
  predicate BodyMatches(s: string)
  {
    |s| >= 8 && forall i :: 0 <= i < |s| ==> IsAllowed(s[i])
  }

  /** `validatePassword`: the strong-password pattern, piece by piece. */
  predicate ValidatePassword(password: string)
  {
    LookaheadFinds(password, Digit) && LookaheadFinds(password, Symbol) && BodyMatches(password)
  }

  lemma {:induction false} LookaheadFindsIff(s: string, k: Required)
    ensures LookaheadFinds(s, k) <==>
      exists i :: 0 <= i < |s| && InRequired(s[i], k) && forall j :: 0 <= j < i ==> !IsLineTerminator(s[j])
  {
    if |s| > 0 {
      LookaheadFindsIff(s[1..], k);
      if LookaheadFinds(s, k) && !InRequired(s[0], k) {
        var i :| 0 <= i < |s| - 1 && InRequired(s[1..][i], k)
          && forall j :: 0 <= j < i ==> !IsLineTerminator(s[1..][j]);
        assert InRequired(s[i + 1], k);
        assert forall j :: 0 <= j < i + 1 ==> !IsLineTerminator(s[j]) by {
          forall j | 0 <= j < i + 1 ensures !IsLineTerminator(s[j]) {
            if j > 0 { assert s[j] == s[1..][j - 1]; }
          }
        }
      }
      if !LookaheadFinds(s, k) {
        forall i | 0 <= i < |s| && InRequired(s[i], k)
          ensures exists j :: 0 <= j < i && IsLineTerminator(s[j])
        {
          assert i > 0;
          if !IsLineTerminator(s[0]) {
            assert s[1..][i - 1] == s[i];
            var j :| 0 <= j < i - 1 && IsLineTerminator(s[1..][j]);
            assert IsLineTerminator(s[j + 1]);
          }
        }
      }
    }
  }

  /** When no line terminator occurs, the look-ahead finds a character of class k exactly when s has one. */
  lemma LookaheadFindsWithoutTerminators(s: string, k: Required)
    requires forall i :: 0 <= i < |s| ==> !IsLineTerminator(s[i])
    ensures LookaheadFinds(s, k) <==> exists i :: 0 <= i < |s| && InRequired(s[i], k)
  {
    LookaheadFindsIff(s, k);
  }

  /**
   * The password policy in plain terms: at least eight characters, all from
   * `[a-zA-Z0-9!@#$%^&*]`, at least one digit and at least one of `!@#$%^&*`.
   */
  lemma ValidatePasswordIff(p: string)
    ensures ValidatePassword(p) <==>
      && |p| >= 8
      && (forall i :: 0 <= i < |p| ==> IsAllowed(p[i]))
      && (exists i :: 0 <= i < |p| && IsDigit(p[i]))
      && (exists i :: 0 <= i < |p| && IsSpecial(p[i]))
  {
    if BodyMatches(p) {
      assert forall i :: 0 <= i < |p| ==> !IsLineTerminator(p[i]) by {
        forall i | 0 <= i < |p| ensures !IsLineTerminator(p[i]) {
          assert IsAllowed(p[i]);
        }
      }
      LookaheadFindsWithoutTerminators(p, Digit);
      LookaheadFindsWithoutTerminators(p, Symbol);
      assert (exists i :: 0 <= i < |p| && InRequired(p[i], Digit)) <==> (exists i :: 0 <= i < |p| && IsDigit(p[i]));
      assert (exists i :: 0 <= i < |p| && InRequired(p[i], Symbol)) <==> (exists i :: 0 <= i < |p| && IsSpecial(p[i]));
    }
  }

  // ---------------------------------------------------------------------------
  // OTP

  const OtpLow := 100000
  const OtpSpan := 900000

  /** What `Math.floor(100000 + Math.random() * 900000)` yields for the draw `r`. */
  function OtpFromDraw(r: nat): (otp: nat)
    requires r < OtpSpan
    ensures 100000 <= otp <= 999999
    ensures |DecimalString(otp)| == 6
  {
    assert Pow10(5) == 100000 && Pow10(6) == 1000000;
    DecimalLength(OtpLow + r, 6);
    OtpLow + r
  }

  /** The value `setGeneratedOTP(otp)` stores: a JavaScript number. */
  function OtpNumber(otp: nat): Value
  {
    Num(Finite(otp as real))
  }

  /** A six-digit whole number, as `sendOTP` produces. */
  predicate IsOtpNumber(n: Number)
  {
    n.Finite? && 100000.0 <= n.r <= 999999.0 && n.r.Floor as real == n.r
  }

  /**
   * The login test as written: `generatedOTP && loginDetails.otp === generatedOTP`,
   * where the entered OTP is the text of an input field.
   */
  predicate OtpCheckAsWritten(entered: string, generated: Value)
  {
    Truthy(generated) && StrictEquals(Str(entered), generated)
  }

  /** A text never strictly equals `null` or a number, so the test as written fails for every input. */
  lemma OtpCheckNeverPasses(entered: string, generated: Value)
    requires !generated.Str?
    ensures !OtpCheckAsWritten(entered, generated)
  {
  }

  /** In particular, typing exactly the code the alert showed is refused. */
  lemma AsWrittenRefusesShownCode(r: nat)
    requires r < OtpSpan
    ensures !OtpCheckAsWritten(DecimalString(OtpFromDraw(r)), OtpNumber(OtpFromDraw(r)))
  {
  }

  /**
   * The evidently intended test, with `==` (the text coerced to a number)
   * in place of `===`.
   */
  predicate OtpCheckIntended(entered: string, generated: Value)
  {
    && Truthy(generated)
    && match generated
       case Null => false
       case Num(n) => LooseEqualsStringNumber(entered, n)
       case Str(s) => s == entered
  }

  /**
   * With the intended test, the code shown to the user is accepted, and a
   * string is accepted exactly when it is a digit string denoting the code.
   */
  lemma IntendedAcceptsShownCode(r: nat, entered: string)
    requires r < OtpSpan
    ensures OtpCheckIntended(DecimalString(OtpFromDraw(r)), OtpNumber(OtpFromDraw(r)))
    ensures OtpCheckIntended(entered, OtpNumber(OtpFromDraw(r))) <==> ParseDecimal(entered) == Some(OtpFromDraw(r))
  {
    DecimalRoundTrip(OtpFromDraw(r));
  }

  // ---------------------------------------------------------------------------
  // Contributions

  datatype LoginDetails = LoginDetails(username: string, password: string, phone: string, otp: string)

  /** `{ id, amount: parseFloat(amount) }` */
  datatype Contribution = Contribution(id: nat, amount: real)

  const PasswordErrorMessage := "Password must be at least 8 characters long, include a number and a special character."

  /** `Thank you for contributing €${amount}!` */
  function ThankYouMessage(amountText: string): (m: string)
    ensures Contains(m, amountText)
  {
    Framed("Thank you for contributing €", amountText, "!")
  }

  /** `contributors.reduce((sum, c) => sum + c.amount, 0)`: a left fold from 0. */
  function TotalRaised(cs: seq<Contribution>): real
  {
    if cs == [] then 0.0 else TotalRaised(cs[..|cs| - 1]) + cs[|cs| - 1].amount
  }

  /** Appending one contribution raises the total by exactly its amount. */
  lemma TotalRaisedAppend(cs: seq<Contribution>, c: Contribution)
    ensures TotalRaised(cs + [c]) == TotalRaised(cs) + c.amount
  {
    assert (cs + [c])[..|cs|] == cs;
  }

  /** With positive amounts only, the total is positive exactly when the list is not empty. */
  lemma {:induction false} TotalRaisedPositive(cs: seq<Contribution>)
    ensures (forall i :: 0 <= i < |cs| ==> cs[i].amount > 0.0) ==>
      TotalRaised(cs) >= 0.0 && (TotalRaised(cs) > 0.0 <==> cs != [])
  {
    if cs != [] {
      TotalRaisedPositive(cs[..|cs| - 1]);
    }
  }

  /** Ids are 1, 2, ..., n in insertion order. */
  predicate IdsSequential(cs: seq<Contribution>)
  {
    forall i :: 0 <= i < |cs| ==> cs[i].id == i + 1
  }

  /** `!isNaN(amount) && amount > 0` */
  predicate AcceptsAmount(a: AmountField)
  {
    a.number.Finite? && a.number.r > 0.0
  }

  class CrowdfundingApp {
    var isLoggedIn: bool
    var loginDetails: LoginDetails
    var generatedOTP: Value
    var otpSent: bool
    var otpError: bool
    var passwordError: string
    var amount: AmountField
    var message: string
    var contributors: seq<Contribution>

    /** What every reachable state satisfies. */
    ghost predicate Valid()
      reads this
    {
      && IdsSequential(contributors)
      && (forall i :: 0 <= i < |contributors| ==> contributors[i].amount > 0.0)
      && (otpSent <==> !generatedOTP.Null?)
      && (generatedOTP.Num? ==> IsOtpNumber(generatedOTP.n))
      && (passwordError == "" || passwordError == PasswordErrorMessage)
    }

    /**
     * The `generatedOTP` slot never holds a text. JavaScript does not type
     * the slot, so this is kept apart from Valid(): the handlers preserve it,
     * and HandleLogin derives from it that its success branch is dead.
     */
    ghost predicate OtpSlotHoldsNoText()
      reads this
    {
      !generatedOTP.Str?
    }

    /** The derived `totalRaised` shown on the page. */
    function Total(): (t: real)
      reads this
      ensures Valid() ==> t >= 0.0 && (t > 0.0 <==> contributors != [])
    {
      TotalRaisedPositive(contributors);
      TotalRaised(contributors)
    }

    constructor ()
      ensures Valid()
      ensures !isLoggedIn
      ensures loginDetails == LoginDetails("", "", "", "")
      ensures generatedOTP == Null && OtpSlotHoldsNoText() && !otpSent && !otpError
      ensures passwordError == "" && amount == Blank && message == ""
      ensures contributors == [] && Total() == 0.0
    {
      isLoggedIn := false;
      loginDetails := LoginDetails("", "", "", "");
      generatedOTP := Null;
      otpSent := false;
      otpError := false;
      passwordError := "";
      amount := Blank;
      message := "";
      contributors := [];
    }

    method SetUsername(value: string)
      requires Valid()
      modifies this`loginDetails
      ensures Valid()
      ensures loginDetails == old(loginDetails).(username := value)
    {
      loginDetails := loginDetails.(username := value);
    }

    method SetPassword(value: string)
      requires Valid()
      modifies this`loginDetails
      ensures Valid()
      ensures loginDetails == old(loginDetails).(password := value)
    {
      loginDetails := loginDetails.(password := value);
    }

    method SetPhone(value: string)
      requires Valid()
      modifies this`loginDetails
      ensures Valid()
      ensures loginDetails == old(loginDetails).(phone := value)
    {
      loginDetails := loginDetails.(phone := value);
    }

    method SetOtp(value: string)
      requires Valid()
      modifies this`loginDetails
      ensures Valid()
      ensures loginDetails == old(loginDetails).(otp := value)
    {
      loginDetails := loginDetails.(otp := value);
    }

    method SetAmount(value: AmountField)
      requires Valid()
      modifies this`amount
      ensures Valid()
      ensures amount == value
    {
      amount := value;
    }

    /** `sendOTP`, with `r` the drawn code less 100000 (`otp - 100000`). */
    method SendOtp(r: nat)
      requires Valid()
      requires r < OtpSpan
      modifies this`generatedOTP, this`otpSent, this`otpError
      ensures Valid()
      ensures |loginDetails.phone| == 10 ==>
        && generatedOTP == OtpNumber(OtpFromDraw(r))
        && IsOtpNumber(generatedOTP.n)
        && otpSent && !otpError
      ensures |loginDetails.phone| != 10 ==>
        otpError && generatedOTP == old(generatedOTP) && otpSent == old(otpSent)
      ensures old(OtpSlotHoldsNoText()) ==> OtpSlotHoldsNoText()
    {
      if |loginDetails.phone| == 10 {
        var otp := OtpFromDraw(r);
        generatedOTP := OtpNumber(otp);
        otpSent := true;
        otpError := false;
      } else {
        otpError := true;
      }
    }

    /** `handleLogin`: the password policy first, then the OTP test as written. */
    method HandleLogin()
      requires Valid()
      modifies this`passwordError, this`isLoggedIn, this`otpError
      ensures Valid()
      ensures !ValidatePassword(loginDetails.password) ==>
        && passwordError == PasswordErrorMessage
        && isLoggedIn == old(isLoggedIn) && otpError == old(otpError)
      ensures ValidatePassword(loginDetails.password) ==>
        && passwordError == ""
        && (if OtpCheckAsWritten(loginDetails.otp, generatedOTP)
            then isLoggedIn && otpError == old(otpError)
            else otpError && isLoggedIn == old(isLoggedIn))
      ensures old(isLoggedIn) ==> isLoggedIn
      ensures OtpSlotHoldsNoText() ==> isLoggedIn == old(isLoggedIn)
    {
      if !ValidatePassword(loginDetails.password) {
        passwordError := PasswordErrorMessage;
        return;
      }
      passwordError := "";
      if OtpCheckAsWritten(loginDetails.otp, generatedOTP) {
        isLoggedIn := true;
      } else {
        otpError := true;
      }
    }

    /** `handleContribution`: append `{ id: length + 1, amount }` when the amount is a positive number. */
    method HandleContribution()
      requires Valid()
      modifies this`contributors, this`message, this`amount
      ensures Valid()
      ensures AcceptsAmount(old(amount)) ==>
        && contributors == old(contributors) + [Contribution(|old(contributors)| + 1, old(amount).number.r)]
        && Total() == old(Total()) + old(amount).number.r
        && message == ThankYouMessage(old(amount).text)
        && amount == Blank
      ensures !AcceptsAmount(old(amount)) ==>
        contributors == old(contributors) && message == old(message) && amount == old(amount)
    {
      if AcceptsAmount(amount) {
        TotalRaisedAppend(contributors, Contribution(|contributors| + 1, amount.number.r));
        contributors := contributors + [Contribution(|contributors| + 1, amount.number.r)];
        message := ThankYouMessage(amount.text);
        amount := Blank;
      }
    }
  }

  /** The three contributions 10, 25.5 and 3 give ids 1, 2, 3 and a total of 38.5. */
  method ContributionScenario()
  {
    var app := new CrowdfundingApp();
    app.SetAmount(AmountField("10", Finite(10.0)));
    app.HandleContribution();
    app.SetAmount(AmountField("25.5", Finite(25.5)));
    app.HandleContribution();
    app.SetAmount(AmountField("3", Finite(3.0)));
    app.HandleContribution();
    assert app.contributors == [Contribution(1, 10.0), Contribution(2, 25.5), Contribution(3, 3.0)];
    assert app.Total() == 38.5;
    app.SetAmount(AmountField("-5", Finite(-5.0)));
    app.HandleContribution();
    app.SetAmount(AmountField("abc", NaN));
    app.HandleContribution();
    assert |app.contributors| == 3;
  }
}
