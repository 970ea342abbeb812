# Crowdfunding components: login state machine and contribution ledgers

This project models the two React components of a crowdfunding demo that hold
logic, and proves properties of the model in Dafny.

- `Header.jsx` (`CrowdfundingApp`): a login form with a mocked one-time-password
  (OTP) flow. It checks a password-strength pattern, generates a six-digit OTP
  when the phone number has ten characters, and compares the entered OTP with
  it. Behind the login sits a contribution form: an append-only list of
  `{id, amount}` entries whose total is recomputed by a fold on every render.
- `Gpg.jsx` (`Crowdfunding`): a second contribution form. It keeps the total
  in a counter of its own (`prev + parseFloat(amount)`) next to the list. It
  shows the number of contributors and the five most recent ones.

Files:

- `js_values.dfy`, module `JsValues`: the JavaScript value semantics both
  components rely on. It covers numbers that may be NaN, the contents of a
  number input, `===`, truthiness, template literals and the decimal
  rendering and reading of whole numbers.
- `header.dfy`, module `Header`: the password pattern, the OTP test, the
  derived total, and the class `CrowdfundingApp`. Its fields are the nine
  `useState` slots. Its methods are the handlers, each with a frame of
  exactly the slots its setters touch.
- `gpg.dfy`, module `Gpg`: the class `Crowdfunding` with its four slots. The
  same state as a value (`Ledger`), with `Submit`, `Replay` and the lemmas
  about runs of user actions. The `slice(-5)` view.

Modelling choices:

- The random draw behind the OTP is the parameter `r` of `SendOtp`, with
  `0 <= r < 900000`; the OTP is `100000 + r`.
- An amount field is `AmountField(text, number)`: the text as typed and the
  number JavaScript reads from it. The empty field is `("", 0)`, because
  `Number("")` is 0; `ParseFloat` reads it as NaN, as `parseFloat("")` does.
  Numbers are exact (`real`) or NaN.
- The `generatedOTP` slot holds a JavaScript value (`null` or a number).
  The entered OTP is text. The comparison on line 40 is modelled as written,
  with `===`. A text is never strictly equal to a number, so the success
  branch cannot be taken. `HandleLogin` proves that `isLoggedIn` never
  changes, and so nobody can log in. The evidently intended comparison is
  modelled beside it (see Findings). The class keeps the comparison as
  written, so that it describes what the component does.
- The model states what the handlers do, not what the rendering lets a user
  reach. `handleContribution` does not check `isLoggedIn`; only the rendering
  at Header.jsx line 56 hides the form. A refused amount in `Header.jsx`
  changes nothing and shows nothing, while `Gpg.jsx` sets "Please enter a
  valid amount.". `Header.jsx` recomputes its total by a fold; `Gpg.jsx`
  keeps a counter, and the model proves that the counter equals the fold.
- The handler at `Gpg.jsx` line 13 refuses only `amount <= 0`. NaN compares
  false, so a field that JavaScript reads as NaN is accepted by the handler.
  `NaNPassesGuard` and `NaNIsPermanent` state what follows for a text that
  both `Number` and `parseFloat` read as NaN: the counter becomes NaN and
  stays NaN. The counter still equals the fold of the parsed amounts, with
  NaN absorbing. Through the form this case does not arise, because the
  number input (line 50) holds only valid numbers or `""`.
- `Gpg.jsx` line 23 stores the raw field in the contributor list, while line
  22 adds the parsed number to the counter. `Contributor.amount` is therefore
  the whole `AmountField`.

## Model

| member | source | states |
|---|---|---|
| `Header.LookaheadFindsIff` | src/Component/Header.jsx:17 | `LookaheadFinds`, the model of the look-ahead `(?=.*[k])`, holds exactly when some character of class k occurs with no line terminator before it |
| `Header.LookaheadFindsWithoutTerminators` | src/Component/Header.jsx:17 | on a string without line terminators the look-ahead holds exactly when the string contains a character of the class |
| `Header.ValidatePasswordIff` | src/Component/Header.jsx:16-19 | `ValidatePassword` (both look-aheads plus `BodyMatches`, the model of `[a-zA-Z0-9!@#$%^&*]{8,}$`) accepts a string exactly when it has at least 8 characters, all from `[a-zA-Z0-9!@#$%^&*]`, at least one digit and at least one of `!@#$%^&*` |
| `Header.OtpFromDraw` | src/Component/Header.jsx:23 | every OTP lies in [100000, 999999] and renders as exactly six digits |
| `JsValues.DecimalString` | src/Component/Header.jsx:27 | the rendering of a number shown in the alert is a non-empty digit string with no leading zero |
| `JsValues.DecimalRoundTrip` | src/Component/Header.jsx:27 | reading back the decimal rendering of n gives n |
| `JsValues.ParseDecimal` | src/Component/Header.jsx:40 | a string is read as a number exactly when it is a non-empty digit string, and every such string without a leading zero is the rendering of the number read (the converse of `DecimalRoundTrip`, proved by `CanonicalDigitsRender`) |
| `JsValues.StrictEqualsNeverCrossesTypes` | src/Component/Header.jsx:40 | `===` never holds between a text and a number, in either order |
| `Header.OtpCheckNeverPasses` | src/Component/Header.jsx:40 | `OtpCheckAsWritten`, the model of `generatedOTP && loginDetails.otp === generatedOTP`, fails for every entered text while the slot holds `null` or a number |
| `Header.AsWrittenRefusesShownCode` | src/Component/Header.jsx:40 | as written, typing exactly the code the alert showed is refused |
| `Header.IntendedAcceptsShownCode` | src/Component/Header.jsx:40 | with `==`, the shown code is accepted, and an entry is accepted exactly when it is a digit string denoting the code |
| `Header.ThankYouMessage` | src/Component/Header.jsx:51 | the thank-you message contains the amount text |
| `Header.TotalRaisedAppend` | src/Component/Header.jsx:14 | `TotalRaised`, the left fold from 0 of the `reduce`, grows by exactly the amount of an appended contribution |
| `Header.TotalRaisedPositive` | src/Component/Header.jsx:14 | with positive amounts the total is non-negative, and positive exactly when the list is not empty |
| `Header.CrowdfundingApp.Total` | src/Component/Header.jsx:14 | in every valid state the derived total is non-negative and positive exactly when there are contributors |
| `Header.CrowdfundingApp.constructor` | src/Component/Header.jsx:5-13 | the initial state: logged out, empty login fields, no OTP, no errors, empty amount and message, no contributors, total 0 |
| `Header.CrowdfundingApp.SetUsername` | src/Component/Header.jsx:65 | replaces the username and nothing else |
| `Header.CrowdfundingApp.SetPassword` | src/Component/Header.jsx:66 | replaces the password and nothing else |
| `Header.CrowdfundingApp.SetPhone` | src/Component/Header.jsx:68 | replaces the phone and nothing else |
| `Header.CrowdfundingApp.SetOtp` | src/Component/Header.jsx:70 | replaces the entered OTP and nothing else |
| `Header.CrowdfundingApp.SetAmount` | src/Component/Header.jsx:92 | replaces the amount field and nothing else |
| `Header.CrowdfundingApp.SendOtp` | src/Component/Header.jsx:21-31 | with a 10-character phone: stores the OTP `100000 + r` (six digits), sets `otpSent`, clears `otpError`; otherwise sets `otpError` and leaves the OTP and `otpSent`; touches no other slot |
| `Header.CrowdfundingApp.HandleLogin` | src/Component/Header.jsx:33-45 | a failing password sets the fixed message and changes nothing else; a passing one clears the message and either logs in or sets `otpError`; `isLoggedIn` never goes back to false, and, the slot never holding text, never changes |
| `Header.CrowdfundingApp.HandleContribution` | src/Component/Header.jsx:47-54 | when `AcceptsAmount` holds (the guard `!isNaN(amount) && amount > 0` of line 49) it appends `{id: n + 1, amount}`, raises the total by the amount, sets the thank-you message and clears the field; otherwise it changes nothing |
| `Gpg.ThankYouMessage` | src/Component/Gpg.jsx:24 | the thank-you message contains the amount text |
| `Gpg.SumParsedAppend` | src/Component/Gpg.jsx:22 | appending a contributor adds its parsed amount to the fold |
| `Gpg.Initial` | src/Component/Gpg.jsx:6-9 | the initial state is consistent: counter 0, no contributors |
| `Gpg.Pay` | src/Component/Gpg.jsx:20-26 | a payment keeps the counter equal to the fold, appends exactly one contributor with id n + 1 and the raw amount, clears the field and leaves a message containing the amount |
| `Gpg.Submit` | src/Component/Gpg.jsx:11-18 | when `Rejects` holds (the guard `amount <= 0` of line 13, false for NaN) it only sets the error message; any other amount adds its number to the counter and one contributor; consistency is kept and the list only grows |
| `Gpg.ReplayConsistent` | src/Component/Gpg.jsx:22-23 | after any run of actions, each applied by `Apply` as an edit of the field (line 50) or a form submission (line 48), the counter equals the fold of the list and ids are 1..n |
| `Gpg.ReplayCount` | src/Component/Gpg.jsx:13-23 | the list only grows, by exactly one entry per submission that passes the guard |
| `Gpg.FromInitial` | src/Component/Gpg.jsx:8-9 | from the initial state the counter equals the fold and the displayed count equals the accepted submissions |
| `Gpg.NaNPassesGuard` | src/Component/Gpg.jsx:13 | a NaN amount passes `amount <= 0` and turns the counter into NaN |
| `Gpg.BlankPaymentGuarded` | src/Component/Gpg.jsx:13-22 | paying the empty field would make the counter NaN, but the guard refuses it and leaves the counter; every non-empty field the guard lets through adds the number `Number` reads |
| `Gpg.NaNIsPermanent` | src/Component/Gpg.jsx:22 | once the counter is NaN it stays NaN whatever follows |
| `Gpg.RecentContributors` | src/Component/Gpg.jsx:60 | `slice(-5)` is the last min(5, n) contributors in insertion order |
| `Gpg.Crowdfunding.constructor` | src/Component/Gpg.jsx:6-9 | the initial state: empty field and message, counter 0, no contributors |
| `Gpg.Crowdfunding.SetAmount` | src/Component/Gpg.jsx:50 | replaces the amount field and nothing else |
| `Gpg.Crowdfunding.HandleSubmit` | src/Component/Gpg.jsx:11-18 | moves the state exactly as `Submit`; a refused amount leaves counter, list and field as they were |
| `Gpg.Crowdfunding.ProcessPayment` | src/Component/Gpg.jsx:20-26 | adds `ParseFloat` of the amount (the model of `parseFloat`, NaN for the empty field) to the counter, appends `{id: n + 1, amount}` with the raw field, sets the thank-you message, clears the field, and keeps the counter equal to the fold |

## Findings

| source | as written | input that shows it | evidently intended | confidence | as-written member | corrected member |
|---|---|---|---|---|---|---|
| src/Component/Header.jsx:40 | `loginDetails.otp === generatedOTP` compares the text of the OTP field with a number, so it never holds and nobody can log in | phone `0123456789` and draw r = 23456 give OTP 123456; typing `123456` with password `abcdefg1!` sets `otpError` instead of logging in | compare the entered text with the code numerically (`==`, or `Number(otp) === generatedOTP`) | not executed; follows from the definition of `===` | `Header.AsWrittenRefusesShownCode` | `Header.IntendedAcceptsShownCode` |

## Left out

- JSX rendering, Tailwind classes, framer-motion animations and lucide icons. The markup does limit what the handlers receive: `type="number"` (Header.jsx line 88, Gpg.jsx line 50) keeps the amount a valid number or `""`, and `required` blocks submitting empty fields. The model does not capture these limits, and it does not hide the OTP field before `otpSent` or the contribution form before `isLoggedIn`. The methods can be called in any state and with any amount field.
- `Math.random`: replaced by the parameter `r` of `SendOtp`. `alert` and `console.log`: output only, dropped.
- `e.preventDefault()`: browser event handling, dropped.
- React's batching and re-rendering: each handler is one atomic update of the fields.
- Floating point: amounts and totals are exact reals. Rounding, infinities and `toFixed(2)` (Gpg.jsx line 39) are not modelled.
- JavaScript's string-to-number coercion: an amount field carries its number already read, and the model uses that one number where the code calls `Number` (the guards) and `parseFloat` (the stored or added value). The two agree on every non-empty text a number input can hold. On the empty text `Number` gives 0 and `parseFloat` gives NaN; `JsValues.ParseFloat` models that, and the model of `processPayment` (Gpg.jsx line 22) uses it. In `Header.jsx` `parseFloat` is reached only past a guard that demands a positive number, so the model uses the field's number there. They also differ on texts such as `"12abc"` (`Number` gives NaN, `parseFloat` gives 12), which the model does not cover.
- `Gpg.NaNPassesGuard`: describes the handlers given a text that both `Number` and `parseFloat` read as NaN, such as `"abc"`. It does not cover texts such as `"12abc"`, which pass the guard and add 12 to the counter. The number input at Gpg.jsx line 50 makes a NaN amount unreachable through the form, so `Gpg.NaNIsPermanent` is about the handlers, not about reachable page states.
- `JsValues.ParseDecimal`: reads only non-empty digit strings, while JavaScript's coercion also reads whitespace, signs, fractions, exponents and hex. So `Header.IntendedAcceptsShownCode` speaks about digit strings only.
- `Header.CrowdfundingApp.SendOtp`: the phone length is counted in Unicode characters; JavaScript counts UTF-16 code units, which differ for characters outside the Basic Multilingual Plane.
- `Header.CrowdfundingApp.HandleLogin`: the statement that `isLoggedIn` never changes is conditional on the OTP slot not holding text. Every handler keeps that condition, but JavaScript does not type the slot.
- src/Component/Footer.jsx (static markup and the current year) and src/App.js (composition of components, two of them not shown) are not part of this model.
- The user-creation request and the weather lookup are not in the modelled files.
