/**
 * The `Crowdfunding` component: a contribution form next to a running
 * total that is kept incrementally (`prev + parseFloat(amount)`) rather than
 * recomputed from the list of contributors, and a view of the five most
 * recent contributors.
 *
 * The class `Crowdfunding` holds the four `useState` slots; `Ledger` is the
 * same state as a value, so that whole runs of user actions can be reasoned
 * about with functions and lemmas.
 */
module Gpg {
  import opened JsValues

  /** `{ id: contributors.length + 1, amount }`: the amount as typed, not the parsed number. */
  datatype Contributor = Contributor(id: nat, amount: AmountField)

  /** The component's four state slots. */
  datatype Ledger = Ledger(amount: AmountField, message: string, totalRaised: Number, contributors: seq<Contributor>)

  const InvalidAmountMessage := "Please enter a valid amount."

  /** How many contributors the "Recent Contributors" list shows: `slice(-5)`. */
  const RecentCount := 5

  /** `Thank you for your contribution of G₵${amount}!` */
  function ThankYouMessage(amountText: string): (m: string)
    ensures Contains(m, amountText)
  {
    Framed("Thank you for your contribution of G₵", amountText, "!")
  }

  /** The parsed amounts of the list summed left to right from 0, with NaN absorbing. */
  function SumParsed(cs: seq<Contributor>): Number
  {
    if cs == [] then Finite(0.0) else Add(SumParsed(cs[..|cs| - 1]), ParseFloat(cs[|cs| - 1].amount))
  }

  lemma SumParsedAppend(cs: seq<Contributor>, c: Contributor)
    ensures SumParsed(cs + [c]) == Add(SumParsed(cs), ParseFloat(c.amount))
  {
    assert (cs + [c])[..|cs|] == cs;
  }

  /** Ids are 1, 2, ..., n in insertion order. */
  predicate IdsSequential(cs: seq<Contributor>)
  {
    forall i :: 0 <= i < |cs| ==> cs[i].id == i + 1
  }

  /** The counter agrees with the list, and the list is numbered in order. */
  predicate Consistent(l: Ledger)
  {
    l.totalRaised == SumParsed(l.contributors) && IdsSequential(l.contributors)
  }

  /** The state on first render: an empty field, no message, 0 raised, no contributors. */
  function Initial(): (l: Ledger)
    ensures Consistent(l)
  {
    Ledger(Blank, "", Finite(0.0), [])
  }

  /** `amount <= 0`: NaN compares false, so only a finite non-positive number is refused. */
  predicate Rejects(a: AmountField)
  {
    a.number.Finite? && a.number.r <= 0.0
  }

  /** `processPayment(a)` applied to the state `l`. */
  function Pay(l: Ledger, a: AmountField): (r: Ledger)
    ensures Consistent(l) ==> Consistent(r)
    ensures |r.contributors| == |l.contributors| + 1
    ensures r.contributors[..|l.contributors|] == l.contributors
    ensures r.contributors[|l.contributors|] == Contributor(|l.contributors| + 1, a)
    ensures r.totalRaised == Add(l.totalRaised, ParseFloat(a))
    ensures r.amount == Blank && Contains(r.message, a.text)
  {
    var c := Contributor(|l.contributors| + 1, a);
    SumParsedAppend(l.contributors, c);
    assert (l.contributors + [c])[..|l.contributors|] == l.contributors;
    Ledger(Blank, ThankYouMessage(a.text), Add(l.totalRaised, ParseFloat(a)), l.contributors + [c])
  }

  /** `handleSubmit` applied to the state `l`. */
  function Submit(l: Ledger): (r: Ledger)
    ensures Consistent(l) ==> Consistent(r)
    ensures |r.contributors| == |l.contributors| + (if Rejects(l.amount) then 0 else 1)
    ensures r.contributors[..|l.contributors|] == l.contributors
    ensures Rejects(l.amount) ==> r.message == InvalidAmountMessage && r.totalRaised == l.totalRaised && r.amount == l.amount
    ensures !Rejects(l.amount) ==> r.totalRaised == Add(l.totalRaised, ParseFloat(l.amount)) && r.amount == Blank
  {
    if Rejects(l.amount) then l.(message := InvalidAmountMessage) else Pay(l, l.amount)
  }

  /** A user action: typing into the amount field, or submitting the form. */
  datatype Action = Edit(input: AmountField) | SubmitForm

  function Apply(l: Ledger, act: Action): Ledger
  {
    match act
    case Edit(a) => l.(amount := a)
    case SubmitForm => Submit(l)
  }

  function Replay(l: Ledger, acts: seq<Action>): Ledger
    decreases |acts|
  {
    if acts == [] then l else Replay(Apply(l, acts[0]), acts[1..])
  }

  /** How many submissions of `acts`, started from `l`, get past the `amount <= 0` guard. */
  function AcceptedCount(l: Ledger, acts: seq<Action>): nat
    decreases |acts|
  {
    if acts == [] then 0
    else (if acts[0].SubmitForm? && !Rejects(l.amount) then 1 else 0) + AcceptedCount(Apply(l, acts[0]), acts[1..])
  }

  /** After any run of actions the counter still equals the fold of the list, and ids stay 1..n. */
  lemma {:induction false} ReplayConsistent(l: Ledger, acts: seq<Action>)
    requires Consistent(l)
    ensures Consistent(Replay(l, acts))
    decreases |acts|
  {
    if acts != [] {
      ReplayConsistent(Apply(l, acts[0]), acts[1..]);
    }
  }

  /**
   * The list only grows, and by exactly one entry per accepted submission:
   * the displayed count is the number of accepted submissions.
   */
  lemma {:induction false} ReplayCount(l: Ledger, acts: seq<Action>)
    ensures |Replay(l, acts).contributors| == |l.contributors| + AcceptedCount(l, acts)
    ensures Replay(l, acts).contributors[..|l.contributors|] == l.contributors
    decreases |acts|
  {
    if acts != [] {
      var next := Apply(l, acts[0]);
      ReplayCount(next, acts[1..]);
      assert next.contributors[..|l.contributors|] == l.contributors;
    }
  }

  /** From the initial state: total equals the fold, and the count equals the accepted submissions. */
  lemma FromInitial(acts: seq<Action>)
    ensures Replay(Initial(), acts).totalRaised == SumParsed(Replay(Initial(), acts).contributors)
    ensures |Replay(Initial(), acts).contributors| == AcceptedCount(Initial(), acts)
  {
    ReplayConsistent(Initial(), acts);
    ReplayCount(Initial(), acts);
  }

  /** The guard lets a NaN amount through, and the counter then reads NaN. */
  lemma NaNPassesGuard(l: Ledger, text: string)
    ensures !Rejects(AmountField(text, NaN))
    ensures Submit(l.(amount := AmountField(text, NaN))).totalRaised == NaN
  {
  }

  /**
   * `processPayment("")` would make the counter NaN, since `parseFloat("")` is
   * NaN; the guard of `handleSubmit` refuses the empty field first, and what
   * it lets through is read alike by `Number` and `parseFloat`.
   */
  lemma BlankPaymentGuarded(l: Ledger)
    ensures Pay(l, Blank).totalRaised == NaN
    ensures Rejects(Blank) && Submit(l.(amount := Blank)).totalRaised == l.totalRaised
    ensures forall a :: !Rejects(a) && a.text != "" ==> Submit(l.(amount := a)).totalRaised == Add(l.totalRaised, a.number)
  {
  }

  /** Once the counter is NaN, no later action brings it back to a number. */
  lemma {:induction false} NaNIsPermanent(l: Ledger, acts: seq<Action>)
    requires l.totalRaised == NaN
    ensures Replay(l, acts).totalRaised == NaN
    decreases |acts|
  {
    if acts != [] {
      NaNIsPermanent(Apply(l, acts[0]), acts[1..]);
    }
  }

  /** `contributors.slice(-5)`: the last min(5, n) contributors, oldest first. */
  function RecentContributors(cs: seq<Contributor>): (r: seq<Contributor>)
    ensures |r| == if |cs| < RecentCount then |cs| else RecentCount
    ensures forall i :: 0 <= i < |r| ==> r[i] == cs[|cs| - |r| + i]
  {
    cs[if |cs| >= RecentCount then |cs| - RecentCount else 0..]
  }

  class Crowdfunding {
    var amount: AmountField
    var message: string
    var totalRaised: Number
    var contributors: seq<Contributor>

    function State(): Ledger
      reads this
    {
      Ledger(amount, message, totalRaised, contributors)
    }

    ghost predicate Valid()
      reads this
    {
      Consistent(State())
    }

    constructor ()
      ensures Valid()
      ensures State() == Initial()
      ensures totalRaised == Finite(0.0) && contributors == []
    {
      amount := Blank;
      message := "";
      totalRaised := Finite(0.0);
      contributors := [];
    }

    /** The field's `onChange`: `setAmount(e.target.value)`. */
    method SetAmount(value: AmountField)
      requires Valid()
      modifies this`amount
      ensures Valid()
      ensures amount == value
      ensures State() == Apply(old(State()), Edit(value))
    {
      amount := value;
    }

    /** `handleSubmit`: refuse `amount <= 0` with a message, otherwise `processPayment(amount)`. */
    method HandleSubmit()
      requires Valid()
      modifies this`amount, this`message, this`totalRaised, this`contributors
      ensures Valid()
      ensures State() == Submit(old(State()))
      ensures Rejects(old(amount)) ==>
        && message == InvalidAmountMessage
        && totalRaised == old(totalRaised) && contributors == old(contributors) && amount == old(amount)
    {
      if Rejects(amount) {
        message := InvalidAmountMessage;
        return;
      }
      ProcessPayment(amount);
    }

    /** `processPayment(a)`: add the parsed amount to the counter and append the raw one. */
    method ProcessPayment(a: AmountField)
      requires Valid()
      modifies this`amount, this`message, this`totalRaised, this`contributors
      ensures Valid()
      ensures State() == Pay(old(State()), a)
      ensures totalRaised == Add(old(totalRaised), ParseFloat(a))
      ensures contributors == old(contributors) + [Contributor(|old(contributors)| + 1, a)]
      ensures amount == Blank && message == ThankYouMessage(a.text)
    {
      totalRaised := Add(totalRaised, ParseFloat(a));
      contributors := contributors + [Contributor(|contributors| + 1, a)];
      message := ThankYouMessage(a.text);
      amount := Blank;
    }

  }

  /** Eight payments of 1..8: the recent view holds contributors 4..8, in that order. */
  method RecentScenario()
  {
    var page := new Crowdfunding();
    var k := 1;
    while k <= 8
      invariant 1 <= k <= 9
      invariant page.Valid() && |page.contributors| == k - 1
      modifies page
    {
      page.SetAmount(AmountField(DecimalString(k), Finite(k as real)));
      page.HandleSubmit();
      k := k + 1;
    }
    var recent := RecentContributors(page.contributors);
    assert |recent| == 5;
    assert forall i :: 0 <= i < 5 ==> recent[i].id == i + 4;
  }
}
