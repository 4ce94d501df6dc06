/** Whole sessions: a sequence of user actions from some starting state, and
    the facts that hold across it — the ledger invariant, conservation of
    money against the amounts the receipts carry, and the harmlessness of
    failed submits however often they are repeated. */
module Session {
  import opened Wrappers
  import opened Flow

  /** The state after the actions `evs`, taken in order. */
  function Run(parse: Parser, s: App, evs: seq<Event>): App
    decreases |evs|
  {
    if evs == [] then s else Run(parse, Step(parse, s, evs[0]), evs[1..])
  }

  /** The amounts of the receipts opened during the actions `evs`, in order:
      each step that leaves the wallet screen for a receipt. */
  function Receipts(parse: Parser, s: App, evs: seq<Event>): seq<real>
    decreases |evs|
  {
    if evs == [] then []
    else
      var t := Step(parse, s, evs[0]);
      (if s.route.Wallet? && t.route.Receipt? then [t.route.amount] else [])
        + Receipts(parse, t, evs[1..])
  }

  function Sum(xs: seq<real>): real {
    if xs == [] then 0.0 else xs[0] + Sum(xs[1..])
  }

  /** The state every reachable app is in: a balance that is not negative,
      and a receipt only for a positive amount, reached with the field and
      the error cleared. */
  predicate Valid(s: App) {
    && s.account.balance >= 0.0
    && (s.route.Receipt? ==> s.route.amount > 0.0 && s.input == "" && s.error == None)
  }

  lemma InitialValid()
    ensures Valid(Initial())
  {
  }

  /** Every action keeps the app valid. */
  lemma StepKeepsValid(parse: Parser, s: App, e: Event)
    requires Valid(s)
    ensures Valid(Step(parse, s, e))
  {
  }

  /** The ledger invariant over a whole session: the balance never goes
      negative. */
  lemma {:induction false} RunKeepsValid(parse: Parser, s: App, evs: seq<Event>)
    requires Valid(s)
    ensures Valid(Run(parse, s, evs))
    decreases |evs|
  {
    if evs != [] {
      StepKeepsValid(parse, s, evs[0]);
      RunKeepsValid(parse, Step(parse, s, evs[0]), evs[1..]);
    }
  }

  /** Conservation: the balance goes down by exactly the amounts the receipt
      routes carry, every receipt is for a positive amount, and nothing else
      moves money. */
  lemma {:induction false} RunConservesMoney(parse: Parser, s: App, evs: seq<Event>)
    ensures Run(parse, s, evs).account.balance == s.account.balance - Sum(Receipts(parse, s, evs))
    ensures forall i :: 0 <= i < |Receipts(parse, s, evs)| ==> Receipts(parse, s, evs)[i] > 0.0
    decreases |evs|
  {
    if evs != [] {
      var t := Step(parse, s, evs[0]);
      var head: seq<real> := if s.route.Wallet? && t.route.Receipt? then [t.route.amount] else [];
      RunConservesMoney(parse, t, evs[1..]);
      SumAppend(head, Receipts(parse, t, evs[1..]));
    }
  }

  lemma {:induction false} SumAppend(xs: seq<real>, ys: seq<real>)
    ensures Sum(xs + ys) == Sum(xs) + Sum(ys)
    decreases |xs|
  {
    if xs == [] {
      assert xs + ys == ys;
    } else {
      assert (xs + ys)[1..] == xs[1..] + ys;
      SumAppend(xs[1..], ys);
    }
  }

  lemma {:induction false} SumNonNegative(xs: seq<real>)
    requires forall i :: 0 <= i < |xs| ==> xs[i] > 0.0
    ensures Sum(xs) >= 0.0
    ensures xs != [] ==> Sum(xs) > 0.0
    decreases |xs|
  {
    if xs != [] {
      SumNonNegative(xs[1..]);
    }
  }

  /** The balance never grows, and it stays where it was exactly when no
      receipt was opened. */
  lemma RunNeverCredits(parse: Parser, s: App, evs: seq<Event>)
    ensures Run(parse, s, evs).account.balance <= s.account.balance
    ensures Run(parse, s, evs).account.balance == s.account.balance <==> Receipts(parse, s, evs) == []
  {
    RunConservesMoney(parse, s, evs);
    SumNonNegative(Receipts(parse, s, evs));
  }

  /** `n` submits in a row, with no edit in between. */
  function SubmitTimes(parse: Parser, s: App, n: nat): App
    decreases n
  {
    if n == 0 then s else SubmitTimes(parse, Submit(parse, s), n - 1)
  }

  /** A failing submit is idempotent: repeating it any number of times leaves
      the same state as doing it once, so the balance, the field and the
      screen never change and the same error stays shown. */
  lemma {:induction false} FailedSubmitsRepeat(parse: Parser, s: App, n: nat)
    requires !Succeeds(parse, s)
    requires n >= 1
    ensures SubmitTimes(parse, s, n) == Submit(parse, s)
    ensures SubmitTimes(parse, s, n).account == s.account
    ensures SubmitTimes(parse, s, n).input == s.input && SubmitTimes(parse, s, n).route == s.route
    decreases n
  {
    var t := Submit(parse, s);
    assert t.input == s.input && t.account == s.account;
    assert !Succeeds(parse, t);
    assert Submit(parse, t) == t;
    if n > 1 {
      FailedSubmitsRepeat(parse, t, n - 1);
    }
  }
}
