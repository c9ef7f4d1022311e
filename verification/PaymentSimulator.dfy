/** The payment provider simulator and the adapter that submits to it. */
module PaymentSimulator {
  import opened Wrappers

  /** What a manifest asks the provider to do. */
  datatype Payment = Payment(
    source: string, beneficiary: string, amount: int, currency: string, fee: int, reference: string)
  {
    function Total(): int { amount + fee }
  }

  datatype Record = Record(
    beneficiary: string, amount: int, currency: string, fee: int, settled: bool, reference: string)
  {
    function Total(): int { amount + fee }
  }

  /** One movement of an account. Postings are a history of the run: no operation reads them. */
  datatype Posting =
    | Deposit(account: string, units: int)
    | Debit(key: string, account: string, units: int)

  datatype Provider = Provider(
    balances: map<string, int>,
    payments: map<string, Record>,
    failNext: bool,
    timeoutNext: bool,
    postings: seq<Posting>)

  const NewProvider := Provider(map[], map[], false, false, [])

  /** How a submission comes back. TimedOut is raised after settlement; MissingAccount is
      the lookup error for an account that was never funded and a total that is not positive. */
  datatype Reply = Answer(record: Record) | TimedOut | MissingAccount

  function Balance(p: Provider, account: string): int {
    if account in p.balances then p.balances[account] else 0
  }

  function Fund(p: Provider, account: string, units: int): Provider {
    p.(balances := p.balances[account := Balance(p, account) + units],
       postings := p.postings + [Deposit(account, units)])
  }

  function RecordOf(pay: Payment, settled: bool): Record {
    Record(pay.beneficiary, pay.amount, pay.currency, pay.fee, settled, pay.reference)
  }

  function Submit(p: Provider, key: string, pay: Payment): (Provider, Reply) {
    if key in p.payments then (p, Answer(p.payments[key]))
    else if p.failNext then
      (p.(failNext := false, payments := p.payments[key := RecordOf(pay, false)]), Answer(RecordOf(pay, false)))
    else if Balance(p, pay.source) < pay.Total() then
      (p.(payments := p.payments[key := RecordOf(pay, false)]), Answer(RecordOf(pay, false)))
    else if pay.source !in p.balances then (p, MissingAccount)
    else
      var settled := p.(
        balances := p.balances[pay.source := p.balances[pay.source] - pay.Total()],
        payments := p.payments[key := RecordOf(pay, true)],
        postings := p.postings + [Debit(key, pay.source, pay.Total())]);
      if p.timeoutNext then (settled.(timeoutNext := false), TimedOut)
      else (settled, Answer(RecordOf(pay, true)))
  }

  // ---------- what the provider promises ----------

  function Funded(log: seq<Posting>, account: string): int {
    if log == [] then 0
    else
      var last := log[|log| - 1];
      Funded(log[..|log| - 1], account) +
      if last.Deposit? && last.account == account then last.units else 0
  }

  function Debited(log: seq<Posting>, account: string): int {
    if log == [] then 0
    else
      var last := log[|log| - 1];
      Debited(log[..|log| - 1], account) +
      if last.Debit? && last.account == account then last.units else 0
  }

  ghost predicate DebitFor(log: seq<Posting>, i: int, key: string) {
    0 <= i < |log| && log[i].Debit? && log[i].key == key
  }

  /** Money is conserved per account, each key is debited at most once, and the debits are
      exactly the settled records, each for its own total. */
  ghost predicate Conserving(p: Provider) {
    && (forall a :: Funded(p.postings, a) == Balance(p, a) + Debited(p.postings, a))
    && (forall i, j, k :: DebitFor(p.postings, i, k) && DebitFor(p.postings, j, k) ==> i == j)
    && (forall i :: 0 <= i < |p.postings| && p.postings[i].Debit? ==>
          && p.postings[i].key in p.payments
          && p.payments[p.postings[i].key].settled
          && p.postings[i].units == p.payments[p.postings[i].key].Total())
    && (forall k :: k in p.payments && p.payments[k].settled ==> exists i :: DebitFor(p.postings, i, k))
  }

  /** The record of a key never changes once written. */
  ghost predicate Extends(p: Provider, q: Provider) {
    && p.postings <= q.postings
    && forall k :: k in p.payments ==> k in q.payments && q.payments[k] == p.payments[k]
  }

  lemma FundKeeps(p: Provider, account: string, units: int)
    requires Conserving(p)
    ensures Conserving(Fund(p, account, units)) && Extends(p, Fund(p, account, units))
  {
    var q := Fund(p, account, units);
    PostingKeeps(p, q, Deposit(account, units));
  }

  /** Appending one posting moves the sums by that posting and keeps the others in place. */
  lemma PostingKeeps(p: Provider, q: Provider, x: Posting)
    requires q.postings == p.postings + [x]
    ensures forall a :: Funded(q.postings, a) == Funded(p.postings, a) +
                                                 if x.Deposit? && x.account == a then x.units else 0
    ensures forall a :: Debited(q.postings, a) == Debited(p.postings, a) +
                                                  if x.Debit? && x.account == a then x.units else 0
    ensures forall i, k :: DebitFor(q.postings, i, k) <==>
                             DebitFor(p.postings, i, k) || (i == |p.postings| && x.Debit? && x.key == k)
  {
    assert q.postings[..|q.postings| - 1] == p.postings;
  }

  /** A settlement posts one debit for a key that had no record. */
  lemma SettlementKeeps(p: Provider, q: Provider, key: string, pay: Payment)
    requires Conserving(p) && key !in p.payments && pay.source in p.balances
    requires q.balances == p.balances[pay.source := p.balances[pay.source] - pay.Total()]
    requires q.payments == p.payments[key := RecordOf(pay, true)]
    requires q.postings == p.postings + [Debit(key, pay.source, pay.Total())]
    ensures Conserving(q) && Extends(p, q)
  {
    PostingKeeps(p, q, Debit(key, pay.source, pay.Total()));
    assert DebitFor(q.postings, |p.postings|, key);
    assert forall i :: !DebitFor(p.postings, i, key);
    forall k | k in q.payments && q.payments[k].settled
      ensures exists i :: DebitFor(q.postings, i, k)
    {
      if k != key {
        var i :| DebitFor(p.postings, i, k);
        assert DebitFor(q.postings, i, k);
      }
    }
  }

  lemma SubmitKeeps(p: Provider, key: string, pay: Payment)
    requires Conserving(p)
    ensures Conserving(Submit(p, key, pay).0) && Extends(p, Submit(p, key, pay).0)
  {
    var q := Submit(p, key, pay).0;
    if q.postings != p.postings {
      SettlementKeeps(p, q, key, pay);
    }
  }

  /** A new key settles exactly when no failure is injected and the account is funded and covers the
      total; a settlement takes the total off that account and leaves every other account alone. */
  lemma SettlesExactly(p: Provider, key: string, pay: Payment, account: string)
    requires key !in p.payments
    ensures var q := Submit(p, key, pay).0;
            var settles := !p.failNext && pay.source in p.balances && pay.Total() <= p.balances[pay.source];
            && (key in q.payments && q.payments[key].settled <==> settles)
            && (key !in q.payments <==> !p.failNext && pay.source !in p.balances && pay.Total() <= 0)
            && Balance(q, account) == Balance(p, account) - if settles && account == pay.source then pay.Total() else 0
  {
  }

  /** How the first submission of a key comes back, and what it leaves: the record of this very payment,
      settled or failed, returned unless the settlement times out; an injected failure is used up by the
      first new key, an injected timeout by the first settlement. */
  lemma FirstReplyExactly(p: Provider, key: string, pay: Payment)
    requires key !in p.payments
    ensures var (q, reply) := Submit(p, key, pay);
            var covered := pay.amount + pay.fee <= Balance(p, pay.source);
            var settles := !p.failNext && covered && pay.source in p.balances;
            var record := Record(pay.beneficiary, pay.amount, pay.currency, pay.fee, settles, pay.reference);
            && (reply == Answer(record) && record.settled <==> settles && !p.timeoutNext)
            && (reply == TimedOut <==> settles && p.timeoutNext)
            && (reply == Answer(record) && !record.settled <==> p.failNext || !covered)
            && (reply == MissingAccount <==> !p.failNext && covered && pay.source !in p.balances)
            && (if reply == MissingAccount then q == p else q.payments == p.payments[key := record])
            && !q.failNext && (q.timeoutNext <==> p.timeoutNext && !settles)
  {
  }

  /** A submission for a key the provider already knows moves nothing. */
  lemma ResubmitIsFree(p: Provider, key: string, first: Payment, again: Payment)
    requires Submit(p, key, first).1 != MissingAccount
    ensures Submit(Submit(p, key, first).0, key, again).0 == Submit(p, key, first).0
    ensures Submit(p, key, first).1.Answer? ==>
              Submit(Submit(p, key, first).0, key, again).1 == Submit(p, key, first).1
  {
  }

  // ---------- the provider object ----------

  class PaymentSimulator {
    var balances: map<string, int>
    var payments: map<string, Record>
    var failNext: bool
    var timeoutNext: bool
    ghost var postings: seq<Posting>

    ghost function View(): Provider
      reads this
    {
      Provider(balances, payments, failNext, timeoutNext, postings)
    }

    constructor ()
      ensures View() == NewProvider
    {
      balances, payments, failNext, timeoutNext, postings := map[], map[], false, false, [];
    }

    method FundAccount(account: string, units: int)
      modifies this
      ensures View() == Fund(old(View()), account, units)
    {
      var before := if account in balances then balances[account] else 0;
      balances := balances[account := before + units];
      postings := postings + [Deposit(account, units)];
    }

    method InjectFailure()
      modifies this
      ensures View() == old(View()).(failNext := true)
    {
      failNext := true;
    }

    method InjectAmbiguousTimeout()
      modifies this
      ensures View() == old(View()).(timeoutNext := true)
    {
      timeoutNext := true;
    }

    method SubmitPayment(key: string, pay: Payment) returns (reply: Reply)
      modifies this
      ensures (View(), reply) == Submit(old(View()), key, pay)
      ensures old(Conserving(View())) ==> Conserving(View()) && Extends(old(View()), View())
    {
      ghost var before := View();
      reply := SubmitSteps(key, pay);
      if Conserving(before) {
        SubmitKeeps(before, key, pay);
      }
    }

    method SubmitSteps(key: string, pay: Payment) returns (reply: Reply)
      modifies this
      ensures (View(), reply) == Submit(old(View()), key, pay)
    {
      if key in payments {
        return Answer(payments[key]);
      }
      if failNext {
        failNext := false;
        payments := payments[key := RecordOf(pay, false)];
        return Answer(RecordOf(pay, false));
      }
      var available := if pay.source in balances then balances[pay.source] else 0;
      if available < pay.Total() {
        payments := payments[key := RecordOf(pay, false)];
        return Answer(RecordOf(pay, false));
      }
      if pay.source !in balances {
        return MissingAccount;
      }
      balances := balances[pay.source := balances[pay.source] - pay.Total()];
      payments := payments[key := RecordOf(pay, true)];
      postings := postings + [Debit(key, pay.source, pay.Total())];
      if timeoutNext {
        timeoutNext := false;
        return TimedOut;
      }
      return Answer(RecordOf(pay, true));
    }
  }

  // ---------- the adapter ----------

  /** The balance must still be the one seen at preparation, and cover the total. */
  predicate PreconditionsHold(p: Provider, pay: Payment, expectedBalance: int) {
    Balance(p, pay.source) == expectedBalance && pay.Total() <= expectedBalance
  }

  /** How the adapter's commit comes back to the engine. */
  datatype CommitReply = Success(reference: string) | Failure | Exception

  function CommitReplyOf(reply: Reply): CommitReply {
    match reply
    case Answer(record) => if record.settled then Success(record.reference) else Failure
    case TimedOut => Failure
    case MissingAccount => Exception
  }

  /** What the engine is told: a success, with the reference of the record, exactly when a settled record
      comes back; an exception exactly for an account that is missing; and a failure otherwise, which a
      timeout after settlement looks like. */
  lemma CommitReplyExactly(p: Provider, key: string, pay: Payment, reference: string)
    ensures var reply := CommitReplyOf(Submit(p, key, pay).1);
            var covered := pay.amount + pay.fee <= Balance(p, pay.source);
            && (reply == Success(reference) <==>
                  if key in p.payments then p.payments[key].settled && reference == p.payments[key].reference
                  else && !p.failNext && covered && pay.source in p.balances && !p.timeoutNext
                       && reference == pay.reference)
            && (reply == Exception <==>
                  key !in p.payments && !p.failNext && covered && pay.source !in p.balances)
  {
  }

  /** Independent observation: a settled record for the key, with this amount and beneficiary. */
  predicate Evidence(p: Provider, key: string, pay: Payment) {
    && key in p.payments
    && p.payments[key].settled
    && p.payments[key].amount == pay.amount
    && p.payments[key].beneficiary == pay.beneficiary
  }
}
