/** The transaction store behind `/api/pay` and the three admin routes of
    server/index.js, as values: a map from transaction id to record, and the
    transitions create, verify and submit. The `Server.Portal` class changes its
    state exactly as these functions say. */
module Ledger {
  import opened Common

  /** The `_id` the document store gives a transaction. */
  type TxId = nat

  /** The fields `/api/pay` takes from the request body. `swiftCode` and
      `accountInfo` may be left out. */
  datatype Payment = Payment(
    userId: string,
    amount: real,
    currency: string,
    provider: string,
    swiftCode: Option<string>,
    accountInfo: Option<string>)

  /** A stored transaction document. */
  datatype Transaction = Transaction(
    id: TxId,
    userId: string,
    amount: real,
    currency: string,
    provider: string,
    swiftCode: Option<string>,
    accountInfo: Option<string>,
    verified: bool,
    submittedToSwift: bool,
    timestamp: int)

  /** The collection, with the id the next created transaction receives. */
  datatype Store = Store(txs: map<TxId, Transaction>, next: TxId)

  /** The workflow's one dependency between the flags. */
  predicate Approved(tx: Transaction)
  {
    tx.submittedToSwift ==> tx.verified
  }

  /** Every record sits under its own id, below `next`, and is `Approved`. */
  predicate Valid(s: Store)
  {
    forall id :: id in s.txs ==> id < s.next && s.txs[id].id == id && Approved(s.txs[id])
  }

  /** `after` is `before` with possibly more flags raised: no other field
      changes and no flag goes back to false. */
  predicate Advances(before: Transaction, after: Transaction)
  {
    && after.(verified := before.verified, submittedToSwift := before.submittedToSwift) == before
    && (before.verified ==> after.verified)
    && (before.submittedToSwift ==> after.submittedToSwift)
  }

  /** No record disappears and every record only `Advances`. */
  predicate Evolves(before: Store, after: Store)
  {
    && before.next <= after.next
    && forall id :: id in before.txs ==> id in after.txs && Advances(before.txs[id], after.txs[id])
  }

  lemma EvolvesTransitive(a: Store, b: Store, c: Store)
    requires Evolves(a, b) && Evolves(b, c)
    ensures Evolves(a, c)
  {
  }

  /** `/api/pay`: a new record under `next`, both flags false, the body's fields
      stored as given, stamped with `now`. */
  function Create(s: Store, p: Payment, now: int): (r: Store)
    ensures r.next == s.next + 1
    ensures r.txs.Keys == s.txs.Keys + {s.next}
    ensures forall id :: id in s.txs && id != s.next ==> r.txs[id] == s.txs[id]
    ensures var tx := r.txs[s.next];
      && tx.id == s.next && !tx.verified && !tx.submittedToSwift && tx.timestamp == now
      && Payment(tx.userId, tx.amount, tx.currency, tx.provider, tx.swiftCode, tx.accountInfo) == p
    ensures Valid(s) ==> Valid(r) && Evolves(s, r)
  {
    var tx := Transaction(s.next, p.userId, p.amount, p.currency, p.provider,
                          p.swiftCode, p.accountInfo, false, false, now);
    Store(s.txs[s.next := tx], s.next + 1)
  }

  /** `/api/admin/verify/:id` (`findByIdAndUpdate` with `{verified: true}`,
      `{new: true}`): the updated record, or None for an unknown id. */
  function Verify(s: Store, id: TxId): (r: (Store, Option<Transaction>))
    ensures r.0.next == s.next && r.0.txs.Keys == s.txs.Keys
    ensures forall k :: k in s.txs && k != id ==> r.0.txs[k] == s.txs[k]
    ensures id !in s.txs ==> r.0 == s && r.1 == None
    ensures id in s.txs ==>
      && r.1 == Some(r.0.txs[id])
      && r.0.txs[id].verified
      && r.0.txs[id].submittedToSwift == s.txs[id].submittedToSwift
      && Advances(s.txs[id], r.0.txs[id])
    ensures Valid(s) ==> Valid(r.0) && Evolves(s, r.0)
  {
    if id in s.txs then
      var tx := s.txs[id].(verified := true);
      (Store(s.txs[id := tx], s.next), Some(tx))
    else
      (s, None)
  }

  /** The answers of `/api/admin/submit/:id`. */
  datatype SubmitOutcome =
    | NotFound              // 404 'Transaction not found'
    | NotVerified           // 400 'Transaction must be verified before submission'
    | Submitted(tx: Transaction)  // 200 'Transaction submitted to SWIFT'
  {
    function Status(): nat
    {
      match this
      case NotFound => 404
      case NotVerified => 400
      case Submitted(_) => 200
    }
  }

  /** `/api/admin/submit/:id`: 404 for an unknown id, 400 for a record that is not
      verified (both leave the store as it was), otherwise the record with
      `submittedToSwift` raised. */
  function Submit(s: Store, id: TxId): (r: (Store, SubmitOutcome))
    ensures r.1.NotFound? <==> id !in s.txs
    ensures r.1.NotVerified? <==> id in s.txs && !s.txs[id].verified
    ensures !r.1.Submitted? ==> r.0 == s
    ensures r.0.next == s.next && r.0.txs.Keys == s.txs.Keys
    ensures forall k :: k in s.txs && k != id ==> r.0.txs[k] == s.txs[k]
    ensures r.1.Submitted? ==>
      && r.1.tx == r.0.txs[id]
      && r.0.txs[id].submittedToSwift
      && r.0.txs[id].verified == s.txs[id].verified
      && Advances(s.txs[id], r.0.txs[id])
    ensures r.1.Status() == 200 ==> r.0.txs[id].verified
    ensures Valid(s) ==> Valid(r.0) && Evolves(s, r.0)
  {
    if id !in s.txs then (s, NotFound)
    else if !s.txs[id].verified then (s, NotVerified)
    else
      var tx := s.txs[id].(submittedToSwift := true);
      (Store(s.txs[id := tx], s.next), Submitted(tx))
  }

  /** Verifying twice is verifying once. */
  lemma VerifyIdempotent(s: Store, id: TxId)
    ensures Verify(Verify(s, id).0, id) == Verify(s, id)
  {
    if id in s.txs {
      var s1 := Verify(s, id).0;
      assert s1.txs[id := s1.txs[id].(verified := true)] == s1.txs;
    }
  }

  /** A successful submit repeated answers 200 again and changes nothing more. */
  lemma SubmitIdempotent(s: Store, id: TxId)
    requires Submit(s, id).1.Submitted?
    ensures Submit(Submit(s, id).0, id) == Submit(s, id)
  {
    var s1 := Submit(s, id).0;
    assert s1.txs[id := s1.txs[id].(submittedToSwift := true)] == s1.txs;
  }

  /** The records in storage (id) order, as `Transaction.find()` returns them. */
  function RecordsBelow(txs: map<TxId, Transaction>, n: nat): (r: seq<Transaction>)
    requires forall id :: id in txs ==> txs[id].id == id
    ensures forall i :: 0 <= i < |r| ==> r[i].id < n && r[i].id in txs && txs[r[i].id] == r[i]
    ensures forall i, j :: 0 <= i < j < |r| ==> r[i].id < r[j].id
    ensures forall id :: id in txs && id < n ==> txs[id] in r
  {
    if n == 0 then []
    else RecordsBelow(txs, n - 1) + (if n - 1 in txs then [txs[n - 1]] else [])
  }

  /** `/api/admin/transactions`: every stored record, once each, in id order. */
  function Listing(s: Store): (r: seq<Transaction>)
    requires Valid(s)
    ensures forall id :: id in s.txs ==> s.txs[id] in r
    ensures forall i :: 0 <= i < |r| ==> r[i].id in s.txs && s.txs[r[i].id] == r[i]
    ensures forall i, j :: 0 <= i < j < |r| ==> r[i].id < r[j].id
  {
    RecordsBelow(s.txs, s.next)
  }

  /** A workflow step, as the three routes that change the store. */
  datatype Op = Pay(payment: Payment, now: int) | VerifyTx(id: TxId) | SubmitTx(id: TxId)

  function Step(s: Store, op: Op): Store
  {
    match op
    case Pay(p, now) => Create(s, p, now)
    case VerifyTx(id) => Verify(s, id).0
    case SubmitTx(id) => Submit(s, id).0
  }

  function Run(s: Store, ops: seq<Op>): Store
    decreases |ops|
  {
    if ops == [] then s else Run(Step(s, ops[0]), ops[1..])
  }

  /** Across any sequence of create/verify/submit, `submittedToSwift ==> verified`
      holds for every record, no record is lost and no flag is ever cleared. */
  lemma {:induction false} RunKeepsInvariant(s: Store, ops: seq<Op>)
    requires Valid(s)
    ensures Valid(Run(s, ops)) && Evolves(s, Run(s, ops))
    decreases |ops|
  {
    if ops != [] {
      var s' := Step(s, ops[0]);
      assert Valid(s') && Evolves(s, s');
      RunKeepsInvariant(s', ops[1..]);
      EvolvesTransitive(s, s', Run(s', ops[1..]));
    }
  }

  /** A record can only have been submitted after a verify on it. */
  lemma {:induction false} SubmittedWasVerified(s: Store, ops: seq<Op>, id: TxId)
    requires Valid(s)
    requires id in s.txs && !s.txs[id].verified
    requires VerifyTx(id) !in ops
    ensures id in Run(s, ops).txs && !Run(s, ops).txs[id].submittedToSwift
    decreases |ops|
  {
    if ops != [] {
      var s' := Step(s, ops[0]);
      assert id in s'.txs && !s'.txs[id].verified;
      assert VerifyTx(id) !in ops[1..] by { assert forall o :: o in ops[1..] ==> o in ops; }
      SubmittedWasVerified(s', ops[1..], id);
    }
  }

  /** Create, verify, submit on an empty store ends with the record submitted;
      submitting before the verify answers 400 and changes nothing. */
  lemma HappyPath(p: Payment, now: int)
    ensures var s1 := Create(Store(map[], 0), p, now);
      && Submit(s1, 0) == (s1, NotVerified)
      && var s2 := Verify(s1, 0).0;
      && Submit(s2, 0).1.Submitted?
      && Submit(s2, 0).0.txs[0].verified && Submit(s2, 0).0.txs[0].submittedToSwift
  {
  }
}
