/**
 The transaction sub-protocol every reconciler shares
 (operator/internal/controller/transaction_reconcile.go): persist an idempotency key, submit under
 it, recover the transaction by that key when the node already knows it, then track the receipt.

 `ReconcileTx` is the specification as a function of the submission record, the nodes' ledger and
 everything the environment decides (clock, faults, readiness); the classes `PaladinNodes` and
 `TransactionReconcile` are the source's mutable objects, proved to compute exactly it.
 */
module Transactions {
  import opened Collections

  type Name = string
  type Address = string
  type Key = string
  type TxId = string
  type Uid = nat

  /** One TransactionSubmission record of a CR: its main transaction, or one per transport. */
  datatype Slot = Main | Transport(name: Name)

  datatype Receipt = Receipt(success: bool, contract: Option<Address>, hash: string, block: int, failure: string)

  /** What a transaction was built from: its CR slot and the contract addresses put into it. */
  datatype Content = Content(uid: Uid, slot: Slot, inputs: map<Name, Address>)

  datatype Tx = Tx(id: TxId, content: Content)

  /** All Paladin nodes: transactions by (node, idempotency key), and final receipts by id. */
  datatype Ledger = Ledger(txs: map<(Name, Key), Tx>, receipts: map<TxId, Receipt>)

  datatype TxStatus = Unset | Submitting | Pending | Success | Failed

  datatype Submission = Submission(status: TxStatus, key: Key, txId: TxId, failure: string, hash: string, block: int)

  const EMPTY := Submission(Unset, "", "", "", "", 0)

  /** What happens to one RPC: it is carried out, never arrives, or its answer is lost. */
  datatype Fault = Delivered | RequestLost | ReplyLost

  datatype Availability = Ready | NotReady | Broken

  /** Every choice the environment makes during one call of `reconcile`. */
  datatype Env = Env(
    freshKey: Key, freshId: TxId,
    rpc: Availability, factory: Availability,
    send: Fault, query: Fault, track: Fault, receiptVisible: bool)

  datatype Reply = Accepted(id: TxId) | DuplicateKey | Lost

  datatype Outcome = Outcome(
    sub: Submission, ledger: Ledger, receipt: Option<Receipt>,
    changed: bool, succeeded: bool, failed: bool, err: bool)

  /** ptx_sendTransaction: a node keeps one transaction per idempotency key (error PD012220 otherwise). */
  function Send(ledger: Ledger, at: Name, key: Key, content: Content, env: Env): (Ledger, Reply) {
    if env.send.RequestLost? then (ledger, Lost)
    else if (at, key) in ledger.txs then (ledger, if env.send.ReplyLost? then Lost else DuplicateKey)
    else
      (ledger.(txs := ledger.txs[(at, key) := Tx(env.freshId, content)]),
       if env.send.ReplyLost? then Lost else Accepted(env.freshId))
  }

  function Submit(sub: Submission, at: Name, content: Content, ledger: Ledger, env: Env): Outcome {
    if !env.factory.Ready? then Outcome(sub, ledger, None, false, false, false, env.factory.Broken?)
    else
      var (ledger', reply) := Send(ledger, at, sub.key, content, env);
      match reply
      case Lost => Outcome(sub, ledger', None, false, false, false, true)
      case Accepted(id) =>
        Outcome(sub.(txId := id, status := Pending), ledger', None, true, false, false, false)
      case DuplicateKey =>
        if env.query.Delivered? then
          Outcome(sub.(txId := ledger.txs[(at, sub.key)].id, status := Pending), ledger', None, true, false, false,
              false)
        else Outcome(sub, ledger', None, false, false, false, true)
  }

  function Track(sub: Submission, ledger: Ledger, env: Env): Outcome {
    if !env.track.Delivered? then Outcome(sub, ledger, None, false, false, false, true)
    else if !env.receiptVisible || sub.txId !in ledger.receipts then
      Outcome(sub, ledger, None, false, false, false, false)
    else
      var r := ledger.receipts[sub.txId];
      var s := if r.hash != "" then sub.(hash := r.hash) else sub;
      if r.success then
        Outcome(s.(status := Success, block := r.block), ledger, Some(r), true, true, false, false)
      else
        Outcome(s.(status := Failed, failure := r.failure), ledger, Some(r), true, false, true, false)
  }

  /** One call of `transactionReconcile.reconcile` on node `at`. */
  function ReconcileTx(sub: Submission, at: Name, content: Content, ledger: Ledger, env: Env): Outcome {
    if sub.status.Failed? then Outcome(sub, ledger, None, false, false, true, false)
    else if sub.status.Success? then Outcome(sub, ledger, None, false, true, false, false)
    else if sub.key == "" then
      Outcome(sub.(status := Submitting, key := env.freshKey), ledger, None, true, false, false, false)
    else if !env.rpc.Ready? then Outcome(sub, ledger, None, false, false, false, env.rpc.Broken?)
    else if sub.txId == "" then Submit(sub, at, content, ledger, env)
    else Track(sub, ledger, env)
  }

  /** The statuses a record goes through, and which of its fields each status has filled in. */
  predicate Coherent(sub: Submission) {
    && (sub.status.Unset? <==> sub.key == "")
    && (sub.status.Unset? || sub.status.Submitting? <==> sub.txId == "")
    && (sub.status.Unset? ==> sub == EMPTY)
  }

  function Rank(s: TxStatus): (r: nat) {
    match s case Unset => 0 case Submitting => 1 case Pending => 2 case Success => 3 case Failed => 3
  }

  /** One step of the status order; key and transaction id are written once. */
  predicate StepsUp(a: Submission, b: Submission) {
    && Rank(b.status) == Rank(a.status) + 1
    && (a.key != "" ==> b.key == a.key)
    && (a.txId != "" ==> b.txId == a.txId)
  }

  predicate Evolves(a: Submission, b: Submission) { a == b || StepsUp(a, b) }

  /** A call moves a coherent record up by one status exactly when it reports a change. */
  lemma ReconcileStepsUp(sub: Submission, at: Name, content: Content, ledger: Ledger, env: Env)
    requires Coherent(sub) && env.freshKey != "" && env.freshId != ""
    requires forall r <- ledger.txs :: ledger.txs[r].id != ""
    ensures var o := ReconcileTx(sub, at, content, ledger, env);
            && Coherent(o.sub)
            && (if o.changed then StepsUp(sub, o.sub) && !o.err else o.sub == sub)
            && (o.succeeded <==> o.sub.status.Success?)
            && (o.failed <==> o.sub.status.Failed?)
  {
  }

  /** The nodes as the RPC client sees them; every call may be faulted by the environment. */
  class PaladinNodes {
    var ledger: Ledger

    constructor (ledger: Ledger)
      ensures this.ledger == ledger
    {
      this.ledger := ledger;
    }

    method SendTransaction(at: Name, key: Key, content: Content, env: Env) returns (reply: Reply)
      modifies this
      ensures (ledger, reply) == Send(old(ledger), at, key, content, env)
    {
      if env.send.RequestLost? {
        return Lost;
      }
      if (at, key) in ledger.txs {
        return if env.send.ReplyLost? then Lost else DuplicateKey;
      }
      ledger := ledger.(txs := ledger.txs[(at, key) := Tx(env.freshId, content)]);
      return if env.send.ReplyLost? then Lost else Accepted(env.freshId);
    }

    method QueryByKey(at: Name, key: Key, env: Env) returns (found: Option<TxId>)
      ensures found == if env.query.Delivered? && (at, key) in ledger.txs
                       then Some(ledger.txs[(at, key)].id) else None
    {
      found := None;
      if env.query.Delivered? && (at, key) in ledger.txs {
        found := Some(ledger.txs[(at, key)].id);
      }
    }
  }

  /** The source's `transactionReconcile` object: one per slot and pass. */
  class TransactionReconcile {
    var pStatus: Submission
    var receipt: Option<Receipt>
    var statusChanged: bool
    var succeeded: bool
    var failed: bool

    ghost predicate Fresh()
      reads this
    {
      receipt.None? && !statusChanged && !succeeded && !failed
    }

    ghost function Result(ledger: Ledger, err: bool): (o: Outcome)
      reads this
    {
      Outcome(pStatus, ledger, receipt, statusChanged, succeeded, failed, err)
    }

    constructor (sub: Submission)
      ensures pStatus == sub && Fresh()
    {
      pStatus := sub;
      receipt := None;
      statusChanged, succeeded, failed := false, false, false;
    }

    method Reconcile(nodes: PaladinNodes, at: Name, content: Content, env: Env) returns (err: bool)
      requires Fresh()
      modifies this, nodes
      ensures Result(nodes.ledger, err) == ReconcileTx(old(pStatus), at, content, old(nodes.ledger), env)
    {
      if pStatus.status.Failed? {
        failed := true;
        return false;
      }
      if pStatus.status.Success? {
        succeeded := true;
        return false;
      }
      if pStatus.key == "" {
        pStatus := pStatus.(status := Submitting);
        pStatus := pStatus.(key := env.freshKey);
        statusChanged := true;
        return false;
      }
      if !env.rpc.Ready? {
        return env.rpc.Broken?;
      }
      if pStatus.txId == "" {
        err := SubmitTransaction(nodes, at, content, env);
      } else {
        err := TrackTransaction(nodes, env);
      }
    }

    method SubmitTransaction(nodes: PaladinNodes, at: Name, content: Content, env: Env) returns (err: bool)
      requires Fresh()
      modifies this, nodes
      ensures Result(nodes.ledger, err) == Submit(old(pStatus), at, content, old(nodes.ledger), env)
    {
      if !env.factory.Ready? {
        return env.factory.Broken?;
      }
      var reply := nodes.SendTransaction(at, pStatus.key, content, env);
      match reply {
        case Lost => return true;
        case Accepted(id) =>
          pStatus := pStatus.(txId := id);
          pStatus := pStatus.(status := Pending);
          statusChanged := true;
          return false;
        case DuplicateKey =>
          var found := nodes.QueryByKey(at, pStatus.key, env);
          if found.None? {
            return true;
          }
          pStatus := pStatus.(txId := found.value);
          pStatus := pStatus.(status := Pending);
          statusChanged := true;
          return false;
      }
    }

    method TrackTransaction(nodes: PaladinNodes, env: Env) returns (err: bool)
      requires Fresh()
      modifies this
      ensures Result(nodes.ledger, err) == Track(old(pStatus), nodes.ledger, env)
    {
      if !env.track.Delivered? {
        return true;
      }
      if !env.receiptVisible || pStatus.txId !in nodes.ledger.receipts {
        return false;
      }
      var r := nodes.ledger.receipts[pStatus.txId];
      receipt := Some(r);
      if r.hash != "" {
        pStatus := pStatus.(hash := r.hash);
      }
      if r.success {
        pStatus := pStatus.(status := Success, block := r.block);
        succeeded := true;
      } else {
        pStatus := pStatus.(status := Failed, failure := r.failure);
        failed := true;
      }
      statusChanged := true;
      return false;
    }
  }
}
