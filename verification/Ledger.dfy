/** The ledger_entries table and the double-entry write (crates/payment-service/src/ledger.rs). */
module Ledger {
  import opened Models
  import opened Sums
  import opened Fees
  import opened HashChain

  datatype Account = GatewayFloat | MerchantPayable | FeeIncome | RefundReserve | ChargebackReserve

  datatype EntryType = Debit | Credit

  datatype Entry = Entry(
    id: Id,
    payment: Id,
    merchant: Id,
    kind: EntryType,
    account: Account,
    reference: Id,
    amount: int,
    currency: Currency,
    balanceBefore: int,
    balanceAfter: int,
    hash: string,
    createdAt: int)
  {
    function Signed(): int {
      if kind == Credit then amount else -amount
    }

    function Link(): Link {
      HashChain.Link(id, amount, createdAt)
    }
  }

  /** Settings: the fee rate, whether the reference column's foreign key waits for the commit, and SHA-256. */
  datatype Config = Config(rate: Rate, deferredReference: bool, sha256: string -> string)

  /** One money movement: `amount` leaves account `debit` for account `credit`. */
  datatype Posting = Posting(
    payment: Id, merchant: Id, currency: Currency, amount: int, debit: Account, credit: Account)

  /** What the environment supplies to one write: two ids, the clock, how many of the rows that other
      transactions end up committing first were committed already when this one summed the balance and when
      it looked up the previous hash (None: all of them), and which row wins when several tie for the latest
      created_at. */
  datatype Stamp = Stamp(debitId: Id, creditId: Id, now: int, seen: Option<nat>, seenByHash: Option<nat>, tie: nat)

  // ---------- reading ----------

  function OnAccount(merchant: Id, account: Account): Entry -> int {
    (e: Entry) => if e.merchant == merchant && e.account == account then e.Signed() else 0
  }

  /** The running balance, read back as a fold over the table. */
  function Balance(rows: seq<Entry>, merchant: Id, account: Account): int {
    SumBy(rows, OnAccount(merchant, account))
  }

  /** The rows a transaction sees: a prefix of what others committed, then its own (from index `own`). */
  function Visible(rows: seq<Entry>, own: nat, seen: Option<nat>): seq<Entry>
    requires own <= |rows|
  {
    match seen
    case None => rows
    case Some(n) => rows[..if n < own then n else own] + rows[own..]
  }

  /** Index of a merchant's row with the greatest created_at; `tie` chooses among equals. */
  function LatestIndex(rows: seq<Entry>, merchant: Id, tie: nat): Option<nat> {
    if rows == [] then None else
      var last := |rows| - 1;
      var best := LatestIndex(rows[..last], merchant, tie);
      if && rows[last].merchant == merchant
         && (best.None? || best.value >= last || rows[best.value].createdAt < rows[last].createdAt
             || (rows[best.value].createdAt == rows[last].createdAt && last == tie))
      then Some(last) else best
  }

  function PrevHashOf(rows: seq<Entry>, merchant: Id, tie: nat): string {
    match LatestIndex(rows, merchant, tie)
    case Some(i) => if i < |rows| then rows[i].hash else GENESIS
    case None => GENESIS
  }

  ghost predicate Latest(rows: seq<Entry>, merchant: Id, i: nat) {
    && i < |rows|
    && rows[i].merchant == merchant
    && forall j :: 0 <= j < |rows| && rows[j].merchant == merchant ==> rows[j].createdAt <= rows[i].createdAt
  }

  /** The row found is a latest one, and every latest row is found for some tie-break. */
  lemma {:induction false} LatestIndexCorrect(rows: seq<Entry>, merchant: Id, tie: nat)
    ensures match LatestIndex(rows, merchant, tie)
            case None => forall j :: 0 <= j < |rows| ==> rows[j].merchant != merchant
            case Some(i) => Latest(rows, merchant, i)
    ensures Latest(rows, merchant, tie) ==> LatestIndex(rows, merchant, tie) == Some(tie)
  {
    if rows != [] {
      var front := rows[..|rows| - 1];
      LatestIndexCorrect(front, merchant, tie);
      assert forall j :: 0 <= j < |front| ==> front[j] == rows[j];
      if Latest(rows, merchant, tie) && tie < |front| {
        assert Latest(front, merchant, tie);
      }
    }
  }

  // ---------- writing ----------

  predicate FreshIds(rows: seq<Entry>, stamp: Stamp) {
    && stamp.debitId != stamp.creditId
    && forall i :: 0 <= i < |rows| ==> rows[i].id != stamp.debitId && rows[i].id != stamp.creditId
  }

  /** The rows one write appends; both carry the credit account's earlier balance. */
  function Pair(cfg: Config, rows: seq<Entry>, own: nat, stamp: Stamp, p: Posting): (Entry, Entry)
    requires own <= |rows|
  {
    var before := Balance(Visible(rows, own, stamp.seen), p.merchant, p.credit);
    var prev := PrevHashOf(Visible(rows, own, stamp.seenByHash), p.merchant, stamp.tie);
    var debitHash := EntryHash(cfg.sha256, prev, Link(stamp.debitId, p.amount, stamp.now));
    var creditHash := EntryHash(cfg.sha256, debitHash, Link(stamp.creditId, p.amount, stamp.now));
    (Entry(stamp.debitId, p.payment, p.merchant, Debit, p.debit, stamp.creditId, p.amount, p.currency,
           before, before, debitHash, stamp.now),
     Entry(stamp.creditId, p.payment, p.merchant, Credit, p.credit, stamp.debitId, p.amount, p.currency,
           before, before + p.amount, creditHash, stamp.now))
  }

  predicate HasId(rows: seq<Entry>, id: Id) {
    exists i :: 0 <= i < |rows| && rows[i].id == id
  }

  /** INSERT: CHECK (amount > 0), the primary key, and, unless it is deferred, the foreign key of the
      reference, which the new row itself may satisfy. */
  function InsertEntry(cfg: Config, rows: seq<Entry>, e: Entry): Result<seq<Entry>> {
    if e.amount <= 0 || HasId(rows, e.id) then Err(Database)
    else if !cfg.deferredReference && !HasId(rows + [e], e.reference) then Err(Database)
    else Ok(rows + [e])
  }

  /** What a deferred foreign key leaves to the commit: the references of the transaction's own rows. */
  function CheckReferences(cfg: Config, rows: seq<Entry>, own: nat): Result<seq<Entry>> {
    if cfg.deferredReference && exists i :: own <= i < |rows| && !HasId(rows, rows[i].reference)
    then Err(Database) else Ok(rows)
  }

  /** The debit row first, then the credit row. */
  function WriteDoubleEntry(cfg: Config, rows: seq<Entry>, own: nat, stamp: Stamp, p: Posting): Result<seq<Entry>>
    requires own <= |rows|
  {
    var (debit, credit) := Pair(cfg, rows, own, stamp, p);
    var half :- InsertEntry(cfg, rows, debit);
    InsertEntry(cfg, half, credit)
  }

  /** A write succeeds if and only if the amount is positive, both ids are new, and the foreign key is
      deferred: checked at once, it misses the credit row that the debit row names. */
  lemma WriteOutcome(cfg: Config, rows: seq<Entry>, own: nat, stamp: Stamp, p: Posting)
    requires own <= |rows|
    ensures var (debit, credit) := Pair(cfg, rows, own, stamp, p);
            WriteDoubleEntry(cfg, rows, own, stamp, p)
            == if p.amount > 0 && cfg.deferredReference && FreshIds(rows, stamp) then Ok(rows + [debit] + [credit])
               else Err(Database)
  {
    var (debit, credit) := Pair(cfg, rows, own, stamp, p);
    var half := rows + [debit];
    IdAppended(rows, debit, stamp.creditId);
    assert FreshIds(rows, stamp) <==> !HasId(rows, stamp.debitId) && !HasId(half, stamp.creditId);
  }

  lemma IdAppended(rows: seq<Entry>, e: Entry, id: Id)
    ensures HasId(rows + [e], id) <==> HasId(rows, id) || e.id == id
  {
    if HasId(rows, id) {
      var i :| 0 <= i < |rows| && rows[i].id == id;
      assert (rows + [e])[i].id == id;
    }
    assert (rows + [e])[|rows|] == e;
  }

  /** Rows appended as a debit and a credit that name each other pass the check at the commit. */
  lemma WriteResolves(cfg: Config, rows: seq<Entry>, own: nat, stamp: Stamp, p: Posting, start: nat)
    requires own <= |rows| && start <= |rows| && CheckReferences(cfg, rows, start).Ok?
    requires WriteDoubleEntry(cfg, rows, own, stamp, p).Ok?
    ensures CheckReferences(cfg, WriteDoubleEntry(cfg, rows, own, stamp, p).value, start).Ok?
  {
    WriteOutcome(cfg, rows, own, stamp, p);
    var (debit, credit) := Pair(cfg, rows, own, stamp, p);
    var after := rows + [debit] + [credit];
    forall i | start <= i < |after| ensures HasId(after, after[i].reference) {
      if i < |rows| {
        assert HasId(rows, rows[i].reference);
        IdAppended(rows, debit, rows[i].reference);
        IdAppended(rows + [debit], credit, rows[i].reference);
      } else {
        assert after[|rows|] == debit && after[|rows| + 1] == credit;
      }
    }
  }

  function CapturePosting(payment: Payment): Posting {
    Posting(payment.id, payment.merchant, payment.currency, payment.Charged(), GatewayFloat, MerchantPayable)
  }

  function FeePosting(payment: Payment, fee: int): Posting {
    Posting(payment.id, payment.merchant, payment.currency, fee, MerchantPayable, FeeIncome)
  }

  function RefundPosting(payment: Id, merchant: Id, currency: Currency, amount: int): Posting {
    Posting(payment, merchant, currency, amount, MerchantPayable, GatewayFloat)
  }

  // ---------- what every ledger keeps ----------

  predicate PairAt(rows: seq<Entry>, i: nat)
    requires i + 1 < |rows|
  {
    var d, c := rows[i], rows[i + 1];
    && d.kind == Debit && c.kind == Credit
    && d.reference == c.id && c.reference == d.id
    && d.amount == c.amount && c.amount > 0
    && d.currency == c.currency && d.payment == c.payment && d.merchant == c.merchant
    && d.account != c.account
    && d.balanceBefore == d.balanceAfter == c.balanceBefore && c.balanceAfter == c.balanceBefore + c.amount
  }

  ghost predicate DistinctIds(rows: seq<Entry>) {
    forall i, j :: 0 <= i < j < |rows| ==> rows[i].id != rows[j].id
  }

  /** The table is a sequence of adjacent debit/credit pairs with distinct ids. */
  ghost predicate Paired(rows: seq<Entry>) {
    && |rows| % 2 == 0
    && (forall k :: 0 <= k < |rows| / 2 ==> PairAt(rows, 2 * k))
    && DistinctIds(rows)
  }

  /** Row i's hash was taken over its parent's: "genesis" for None, else an earlier row of the same
      merchant; a credit's parent is its own debit. */
  predicate ParentOf(sha256: string -> string, rows: seq<Entry>, i: nat, parent: Option<nat>)
    requires i < |rows|
  {
    match parent
    case None => rows[i].kind == Debit && rows[i].hash == EntryHash(sha256, GENESIS, rows[i].Link())
    case Some(j) =>
      && j < i && rows[j].merchant == rows[i].merchant
      && (rows[i].kind == Credit ==> j == i - 1)
      && rows[i].hash == EntryHash(sha256, rows[j].hash, rows[i].Link())
  }

  ghost predicate HasParent(sha256: string -> string, rows: seq<Entry>, i: nat)
    requires i < |rows|
  {
    exists parent :: ParentOf(sha256, rows, i, parent)
  }

  /** The hash links form a tree rooted at "genesis". */
  ghost predicate Chained(sha256: string -> string, rows: seq<Entry>) {
    forall i :: 0 <= i < |rows| ==> HasParent(sha256, rows, i)
  }

  /** The chain is a path of rows of one merchant that ends in row i. */
  ghost predicate ChainTo(rows: seq<Entry>, i: nat, chain: Chain)
    requires i < |rows|
  {
    && chain.Node?
    && chain.link == rows[i].Link()
    && (chain.parent == Root
        || exists j :: 0 <= j < i && rows[j].merchant == rows[i].merchant && ChainTo(rows, j, chain.parent))
  }

  ghost predicate LedgerOk(cfg: Config, rows: seq<Entry>) {
    Paired(rows) && Chained(cfg.sha256, rows)
  }

  lemma TwoMore(rows: seq<Entry>, debit: Entry, credit: Entry)
    ensures var after := rows + [debit] + [credit];
            && rows <= after && |after| == |rows| + 2 && after[..|rows|] == rows
            && after[|rows|] == debit && after[|rows| + 1] == credit
  {
  }

  lemma WrittenRows(cfg: Config, rows: seq<Entry>, own: nat, stamp: Stamp, p: Posting)
    requires own <= |rows|
    requires WriteDoubleEntry(cfg, rows, own, stamp, p).Ok?
    ensures var after := WriteDoubleEntry(cfg, rows, own, stamp, p).value;
            var (debit, credit) := Pair(cfg, rows, own, stamp, p);
            && rows <= after && |after| == |rows| + 2
            && after[|rows|] == debit && after[|rows| + 1] == credit
            && after[..|rows|] == rows
            && p.amount > 0 && cfg.deferredReference && FreshIds(rows, stamp)
  {
    WriteOutcome(cfg, rows, own, stamp, p);
    var (debit, credit) := Pair(cfg, rows, own, stamp, p);
    TwoMore(rows, debit, credit);
  }

  /** Any sum over the table grows by the two rows written. */
  lemma WrittenSum(cfg: Config, rows: seq<Entry>, own: nat, stamp: Stamp, p: Posting, f: Entry -> int)
    requires own <= |rows|
    requires WriteDoubleEntry(cfg, rows, own, stamp, p).Ok?
    ensures var (debit, credit) := Pair(cfg, rows, own, stamp, p);
            SumBy(WriteDoubleEntry(cfg, rows, own, stamp, p).value, f) == SumBy(rows, f) + f(debit) + f(credit)
  {
    WriteOutcome(cfg, rows, own, stamp, p);
    var (debit, credit) := Pair(cfg, rows, own, stamp, p);
    SumSnoc(rows, debit, f);
    SumSnoc(rows + [debit], credit, f);
  }

  /** Two rows that make a pair, with ids of their own. */
  lemma PairAppended(rows: seq<Entry>, debit: Entry, credit: Entry)
    requires Paired(rows) && PairAt([debit, credit], 0) && debit.id != credit.id
    requires forall i :: 0 <= i < |rows| ==> rows[i].id != debit.id && rows[i].id != credit.id
    ensures Paired(rows + [debit] + [credit])
  {
    var after, n := rows + [debit] + [credit], |rows|;
    TwoMore(rows, debit, credit);
    forall k | 0 <= k < |after| / 2 ensures PairAt(after, 2 * k) {
      if 2 * k == n {
        assert after[2 * k] == debit && after[2 * k + 1] == credit;
      } else {
        assert PairAt(rows, 2 * k);
        assert after[2 * k] == rows[2 * k] && after[2 * k + 1] == rows[2 * k + 1];
      }
    }
  }

  lemma WriteKeepsPaired(cfg: Config, rows: seq<Entry>, own: nat, stamp: Stamp, p: Posting)
    requires own <= |rows| && Paired(rows) && p.debit != p.credit
    requires WriteDoubleEntry(cfg, rows, own, stamp, p).Ok?
    ensures Paired(WriteDoubleEntry(cfg, rows, own, stamp, p).value)
  {
    WriteOutcome(cfg, rows, own, stamp, p);
    var (debit, credit) := Pair(cfg, rows, own, stamp, p);
    PairAppended(rows, debit, credit);
  }

  lemma ChainExtends(sha256: string -> string, rows: seq<Entry>, row: Entry, parent: Option<nat>)
    requires Chained(sha256, rows)
    requires ParentOf(sha256, rows + [row], |rows|, parent)
    ensures Chained(sha256, rows + [row])
  {
    var after := rows + [row];
    forall i | 0 <= i < |after| ensures HasParent(sha256, after, i) {
      if i < |rows| {
        assert HasParent(sha256, rows, i);
        var p :| ParentOf(sha256, rows, i, p);
        assert ParentOf(sha256, after, i, p);
      }
    }
  }

  lemma WriteKeepsChained(cfg: Config, rows: seq<Entry>, own: nat, stamp: Stamp, p: Posting)
    requires own <= |rows| && Chained(cfg.sha256, rows)
    requires WriteDoubleEntry(cfg, rows, own, stamp, p).Ok?
    ensures Chained(cfg.sha256, WriteDoubleEntry(cfg, rows, own, stamp, p).value)
  {
    WriteOutcome(cfg, rows, own, stamp, p);
    var visible := Visible(rows, own, stamp.seenByHash);
    var (debit, credit) := Pair(cfg, rows, own, stamp, p);
    LatestIndexCorrect(visible, p.merchant, stamp.tie);
    var parent := None;
    var latest := LatestIndex(visible, p.merchant, stamp.tie);
    if latest.Some? {
      assert visible[latest.value] in rows;
      var j :| 0 <= j < |rows| && rows[j] == visible[latest.value];
      parent := Some(j);
    }
    ChainExtends(cfg.sha256, rows, debit, parent);
    ChainExtends(cfg.sha256, rows + [debit], credit, Some(|rows|));
  }

  lemma WriteKeepsLedgerOk(cfg: Config, rows: seq<Entry>, own: nat, stamp: Stamp, p: Posting)
    requires own <= |rows| && LedgerOk(cfg, rows) && p.debit != p.credit
    requires WriteDoubleEntry(cfg, rows, own, stamp, p).Ok?
    ensures LedgerOk(cfg, WriteDoubleEntry(cfg, rows, own, stamp, p).value)
  {
    WriteKeepsPaired(cfg, rows, own, stamp, p);
    WriteKeepsChained(cfg, rows, own, stamp, p);
  }

  /** Every stored hash commits to a whole path of rows back to "genesis". */
  lemma {:induction false} HashCommitsToPath(sha256: string -> string, rows: seq<Entry>, i: nat) returns (chain: Chain)
    requires Chained(sha256, rows) && i < |rows|
    ensures CommitsTo(sha256, rows, i, chain)
    decreases i
  {
    assert HasParent(sha256, rows, i);
    var parent :| ParentOf(sha256, rows, i, parent);
    match parent
    case None =>
      chain := Node(Root, rows[i].Link());
    case Some(j) =>
      var path := HashCommitsToPath(sha256, rows, j);
      chain := Node(path, rows[i].Link());
  }

  // ---------- what a hash covers ----------

  /** The row's hash is that of a path of rows back to "genesis": their ids, amounts and seconds. */
  ghost predicate CommitsTo(sha256: string -> string, rows: seq<Entry>, i: nat, chain: Chain)
    requires i < |rows|
  {
    ChainTo(rows, i, chain) && ChainHash(sha256, chain) == rows[i].hash
  }

  /** Two rows of any two tables have equal hashes if and only if ids, amounts and seconds agree along their
      paths; otherwise two strings hashed along the paths collide, and these are they. */
  lemma HashExact(
    sha256: string -> string, one: seq<Entry>, i: nat, p: Chain, two: seq<Entry>, j: nat, q: Chain)
    returns (x: string, y: string)
    requires HexDigests(sha256) && p.Encodable() && q.Encodable()
    requires i < |one| && CommitsTo(sha256, one, i, p) && j < |two| && CommitsTo(sha256, two, j, q)
    ensures p == q ==> one[i].hash == two[j].hash
    ensures one[i].hash == two[j].hash && p != q ==>
              x in Preimages(sha256, p) && y in Preimages(sha256, q) && Collide(sha256, x, y)
  {
    x, y := "", "";
    if one[i].hash == two[j].hash {
      x, y := TamperEvident(sha256, p, q);
    }
  }

  /** The row with its uncovered columns overwritten. */
  predicate Uncovered(row: Entry, edited: Entry) {
    && edited.id == row.id && edited.amount == row.amount && edited.createdAt == row.createdAt
    && edited.hash == row.hash && edited.kind == row.kind
  }

  /** Rows whose payment, account, reference, currency or balances are overwritten, or whose merchants are
      renamed, pass the check of the hashes exactly when they did before. */
  lemma EditUnnoticed(sha256: string -> string, rows: seq<Entry>, edited: seq<Entry>)
    requires |edited| == |rows| && forall i :: 0 <= i < |rows| ==> Uncovered(rows[i], edited[i])
    requires forall i, j :: 0 <= i < j < |rows| ==>
               (edited[i].merchant == edited[j].merchant <==> rows[i].merchant == rows[j].merchant)
    ensures Chained(sha256, edited) <==> Chained(sha256, rows)
  {
    forall i, parent: Option<nat> | 0 <= i < |rows|
      ensures ParentOf(sha256, edited, i, parent) <==> ParentOf(sha256, rows, i, parent)
    {
      assert Uncovered(rows[i], edited[i]);
      if parent.Some? && parent.value < i {
        assert Uncovered(rows[parent.value], edited[parent.value]);
      }
    }
    assert forall i :: 0 <= i < |rows| ==> (HasParent(sha256, edited, i) <==> HasParent(sha256, rows, i));
  }

  // ---------- what pairing gives ----------

  /** The row that a row's reference column names. */
  function Partner(i: nat): nat {
    if i % 2 == 0 then i + 1 else i - 1
  }

  /** reference_entry_id is an involution between debits and credits of one movement. */
  lemma ReferenceInvolution(rows: seq<Entry>, i: nat)
    requires Paired(rows) && i < |rows|
    ensures var j := Partner(i);
            && j < |rows| && Partner(j) == i && i != j
            && rows[i].reference == rows[j].id && rows[j].reference == rows[i].id
            && rows[i].kind != rows[j].kind && rows[i].account != rows[j].account
            && rows[i].amount == rows[j].amount && rows[i].currency == rows[j].currency
            && rows[i].payment == rows[j].payment && rows[i].merchant == rows[j].merchant
    ensures forall k :: 0 <= k < |rows| && rows[k].id == rows[i].reference ==> k == Partner(i)
  {
    assert PairAt(rows, 2 * (i / 2));
  }

  function KindIn(kind: EntryType, group: (Id, Id, Currency) -> bool): Entry -> int {
    (e: Entry) => if e.kind == kind && group(e.merchant, e.payment, e.currency) then e.amount else 0
  }

  /** Debits equal credits in any group of merchants, payments and currencies. */
  lemma {:induction false} DebitsEqualCredits(rows: seq<Entry>, group: (Id, Id, Currency) -> bool)
    requires Paired(rows)
    ensures SumBy(rows, KindIn(Debit, group)) == SumBy(rows, KindIn(Credit, group))
  {
    if rows != [] {
      var n := |rows| - 2;
      var front := rows[..n];
      assert PairAt(rows, 2 * (n / 2));
      assert Paired(front) by {
        forall k | 0 <= k < |front| / 2 ensures PairAt(front, 2 * k) {
          assert PairAt(rows, 2 * k);
        }
      }
      DebitsEqualCredits(front, group);
      assert rows == front + [rows[n]] + [rows[n + 1]];
      SumSnoc(front, rows[n], KindIn(Debit, group));
      SumSnoc(front + [rows[n]], rows[n + 1], KindIn(Debit, group));
      SumSnoc(front, rows[n], KindIn(Credit, group));
      SumSnoc(front + [rows[n]], rows[n + 1], KindIn(Credit, group));
    }
  }

  /** The stored running balance is exact if and only if the commits this write did not see, up to
      its own rows, cancel out on the credited account. */
  lemma RunningBalanceExact(cfg: Config, rows: seq<Entry>, own: nat, stamp: Stamp, p: Posting)
    requires own <= |rows|
    ensures var (_, credit) := Pair(cfg, rows, own, stamp, p);
            credit.balanceBefore == Balance(rows, p.merchant, p.credit) <==>
            (stamp.seen.None? || stamp.seen.value >= own
             || Balance(rows[stamp.seen.value..own], p.merchant, p.credit) == 0)
  {
    if stamp.seen.Some? {
      var n := if stamp.seen.value < own then stamp.seen.value else own;
      var f := OnAccount(p.merchant, p.credit);
      assert rows == rows[..n] + rows[n..own] + rows[own..];
      SumAppend(rows[..n] + rows[n..own], rows[own..], f);
      SumAppend(rows[..n], rows[n..own], f);
      SumAppend(rows[..n], rows[own..], f);
      if stamp.seen.value >= own {
        assert rows[n..own] == [];
      }
    }
  }
}
