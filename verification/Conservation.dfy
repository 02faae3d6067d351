/**
 Conservation of money through reversals: a stake or a prize and everything that transitively
 reverses it nets to itself or to nothing, and a balance is the sum of those nets.
 */
module Conservation {
  import opened Basics
  import opened Wallets
  import opened Wagering
  import opened Database
  import opened Invariants
  import opened Audit
  import opened Sums

  // ---- references go back in time ----

  /** Each transaction of the path has moved money and refers to the next. */
  ghost predicate ReferencePath(db: DB, path: seq<Uuid>) {
    && (forall i :: 0 <= i < |path| ==> path[i] in db.txs && MovesMoney(db.txs[path[i]]))
    && (forall i :: 0 < i < |path| ==> db.txs[path[i - 1]].referenceId == Some(path[i]))
  }

  /** Where the ledger entry of a transaction is. */
  ghost function Position(ledger: seq<LedgerRecord>, id: Uuid): (k: nat)
    requires HasEntry(ledger, id)
    ensures k < |ledger| && ledger[k].entry.transactionId == id
  {
    var k :| 0 <= k < |ledger| && ledger[k].entry.transactionId == id;
    k
  }

  lemma ReferenceIsEarlier(db: DB, id: Uuid)
    requires EntriesDistinct(db.ledger) && EntriesComplete(db.txs, db.ledger) && ReferencesPrecede(db.txs, db.ledger)
    requires id in db.txs && MovesMoney(db.txs[id]) && db.txs[id].referenceId.Some?
    ensures HasEntry(db.ledger, id) && HasEntry(db.ledger, db.txs[id].referenceId.value)
    ensures Position(db.ledger, db.txs[id].referenceId.value) < Position(db.ledger, id)
  {
    var k, r := Position(db.ledger, id), db.txs[id].referenceId.value;
    assert HasEntry(db.ledger[..k], r);
    var j :| 0 <= j < k && db.ledger[..k][j].entry.transactionId == r;
    assert db.ledger[j].entry.transactionId == r;
    var p := Position(db.ledger, r);
    assert p == j;
  }

  lemma {:induction false} PathGoesBack(db: DB, path: seq<Uuid>, i: nat, j: nat)
    requires EntriesDistinct(db.ledger) && EntriesComplete(db.txs, db.ledger) && ReferencesPrecede(db.txs, db.ledger)
    requires ReferencePath(db, path) && i < j < |path|
    ensures HasEntry(db.ledger, path[i]) && HasEntry(db.ledger, path[j])
    ensures Position(db.ledger, path[j]) + (j - i) <= Position(db.ledger, path[i])
    decreases j
  {
    assert MovesMoney(db.txs[path[j - 1]]) && db.txs[path[j - 1]].referenceId == Some(path[j]);
    ReferenceIsEarlier(db, path[j - 1]);
    if i < j - 1 {
      PathGoesBack(db, path, i, j - 1);
    }
  }

  /** Following resolved references never comes back, and ends: they are well-founded. */
  lemma ReferencesAreWellFounded(db: DB, path: seq<Uuid>)
    requires DbInv(db) && ReferencePath(db, path)
    ensures |path| <= |db.ledger|
    ensures forall i, j :: 0 <= i < j < |path| ==> path[i] != path[j]
  {
    hide TablesOk, EventsOk, InboxOk, NothingWithoutWallet, LedgersOk, EntriesOk;
    if |path| >= 2 {
      PathGoesBack(db, path, 0, |path| - 1);
    } else if |path| == 1 {
      assert HasEntry(db.ledger, path[0]);
    }
    forall i, j | 0 <= i < j < |path| ensures path[i] != path[j] {
      PathGoesBack(db, path, i, j);
    }
  }

  // ---- chains of reversals ----

  ghost predicate ChainsOk(txs: map<Uuid, TxRow>) {
    && ReferencesOk(txs) && ReversalsUnique(txs)
    && (forall id :: id in txs ==> txs[id].id == id && txs[id].req.money.valid)
  }

  lemma TablesHaveChains(db: DB)
    requires TablesOk(db)
    ensures ChainsOk(db.txs)
  {
    forall id | id in db.txs ensures db.txs[id].id == id && db.txs[id].req.money.valid {
      assert RowOk(id, db.txs[id]);
    }
  }

  ghost function ReversalOf(txs: map<Uuid, TxRow>, id: Uuid): (r: Uuid)
    requires HasProcessedReversal(txs, id)
    ensures r in txs && IsProcessedReversalOf(txs[r], id)
  {
    var r :| r in txs && IsProcessedReversalOf(txs[r], id);
    r
  }

  /** A transaction is reversed by one of a lower level, so chains have at most three members. */
  function Level(kind: Kind): nat {
    match kind
    case Rollback => 0
    case Refund => 1
    case _ => 2
  }

  lemma ReversalIsSound(txs: map<Uuid, TxRow>, id: Uuid)
    requires ChainsOk(txs) && HasProcessedReversal(txs, id)
    ensures var r := ReversalOf(txs, id);
            && id in txs && SoundRow(txs[r], txs[id]) && MovesMoney(txs[id]) && MovesMoney(txs[r])
            && Level(txs[r].req.kind) < Level(txs[id].req.kind)
            && txs[r].req.money.minor == txs[id].req.money.minor
  {
    assert ReferenceOk(txs, txs[ReversalOf(txs, id)]);
  }

  /** What one transaction does to its wallet's balance. */
  ghost function Effect(txs: map<Uuid, TxRow>, id: Uuid): int {
    if id !in txs || !MovesMoney(txs[id]) then 0
    else if RowDirection(txs, txs[id]) == Credit then txs[id].req.money.minor
    else 0 - txs[id].req.money.minor
  }

  /** What a transaction does together with everything that transitively reverses it. */
  ghost function Net(txs: map<Uuid, TxRow>, id: Uuid): int
    requires ChainsOk(txs)
    decreases if id in txs then Level(txs[id].req.kind) + 1 else 0
  {
    if id !in txs then 0
    else if HasProcessedReversal(txs, id) then
      ReversalIsSound(txs, id);
      Effect(txs, id) + Net(txs, ReversalOf(txs, id))
    else Effect(txs, id)
  }

  /** The reversal of a transaction is undone when it has been reversed itself. */
  ghost predicate Returned(txs: map<Uuid, TxRow>, id: Uuid) {
    HasProcessedReversal(txs, id) && !HasProcessedReversal(txs, ReversalOf(txs, id))
  }

  lemma RollbacksAreFinal(txs: map<Uuid, TxRow>, id: Uuid)
    requires ChainsOk(txs) && id in txs && txs[id].req.kind.Rollback?
    ensures !HasProcessedReversal(txs, id)
  {
    if HasProcessedReversal(txs, id) {
      ReversalIsSound(txs, id);
    }
  }

  lemma ReversalNets(txs: map<Uuid, TxRow>, id: Uuid)
    requires ChainsOk(txs) && HasProcessedReversal(txs, id)
    requires txs[ReversalOf(txs, id)].referenceId == Some(id)
    ensures var r := ReversalOf(txs, id);
            id in txs && Effect(txs, r) == 0 - Effect(txs, id)
  {
    ReversalIsSound(txs, id);
    var r := ReversalOf(txs, id);
    assert txs[r].referenceId.value == id;
    if txs[id].req.kind.Refund? {
      assert ReferenceOk(txs, txs[id]);
    }
  }

  /**
   A processed bet and everything that reverses it, directly or not, costs exactly its stake, or nothing
   when a reversal stands; a processed win pays exactly its prize, or nothing when it was rolled back.
   No stake is returned twice and no prize is taken back twice.
   */
  lemma ChainNets(txs: map<Uuid, TxRow>, id: Uuid)
    requires ChainsOk(txs) && id in txs && MovesMoney(txs[id])
    ensures var a := txs[id].req.money.minor;
            && (txs[id].req.kind.Bet? ==> Net(txs, id) == if Returned(txs, id) then 0 else 0 - a)
            && (txs[id].req.kind.Win? ==> Net(txs, id) == if HasProcessedReversal(txs, id) then 0 else a)
            && (txs[id].req.kind.Opening? ==> Net(txs, id) == a)
  {
    if HasProcessedReversal(txs, id) {
      ReversalIsSound(txs, id);
      ReversalNets(txs, id);
      var r := ReversalOf(txs, id);
      if txs[r].req.kind.Rollback? {
        RollbacksAreFinal(txs, r);
      } else if HasProcessedReversal(txs, r) {
        ReversalIsSound(txs, r);
        ReversalNets(txs, r);
        RollbacksAreFinal(txs, ReversalOf(txs, r));
        NetUnfolds(txs, r);
        NetUnfolds(txs, ReversalOf(txs, r));
      }
    }
  }

  // ---- balances ----

  /** The transactions that moved a wallet's money. */
  ghost function Movements(txs: map<Uuid, TxRow>, walletId: Uuid): set<Uuid> {
    set id | id in txs && MovesMoney(txs[id]) && txs[id].req.walletId == walletId
  }

  /** The opening, the bets and the wins of a wallet: where chains start. */
  ghost function Roots(txs: map<Uuid, TxRow>, walletId: Uuid): set<Uuid> {
    set id | id in Movements(txs, walletId) && !txs[id].req.kind.IsReversal()
  }

  ghost function Reversals(txs: map<Uuid, TxRow>, walletId: Uuid): set<Uuid> {
    set id | id in Movements(txs, walletId) && txs[id].req.kind.IsReversal()
  }

  ghost function Reversed(txs: map<Uuid, TxRow>, walletId: Uuid): set<Uuid> {
    set id | id in Movements(txs, walletId) && HasProcessedReversal(txs, id)
  }

  ghost function Effects(txs: map<Uuid, TxRow>): Uuid -> int {
    (id: Uuid) => Effect(txs, id)
  }

  ghost function Nets(txs: map<Uuid, TxRow>): Uuid -> int
    requires ChainsOk(txs)
  {
    (id: Uuid) => Net(txs, id)
  }

  ghost function ReversalMap(txs: map<Uuid, TxRow>): Uuid -> Uuid {
    (id: Uuid) => if HasProcessedReversal(txs, id) then ReversalOf(txs, id) else NIL
  }

  /** Reversed transactions and reversals of a wallet correspond one to one. */
  lemma ReversalsPairUp(txs: map<Uuid, TxRow>, walletId: Uuid)
    requires ChainsOk(txs)
    ensures OneToOne(Reversed(txs, walletId), Reversals(txs, walletId), ReversalMap(txs))
  {
    var a, b, m := Reversed(txs, walletId), Reversals(txs, walletId), ReversalMap(txs);
    forall x | x in a ensures m(x) in b {
      ReversalIsSound(txs, x);
    }
    forall x, y | x in a && y in a && m(x) == m(y) ensures x == y {
      assert txs[m(x)].referenceId == Some(x) && txs[m(y)].referenceId == Some(y);
    }
    forall y | y in b ensures Reaches(a, m, y) {
      assert ReferenceOk(txs, txs[y]);
      var x := txs[y].referenceId.value;
      assert IsProcessedReversalOf(txs[y], x);
      assert HasProcessedReversal(txs, x);
      ReversalIsSound(txs, x);
      assert IsProcessedReversalOf(txs[m(x)], x);
      assert m(x) == y;
      assert x in a;
    }
  }

  /** The nets of the chains add up to the effects of all their members. */
  lemma NetsAddUp(txs: map<Uuid, TxRow>, walletId: Uuid)
    requires ChainsOk(txs)
    ensures Sum(Movements(txs, walletId), Effects(txs)) == Sum(Roots(txs, walletId), Nets(txs))
  {
    hide Sum, OneToOne, Net, Effect, ChainsOk, HasProcessedReversal;
    var s, roots, revs, revd := Movements(txs, walletId), Roots(txs, walletId), Reversals(txs, walletId), Reversed(txs, walletId);
    var tails := Along(Nets(txs), ReversalMap(txs));
    ReversalsPairUp(txs, walletId);
    SumAlongMap(revd, revs, Nets(txs), ReversalMap(txs));
    assert s == (s - revd) + revd;
    SumSplits(s - revd, revd, Nets(txs));
    SumSplits(s - revd, revd, Effects(txs));
    forall x | x in s - revd ensures Nets(txs)(x) == Effects(txs)(x) {
      NetUnfolds(txs, x);
    }
    SumAgrees(s - revd, Nets(txs), Effects(txs));
    forall x | x in revd ensures Effects(txs)(x) == Minus(Nets(txs), tails)(x) {
      NetUnfolds(txs, x);
    }
    SumAgrees(revd, Effects(txs), Minus(Nets(txs), tails));
    SumOfDifference(revd, Nets(txs), tails);
    assert s == roots + revs;
    SumSplits(roots, revs, Nets(txs));
  }

  lemma NetUnfolds(txs: map<Uuid, TxRow>, id: Uuid)
    requires ChainsOk(txs) && id in txs
    ensures HasProcessedReversal(txs, id) ==> Effect(txs, id) == Net(txs, id) - Net(txs, ReversalOf(txs, id))
    ensures !HasProcessedReversal(txs, id) ==> Effect(txs, id) == Net(txs, id)
  {
    hide Effect, ChainsOk, HasProcessedReversal;
  }

  /** The transactions with an entry of the wallet. */
  ghost function Entered(ledger: seq<LedgerRecord>, walletId: Uuid): set<Uuid> {
    if ledger == [] then {}
    else
      var e := ledger[|ledger| - 1].entry;
      Entered(ledger[..|ledger| - 1], walletId) + (if e.walletId == walletId then {e.transactionId} else {})
  }

  lemma {:induction false} EnteredMeans(ledger: seq<LedgerRecord>, walletId: Uuid, id: Uuid)
    ensures id in Entered(ledger, walletId) <==>
            exists k :: 0 <= k < |ledger| && ledger[k].entry.walletId == walletId && ledger[k].entry.transactionId == id
  {
    if ledger != [] {
      var n := |ledger| - 1;
      EnteredMeans(ledger[..n], walletId, id);
      if id in Entered(ledger[..n], walletId) {
        var k :| 0 <= k < n && ledger[..n][k].entry.walletId == walletId && ledger[..n][k].entry.transactionId == id;
        assert ledger[k].entry.walletId == walletId && ledger[k].entry.transactionId == id;
      }
      if exists k :: 0 <= k < |ledger| && ledger[k].entry.walletId == walletId && ledger[k].entry.transactionId == id {
        var k :| 0 <= k < |ledger| && ledger[k].entry.walletId == walletId && ledger[k].entry.transactionId == id;
        if k < n {
          assert ledger[..n][k].entry.walletId == walletId && ledger[..n][k].entry.transactionId == id;
        }
      }
    }
  }

  /** Entries have the effects f, and no transaction has two. */
  ghost predicate EntriesHaveEffects(ledger: seq<LedgerRecord>, f: Uuid -> int) {
    && (forall k :: 0 <= k < |ledger| ==> ledger[k].entry.Signed() == f(ledger[k].entry.transactionId))
    && (forall i, j :: 0 <= i < j < |ledger| ==> ledger[i].entry.transactionId != ledger[j].entry.transactionId)
  }

  lemma SummedStep(rows: seq<LedgerRecord>, rec: LedgerRecord)
    ensures var t, t' := Summed(rows), Summed(rows + [rec]);
            t'.credits - t'.debits == t.credits - t.debits + rec.entry.Signed()
    ensures Summed(rows + []) == Summed(rows)
  {
    assert (rows + [rec])[..|rows|] == rows && rows + [] == rows;
  }

  lemma OfWalletLast(ledger: seq<LedgerRecord>, walletId: Uuid)
    requires ledger != []
    ensures var front, last := ledger[..|ledger| - 1], ledger[|ledger| - 1];
            && OfWallet(ledger, walletId) == OfWallet(front, walletId) + (if last.entry.walletId == walletId then [last] else [])
            && Entered(ledger, walletId) == Entered(front, walletId) + (if last.entry.walletId == walletId then {last.entry.transactionId} else {})
  {}

  /** Credits minus debits of a wallet's entries is the sum of the effects of the transactions entered. */
  lemma {:induction false} EntriesAddUp(ledger: seq<LedgerRecord>, walletId: Uuid, f: Uuid -> int)
    requires EntriesHaveEffects(ledger, f)
    ensures var t := Summed(OfWallet(ledger, walletId));
            t.credits - t.debits == Sum(Entered(ledger, walletId), f)
  {
    if ledger == [] {
      SumOfNothing(f);
    } else {
      var n := |ledger| - 1;
      assert EntriesHaveEffects(ledger[..n], f);
      EntriesAddUp(ledger[..n], walletId, f);
      OneEntryMore(ledger, walletId, f);
    }
  }

  lemma OneEntryMore(ledger: seq<LedgerRecord>, walletId: Uuid, f: Uuid -> int)
    requires ledger != [] && EntriesHaveEffects(ledger, f)
    requires var t := Summed(OfWallet(ledger[..|ledger| - 1], walletId));
             t.credits - t.debits == Sum(Entered(ledger[..|ledger| - 1], walletId), f)
    ensures var t := Summed(OfWallet(ledger, walletId));
            t.credits - t.debits == Sum(Entered(ledger, walletId), f)
  {
    hide Sum, OfWallet, Entered, Summed;
    var n := |ledger| - 1;
    var front, last := ledger[..n], ledger[n];
    OfWalletLast(ledger, walletId);
    SummedStep(OfWallet(front, walletId), last);
    EnteredMeans(front, walletId, last.entry.transactionId);
    if last.entry.walletId == walletId {
      SumPutIn(Entered(front, walletId), f, last.entry.transactionId);
    } else {
      assert Entered(front, walletId) + {} == Entered(front, walletId);
    }
  }

  lemma EntriesEffect(txs: map<Uuid, TxRow>, ledger: seq<LedgerRecord>)
    requires EntriesOk(txs, ledger) && EntriesDistinct(ledger)
    ensures EntriesHaveEffects(ledger, Effects(txs))
  {
    hide WellFormedEntry, RowDirection;
    forall k | 0 <= k < |ledger| ensures ledger[k].entry.Signed() == Effects(txs)(ledger[k].entry.transactionId) {
      assert EntryOk(txs, ledger[k].entry);
    }
  }

  lemma EnteredAreMovements(db: DB, walletId: Uuid)
    requires EntriesOk(db.txs, db.ledger) && EntriesComplete(db.txs, db.ledger)
    ensures Entered(db.ledger, walletId) == Movements(db.txs, walletId)
  {
    forall id ensures id in Entered(db.ledger, walletId) <==> id in Movements(db.txs, walletId) {
      EnteredMeans(db.ledger, walletId, id);
      if id in Movements(db.txs, walletId) {
        assert HasEntry(db.ledger, id);
        var k := Position(db.ledger, id);
        assert EntryOk(db.txs, db.ledger[k].entry);
        assert db.ledger[k].entry.walletId == walletId;
      }
      if id in Entered(db.ledger, walletId) {
        var k :| 0 <= k < |db.ledger| && db.ledger[k].entry.walletId == walletId && db.ledger[k].entry.transactionId == id;
        assert EntryOk(db.txs, db.ledger[k].entry);
      }
    }
  }

  /**
   The balance of a wallet is what it was opened with, plus the net of every chain: minus the stake of
   each bet that was not returned, plus the prize of each win that was not taken back.
   */
  lemma BalanceIsSumOfChains(db: DB, id: Uuid)
    requires DbInv(db) && id in db.wallets
    ensures ChainsOk(db.txs)
    ensures db.wallets[id].balance.minor == Sum(Roots(db.txs, id), Nets(db.txs))
    ensures forall r :: r in Roots(db.txs, id) ==>
                          (db.txs[r].req.kind.Opening? || db.txs[r].req.kind.Bet? || db.txs[r].req.kind.Win?)
                          && Net(db.txs, r) == (if db.txs[r].req.kind.Bet? then
                                                  if Returned(db.txs, r) then 0 else 0 - db.txs[r].req.money.minor
                                                else if HasProcessedReversal(db.txs, r) then 0
                                                else db.txs[r].req.money.minor)
  {
    hide EventsOk, InboxOk, NothingWithoutWallet, TablesOk, ReferencesPrecede, LedgersOk, Sum, Net, EntriesOk,
      EntriesDistinct, EntriesComplete, HasProcessedReversal, Returned, Summed;
    TablesHaveChains(db);
    TotalsAreBalance(db, id);
    EntriesEffect(db.txs, db.ledger);
    EntriesAddUp(db.ledger, id, Effects(db.txs));
    EnteredAreMovements(db, id);
    NetsAddUp(db.txs, id);
    forall r | r in Roots(db.txs, id)
      ensures (db.txs[r].req.kind.Opening? || db.txs[r].req.kind.Bet? || db.txs[r].req.kind.Win?)
              && Net(db.txs, r) == (if db.txs[r].req.kind.Bet? then
                                      if Returned(db.txs, r) then 0 else 0 - db.txs[r].req.money.minor
                                    else if HasProcessedReversal(db.txs, r) then 0
                                    else db.txs[r].req.money.minor)
    {
      ChainNets(db.txs, r);
      if db.txs[r].req.kind.Opening? {
        OpeningsStand(db.txs, r);
      }
    }
  }

  lemma OpeningsStand(txs: map<Uuid, TxRow>, id: Uuid)
    requires ChainsOk(txs) && id in txs && txs[id].req.kind.Opening?
    ensures !HasProcessedReversal(txs, id)
  {
    if HasProcessedReversal(txs, id) {
      ReversalIsSound(txs, id);
    }
  }

  lemma TotalsAreBalance(db: DB, id: Uuid)
    requires EntriesOk(db.txs, db.ledger) && LedgersOk(db) && id in db.wallets
    ensures var t := Summed(OfWallet(db.ledger, id));
            t.credits - t.debits == db.wallets[id].balance.minor
  {
    hide EntryOk, OfWallet, EntriesOk;
    EntriesAreWellFormed(db.txs, db.ledger, id);
    assert WalletLedgerOk(db.txs, OfWallet(db.ledger, id), db.wallets[id]);
    TotalsTelescope(OfWallet(db.ledger, id));
  }
}
