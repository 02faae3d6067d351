/**
 Complete runs that show where the promises end: a rollback that looks for a win of another wallet just
 before that win is committed, a replay that names another currency than the first answer, a wallet whose
 lifetime totals no longer fit int64, and a refund that can no longer be paid.
 */
module Scenarios {
  import opened Basics
  import opened Moneys
  import opened Wallets
  import opened Wagering
  import opened Rules
  import opened Database
  import opened Invariants
  import opened UseCases
  import opened Commit
  import opened Engine
  import opened Processes
  import opened Worlds
  import opened Serial
  import opened Replays
  import opened RunBuilder
  import opened Audit
  import opened Outcomes
  import opened Stuck
  import opened Worker
  import PayloadHash

  // ---- a rollback overtaken by its reference ----

  function Bare(id: Uuid, playerId: Uuid): WalletState {
    WalletState(id, playerId, "BRL", Money(0, "BRL", true), 1)
  }

  /** A win of player 2 in wallet 11. */
  const WIN: Command := Command(ExternalRequest("p", "w", 2, 11, "r", "g", Win, Money(500, "BRL", true), ""), "k", "c")

  /** A rollback of that win, addressed to wallet 10 of player 1. */
  const ROLLBACK: Command := Command(ExternalRequest("p", "b", 1, 10, "r", "g", Rollback, Money(500, "BRL", true), "w"), "l", "c")

  lemma BothValid()
    ensures NewTx(WIN, 200).Ok? && NewTx(ROLLBACK, 100).Ok?
  {
    hide PayloadHash.Preimage, ValidIdentifier;
    OneLetter("p");
    OneLetter("w");
    OneLetter("b");
    OneLetter("r");
    OneLetter("g");
    OneLetter("k");
    OneLetter("l");
  }

  lemma TwoWallets(cfg: Config) returns (r: Run)
    ensures Proper(cfg, r) && Last(r).procs == map[] && Below(Last(r).used, 100)
    ensures Last(r).db == EMPTY.(wallets := map[10 := Bare(10, 1), 11 := Bare(11, 2)])
  {
    var start := Begin(cfg);
    var one := OpenBare(cfg, start, 0, Bare(10, 1), 20);
    r := OpenBare(cfg, one, 0, Bare(11, 2), 40);
  }

  /** A rollback whose reference is missing waits. */
  lemma RollbackWaits(cfg: Config, b: Body)
    requires cfg.maxAttempts > 0 && b.tx.req == ROLLBACK.req && b.tx.status.Pending? && b.tx.attempts == 0
    requires b.base == Bare(10, 1)
    ensures ReadsReference(b.tx, b.base)
    ensures var r := Decide(b.tx, b.base, None, false, b.ids.entry, b.now, cfg);
            r.Ok? && r.value.tx.status.PendingReference? && SameIdentity(b.tx, r.value.tx)
  {}

  /** A rollback of another wallet's win is refused. */
  lemma RollbackIsRefused(cfg: Config, b: Body, ref: Snapshot, reversed: bool)
    requires b.tx.req == ROLLBACK.req && b.tx.status.Pending? && b.base == Bare(10, 1)
    requires ref.req == WIN.req && ref.status.Processed?
    ensures var r := Decide(b.tx, b.base, Some(ref), reversed, b.ids.entry, b.now, cfg);
            r.Ok? && r.value.tx.status.Rejected? && r.value.tx.failure == ReferenceMismatch
  {}

  lemma WinIsPaid(cfg: Config, b: Body)
    requires b.tx.req == WIN.req && b.tx.status.Pending? && b.tx.id != NIL && b.ids.entry != NIL && b.base == Bare(11, 2)
    ensures !ReadsReference(b.tx, b.base)
    ensures var r := Decide(b.tx, b.base, None, false, b.ids.entry, b.now, cfg);
            r.Ok? && r.value.tx.status.Processed? && SameIdentity(b.tx, r.value.tx)
  {
    CreditOutcome(b.base, b.ids.entry, b.tx.id, b.tx.req.money);
  }

  function WinBody(): Body {
    Body(Some(Ctx(Http(1), WIN, None)), Snapshot(200, External, WIN.req, "k", PayloadHash.Preimage(WIN.req), "c",
         None, Pending, NoFailure, None, 0, None, None), Bare(11, 2), From(200), 0)
  }

  function RollbackBody(): Body {
    Body(Some(Ctx(Http(1), ROLLBACK, None)), Snapshot(100, External, ROLLBACK.req, "l", PayloadHash.Preimage(ROLLBACK.req), "c",
         None, Pending, NoFailure, None, 0, None, None), Bare(10, 1), From(100), 0)
  }

  lemma BodiesAre()
    ensures NewTx(WIN, 200) == Ok(WinBody().tx) && NewTx(ROLLBACK, 100) == Ok(RollbackBody().tx)
  {
    hide ValidIdentifier, ValidRequest, PayloadHash.Preimage;
    BothValid();
  }

  /** The rollback asks for the win before there is one. */
  lemma RollbackReads(cfg: Config, r: Run) returns (read: Run, r': Run)
    requires cfg.maxAttempts > 0
    requires Proper(cfg, r) && Last(r).procs == map[] && Below(Last(r).used, 100)
    requires Last(r).db == EMPTY.(wallets := map[10 := Bare(10, 1), 11 := Bare(11, 2)])
    ensures Proper(cfg, read) && Last(read).procs == map[1 := ReadingReference(RollbackBody())]
    ensures Proper(cfg, r') && Continues(read, r') && |r'.actions| == |read.actions| + 1
    ensures Last(r').db == Last(r).db && Last(r').procs.Keys == {1} && Below(Last(r').used, 200)
    ensures DecidedAlone(cfg, Last(r'), 1, RollbackBody()) && Last(r').procs[1].at == 0
  {
    hide IsRun, Decide, PayloadHash.Preimage, NewTx, IsWriting;
    BodiesAre();
    read := Enter(cfg, r, 1, ROLLBACK, 100);
    RollbackWaits(cfg, RollbackBody());
    r' := DecideAlone(cfg, read, 1, RollbackBody(), 104);
  }

  /** Meanwhile the win locks the other wallet. */
  lemma WinDecides(cfg: Config, r: Run) returns (r': Run)
    requires Proper(cfg, r) && Last(r).procs.Keys == {1} && Below(Last(r).used, 200)
    requires Last(r).db == EMPTY.(wallets := map[10 := Bare(10, 1), 11 := Bare(11, 2)])
    requires DecidedAlone(cfg, Last(r), 1, RollbackBody()) && Last(r).procs[1].at == 0
    ensures Proper(cfg, r') && Continues(r, r') && Below(Last(r').used, 204) && Last(r').db == Last(r).db
    ensures Last(r').procs.Keys == {1, 2} && Last(r').procs[1] == Last(r).procs[1]
    ensures DecidedAlone(cfg, Last(r'), 2, WinBody())
  {
    hide IsRun, Decide, PayloadHash.Preimage, NewTx, BodyStatements, Below, IsWriting;
    BodiesAre();
    FreshWriterHolds(Last(r), 1);
    var r1 := Enter(cfg, r, 2, WIN, 200);
    WinIsPaid(cfg, WinBody());
    r' := DecideAlone(cfg, r1, 2, WinBody(), 204);
  }

  /** And is paid into it. */
  lemma WinCommits(cfg: Config, r: Run) returns (r': Run)
    requires Proper(cfg, r) && Last(r).procs.Keys == {1} && Below(Last(r).used, 200)
    requires Last(r).db == EMPTY.(wallets := map[10 := Bare(10, 1), 11 := Bare(11, 2)])
    requires DecidedAlone(cfg, Last(r), 1, RollbackBody()) && Last(r).procs[1].at == 0
    ensures Proper(cfg, r') && Continues(r, r') && Below(Last(r').used, 204)
    ensures Last(r').procs == Last(r).procs
    ensures var txs := Last(r').db.txs;
            txs.Keys == {200} && txs[200].origin.External? && txs[200].req == WIN.req && txs[200].key == "k" && txs[200].status.Processed?
  {
    hide IsRun, Decide, PayloadHash.Preimage, NewTx, BodyStatements, OutEvents, NewRecords, Below, Holds;
    FreshWriterHolds(Last(r), 1);
    WinIsPaid(cfg, WinBody());
    var r2 := WinDecides(cfg, r);
    var r3 := WriteOut(cfg, r2, 2, 204);
    r' := CommitIt(cfg, r3, 2, 204);
  }

  /**
   Commit order is not serial across wallets. Whatever the settings, there is a run in which a rollback that
   looked for its win just before the win was committed, in another wallet, is left waiting by its commit,
   while run at once at that moment it is refused.
   */
  lemma OvertakenRollbackWaits(cfg: Config) returns (worlds: seq<World>, actions: seq<Action>, read: nat, commit: nat, b: Body)
    requires cfg.maxAttempts > 0
    ensures IsRun(cfg, worlds, actions) && read < commit < |actions|
    ensures 1 in worlds[read].procs && worlds[read].procs[1] == ReadingReference(b)
    ensures 1 in worlds[commit].procs && var p := worlds[commit].procs[1];
            p.Writing? && p.body == b && p.ref.None? && p.at == |BodyStatements(b, p.out)|
    ensures OvertakenReference(worlds[commit].db, b, None)
    ensures b.tx.id in worlds[commit + 1].db.txs && worlds[commit + 1].db.txs[b.tx.id].status.PendingReference?
    ensures var atOnce := AtOnce(cfg, worlds[commit].db, b);
            atOnce.Ok? && atOnce.value.tx.status.Rejected? && atOnce.value.tx.failure == ReferenceMismatch
  {
    hide IsRun, Decide, PayloadHash.Preimage, BodyStatements, OutEvents, NewRecords;
    b := RollbackBody();
    var r0 := TwoWallets(cfg);
    var r1, r2 := RollbackReads(cfg, r0);
    var r3 := WinCommits(cfg, r2);
    RollbackWaits(cfg, b);
    var r4 := WriteOut(cfg, r3, 1, 204);
    var r5 := CommitIt(cfg, r4, 1, 204);
    var db := Last(r4).db;
    FoundByExternalId(db.txs, 200, "p", "w");
    RollbackIsRefused(cfg, b, FromRow(db.txs[200]), ReversedNow(db, b.tx, b.base));
    StaysInPlace(cfg, r1, r5);
    StaysInPlace(cfg, r4, r5);
    StaysInPlace(cfg, r4, r4);
    StaysInPlace(cfg, r5, r5);
    worlds, actions, read, commit := r5.worlds, r5.actions, |r1.actions|, |r4.actions|;
  }

  // ---- a replay in another currency ----

  /** A bet of player 1 in dollars, addressed to a wallet in reais. */
  const DOLLAR_BET: Command := Command(ExternalRequest("p", "d", 1, 10, "r", "g", Bet, Money(500, "USD", true), ""), "m", "c")

  function DollarBody(): Body {
    Body(Some(Ctx(Http(1), DOLLAR_BET, None)), Snapshot(100, External, DOLLAR_BET.req, "m", PayloadHash.Preimage(DOLLAR_BET.req), "c",
         None, Pending, NoFailure, None, 0, None, None), Bare(10, 1), From(100), 0)
  }

  lemma DollarBetIsValid()
    ensures NewTx(DOLLAR_BET, 100) == Ok(DollarBody().tx) && Undecided(DollarBody().tx)
  {
    hide PayloadHash.Preimage, ValidIdentifier;
    OneLetter("p");
    OneLetter("d");
    OneLetter("r");
    OneLetter("g");
    OneLetter("m");
  }

  lemma DollarBetEnters(cfg: Config) returns (r: Run)
    ensures Proper(cfg, r) && Last(r).procs == map[1 := ReadingReference(DollarBody())] && Below(Last(r).used, 104)
    ensures Last(r).db == EMPTY.(wallets := map[10 := Bare(10, 1)]) && Last(r).replies == []
  {
    hide IsRun, PayloadHash.Preimage, NewTx;
    DollarBetIsValid();
    var start := Begin(cfg);
    var r0 := OpenBare(cfg, start, 0, Bare(10, 1), 20);
    r := Enter(cfg, r0, 1, DOLLAR_BET, 100);
  }

  /** The bet is refused, committed and answered. */
  lemma DollarBetIsAnswered(cfg: Config) returns (r: Run)
    ensures Proper(cfg, r) && Last(r).procs == map[] && Below(Last(r).used, 104) && |Last(r).replies| == 1
    ensures var first := Last(r).replies[0];
            && first.cmd == DOLLAR_BET && !first.replay && first.result.Ok?
            && first.result.value == RefusedForCurrency(DollarBody().tx, Bare(10, 1), 0)
            && Last(r).db.txs == map[100 := ToRow(first.result.value)]
  {
    hide IsRun, Decide, PayloadHash.Preimage, NewTx, BodyStatements, OutEvents, NewRecords, Below;
    DollarBetIsValid();
    var b := DollarBody();
    OtherCurrencyIsRefused(b.tx, b.base, b.ids.entry, b.now, cfg);
    var r1 := DollarBetEnters(cfg);
    var r2 := DecideAlone(cfg, r1, 1, b, 104);
    var r3 := WriteOut(cfg, r2, 1, 104);
    r := CommitIt(cfg, r3, 1, 104);
  }

  /**
   Whatever the settings, there is a run in which the same request is answered twice with one transaction,
   first with the wallet's balance in reais and then, as a replay, with the same amount in dollars.
   */
  lemma ReplayNamesAnotherCurrency(cfg: Config) returns (worlds: seq<World>, actions: seq<Action>)
    ensures IsRun(cfg, worlds, actions)
    ensures |worlds[|actions|].replies| == 2
    ensures var first, again := worlds[|actions|].replies[0], worlds[|actions|].replies[1];
            && first.cmd == DOLLAR_BET && again.cmd == DOLLAR_BET && !first.replay && again.replay
            && first.result.Ok? && again.result.Ok? && first.result.value.id == again.result.value.id
            && first.result.value.failure == CurrencyMismatchCode
            && first.result.value.resultBalance == Some(Money(0, "BRL", true))
            && again.result.value.resultBalance == Some(Money(0, "USD", true))
  {
    hide IsRun, PayloadHash.Preimage, NewTx;
    DollarBetIsValid();
    var r0 := DollarBetIsAnswered(cfg);
    var ctx := Ctx(Http(1), DOLLAR_BET, None);
    var r1 := Act(cfg, r0, Submit(1, DOLLAR_BET));
    FoundByKey(Last(r0).db.txs, 100, "p", "m");
    var r2 := Step(cfg, r1, 1, 104);
    assert Last(r2).procs[1] == Replaying(ctx, FromRow(Last(r0).db.txs[100]));
    var r3 := Step(cfg, r2, 1, 104);
    StaysInPlace(cfg, r3, r3);
    worlds, actions := r3.worlds, r3.actions;
  }

  // ---- a wallet with little room ----

  /** An operation of player 1 in wallet 10, named by its external id and key. */
  function Move(name: string, kind: Kind, minor: Int64, reference: string): Command {
    Command(ExternalRequest("p", name, 1, 10, "r", "g", kind, Money(minor, "BRL", true), reference), name, "c")
  }

  /** Wallet 10, at rest, with its balance and lifetime totals, and the names in use. */
  ghost predicate Stands(w: World, balance: int, credits: int, debits: int, names: set<string>, n: nat) {
    && w.procs == map[] && Below(w.used, n)
    && 10 in w.db.wallets && ValidWallet(w.db.wallets[10])
    && w.db.wallets[10].id == 10 && w.db.wallets[10].playerId == 1 && w.db.wallets[10].currency == "BRL"
    && w.db.wallets[10].balance.minor == balance
    && Summed(OfWallet(w.db.ledger, 10)).credits == credits && Summed(OfWallet(w.db.ledger, 10)).debits == debits
    && forall id :: id in w.db.txs ==> w.db.txs[id].req.externalId in names && w.db.txs[id].key in names
  }

  predicate IsName(name: string) {
    |name| == 1 && 'a' <= name[0] <= 'z'
  }

  predicate MayMove(kind: Kind, minor: Int64, balance: int) {
    minor > 0 && ((kind.Bet? && minor <= balance) || (kind.Win? && FitsInt64(balance + minor)))
  }

  lemma MoveIsValid(name: string, kind: Kind, minor: Int64, reference: string, n: nat)
    requires IsName(name) && minor > 0 && Room(n) && n > 0
    requires if kind.Refund? then IsName(reference) && reference != name else (kind.Bet? || kind.Win?) && reference == ""
    ensures var r := NewTx(Move(name, kind, minor, reference), n);
            && r.Ok? && Undecided(r.value) && r.value.req == Move(name, kind, minor, reference).req && r.value.id == n
            && r.value.key == name && r.value.origin.External? && r.value.status.Pending? && r.value.attempts == 0
  {
    hide PayloadHash.Preimage, ValidIdentifier;
    OneLetter(name);
    OneLetter("p");
    OneLetter("r");
    OneLetter("g");
    if kind.Refund? {
      OneLetter(reference);
    }
  }

  /** A bet or win that its wallet can take moves its amount. */
  lemma MoveIsDone(cfg: Config, tx: Snapshot, base: WalletState, entryId: Uuid, name: string, kind: Kind, minor: Int64)
    requires Undecided(tx) && tx.status.Pending? && tx.req == Move(name, kind, minor, "").req && entryId != NIL
    requires ValidWallet(base) && base.id == 10 && base.playerId == 1 && base.currency == "BRL"
    requires MayMove(kind, minor, base.balance.minor)
    ensures !ReadsReference(tx, base)
    ensures var r := Decide(tx, base, None, false, entryId, 0, cfg);
            && r.Ok? && SameIdentity(tx, r.value.tx) && r.value.entry.Some? && r.value.tx.status.Processed?
            && Explains(base, Movement(r.value.wallet, r.value.entry.value), entryId, tx.id, tx.req.money, if kind.Bet? then Debit else Credit)
  {
    hide Undecided, Decide, Explains;
    OutcomesAreTabulated(tx, base, None, false, entryId, 0, cfg);
    DecideIsSound(tx, base, None, false, entryId, 0, cfg);
  }

  lemma SummedMore(ledger: seq<LedgerRecord>, rec: LedgerRecord, id: Uuid)
    requires rec.entry.walletId == id
    ensures var t, t' := Summed(OfWallet(ledger, id)), Summed(OfWallet(ledger + [rec], id));
            if rec.entry.direction == Credit then t'.credits == t.credits + rec.entry.amount.minor && t'.debits == t.debits
            else t'.credits == t.credits && t'.debits == t.debits + rec.entry.amount.minor
  {
    assert (ledger + [rec])[..|ledger|] == ledger;
    var rows := OfWallet(ledger, id);
    assert (rows + [rec])[..|rows|] == rows;
  }

  /** One row more. */
  predicate Added(db: DB, db': DB, id: Uuid, req: ExternalRequest, status: Status) {
    && id in db'.txs && db'.txs == db.txs[id := db'.txs[id]]
    && db'.txs[id].req == req && db'.txs[id].origin.External? && db'.txs[id].status == status && db'.txs[id].id == id
  }

  lemma Moves(cfg: Config, r: Run, name: string, kind: Kind, minor: Int64, n: nat, balance: int, credits: int, debits: int,
              names: set<string>) returns (r': Run)
    requires Proper(cfg, r) && Stands(Last(r), balance, credits, debits, names, n) && 0 < n < 1000
    requires MayMove(kind, minor, balance) && IsName(name) && name !in names
    ensures Proper(cfg, r') && Added(Last(r).db, Last(r').db, n, Move(name, kind, minor, "").req, Processed)
    ensures if kind.Bet? then Stands(Last(r'), balance - minor, credits, debits + minor, names + {name}, n + 4)
            else Stands(Last(r'), balance + minor, credits + minor, debits, names + {name}, n + 4)
  {
    hide IsRun, Decide, NewTx, Undecided, SameIdentity, OutEvents, OfWallet, Summed, Below, ReadsReference, IsName;
    var cmd, base := Move(name, kind, minor, ""), Last(r).db.wallets[10];
    MoveIsValid(name, kind, minor, "", n);
    var tx := NewTx(cmd, n).value;
    MoveIsDone(cfg, tx, base, From(n).entry, name, kind, minor);
    var out, seqNo;
    r', out, seqNo := Plays(cfg, r, cmd, n);
    SummedMore(Last(r).db.ledger, LedgerRecord(seqNo, out.entry.value), 10);
    KeepsRequest(tx, out.tx);
  }

  lemma KeepsRequest(tx: Snapshot, t: Snapshot)
    requires SameIdentity(tx, t)
    ensures t.req == tx.req && t.key == tx.key && t.id == tx.id && t.origin == tx.origin
  {}

  lemma OneWallet(cfg: Config) returns (r: Run)
    ensures Proper(cfg, r) && Stands(Last(r), 0, 0, 0, {}, 100) && Last(r).db.txs == map[]
  {
    hide IsRun;
    var start := Begin(cfg);
    r := OpenBare(cfg, start, 0, Bare(10, 1), 20);
  }

  // ---- totals beyond int64 ----

  /**
   Whatever the settings, there is a run after which a wallet holds 0.01 and its reconciliation fails: what it
   was credited over its lifetime, 2^63 cents, no longer fits the statement's BIGINT.
   */
  lemma ReconciliationCanFail(cfg: Config) returns (worlds: seq<World>, actions: seq<Action>)
    ensures IsRun(cfg, worlds, actions)
    ensures var db := worlds[|actions|].db;
            && 10 in db.wallets && db.wallets[10].balance.minor == 1
            && Summed(OfWallet(db.ledger, 10)).credits == MAX_INT64 + 1
            && Reconcile(db, 10) == Err(ConstraintViolation)
  {
    hide IsRun, DbInv, OfWallet, Summed, Reconcile, Below, ValidWallet;
    var r0 := OneWallet(cfg);
    var r1 := Moves(cfg, r0, "a", Win, MAX_INT64, 100, 0, 0, 0, {});
    var r2 := Moves(cfg, r1, "b", Bet, MAX_INT64, 104, MAX_INT64, MAX_INT64, 0, {"a"});
    var r3 := Moves(cfg, r2, "d", Win, 1, 108, 0, MAX_INT64, MAX_INT64, {"a", "b"});
    IsSafe(cfg, r3);
    ReconcileIsConsistent(Last(r3).db, 10);
    StaysInPlace(cfg, r3, r3);
    worlds, actions := r3.worlds, r3.actions;
  }

  // ---- a refund that no longer fits ----

  lemma RefundIsParked(cfg: Config, tx: Snapshot, base: WalletState, entryId: Uuid)
    requires cfg.maxAttempts > 0 && tx.req == Move("f", Refund, 1, "b").req && tx.status.Pending? && tx.attempts == 0
    requires base.playerId == 1 && base.currency == "BRL"
    ensures var r := Decide(tx, base, None, false, entryId, 0, cfg);
            && r.Ok? && SameIdentity(tx, r.value.tx) && r.value.tx.status.PendingReference? && r.value.entry.None? && r.value.wallet == base
            && r.value.tx.nextRetry.Some?
  {}

  /** The refund arrives before its bet. */
  lemma RefundWaits(cfg: Config, r: Run) returns (r': Run)
    requires cfg.maxAttempts > 0 && Proper(cfg, r) && Stands(Last(r), 0, 0, 0, {}, 100) && Last(r).db.txs == map[]
    ensures Proper(cfg, r') && Stands(Last(r'), 0, 0, 0, {"f"}, 104)
    ensures Added(Last(r).db, Last(r').db, 100, Move("f", Refund, 1, "b").req, PendingReference)
    ensures Last(r').db.txs[100].nextRetry.Some?
  {
    hide IsRun, Decide, NewTx, Undecided, SameIdentity, OutEvents, OfWallet, Summed, Below, ReadsReference;
    var cmd, base := Move("f", Refund, 1, "b"), Last(r).db.wallets[10];
    MoveIsValid("f", Refund, 1, "b", 100);
    var tx := NewTx(cmd, 100).value;
    RefundIsParked(cfg, tx, base, From(100).entry);
    var out, seqNo;
    r', out, seqNo := Plays(cfg, r, cmd, 100);
    assert Last(r).db.ledger + NewRecords(out, seqNo) == Last(r).db.ledger;
    KeepsRequest(tx, out.tx);
  }

  lemma RefundDoesNotFit(db: DB, id: Uuid, bet: Uuid)
    requires TablesOk(db) && id in db.txs && bet in db.txs && id != bet && 10 in db.wallets
    requires db.txs[id].req == Move("f", Refund, 1, "b").req && db.txs[id].status.PendingReference?
    requires db.txs[bet].req == Move("b", Bet, 1, "").req && db.txs[bet].status.Processed? && db.txs[bet].origin.External? && db.txs[bet].id == bet
    requires forall x :: x in db.txs && x != id ==> !db.txs[x].req.kind.IsReversal()
    requires db.wallets[10].playerId == 1 && db.wallets[10].currency == "BRL" && db.wallets[10].balance.minor == MAX_INT64
    ensures IsStuck(db, id)
  {
    hide WalletsOk, TxsOk, OwnersUnique, KeysUnique, ExternalIdsUnique, OpeningsUnique, ReferencesOk, ReversalsUnique;
    FoundByExternalId(db.txs, bet, "p", "b");
  }

  /** The refund at 100 and three moves after it. */
  ghost predicate RefundThenMoves(db: DB) {
    && db.txs.Keys == {100, 104, 108, 112}
    && db.txs[100].req == Move("f", Refund, 1, "b").req && db.txs[100].status.PendingReference? && db.txs[100].nextRetry.Some?
    && db.txs[104].req == Move("a", Win, MAX_INT64, "").req && db.txs[104].status.Processed?
    && db.txs[108].req == Move("b", Bet, 1, "").req && db.txs[108].status.Processed? && db.txs[108].origin.External? && db.txs[108].id == 108
    && db.txs[112].req == Move("d", Win, 1, "").req && db.txs[112].status.Processed?
  }

  lemma AddedInTurn(a: DB, b: DB, c: DB, d: DB, e: DB)
    requires a.txs == map[] && Added(a, b, 100, Move("f", Refund, 1, "b").req, PendingReference) && b.txs[100].nextRetry.Some?
    requires Added(b, c, 104, Move("a", Win, MAX_INT64, "").req, Processed) && Added(c, d, 108, Move("b", Bet, 1, "").req, Processed)
    requires Added(d, e, 112, Move("d", Win, 1, "").req, Processed)
    ensures RefundThenMoves(e)
  {
    assert e.txs == map[100 := b.txs[100], 104 := c.txs[104], 108 := d.txs[108], 112 := e.txs[112]];
  }

  lemma RefundIsFirst(db: DB)
    requires RefundThenMoves(db)
    ensures EarliestDue(db.txs, 100, db.txs[100].nextRetry.value)
  {}

  lemma RefundIsOvertaken(cfg: Config) returns (r: Run)
    requires cfg.maxAttempts > 0
    ensures Proper(cfg, r) && Stands(Last(r), MAX_INT64, MAX_INT64 + 1, 1, {"f", "a", "b", "d"}, 116) && RefundThenMoves(Last(r).db)
  {
    hide IsRun, OfWallet, Summed, Below, ValidWallet, Added, Stands, RefundThenMoves;
    var r0 := OneWallet(cfg);
    var r1 := RefundWaits(cfg, r0);
    var r2 := Moves(cfg, r1, "a", Win, MAX_INT64, 104, 0, 0, 0, {"f"});
    assert {"f"} + {"a"} == {"f", "a"};
    var r3 := Moves(cfg, r2, "b", Bet, 1, 108, MAX_INT64, MAX_INT64, 0, {"f", "a"});
    assert {"f", "a"} + {"b"} == {"f", "a", "b"};
    r := Moves(cfg, r3, "d", Win, 1, 112, MAX_INT64 - 1, MAX_INT64, 1, {"f", "a", "b"});
    assert {"f", "a", "b"} + {"d"} == {"f", "a", "b", "d"};
    AddedInTurn(Last(r0).db, Last(r1).db, Last(r2).db, Last(r3).db, Last(r).db);
  }

  /**
   Whatever the settings, there is a run in which a refund waits for its bet, the bet arrives, and before the worker
   comes to it the wallet is filled to the last cent: from then on the refund is stuck, and it is the first in line.
   */
  lemma RefundCanBeStuck(cfg: Config) returns (worlds: seq<World>, actions: seq<Action>)
    requires cfg.maxAttempts > 0
    ensures IsRun(cfg, worlds, actions) && IsStuck(worlds[|actions|].db, 100)
    ensures exists claimAt :: EarliestDue(worlds[|actions|].db.txs, 100, claimAt)
  {
    hide IsRun, Inv, TablesOk, IsStuck, EarliestDue, OfWallet, Summed, Below, ValidWallet;
    var r := RefundIsOvertaken(cfg);
    var db := Last(r).db;
    IsSafe(cfg, r);
    GoodTables(cfg, Last(r));
    RefundDoesNotFit(db, 100, 108);
    RefundIsFirst(db);
    StaysInPlace(cfg, r, r);
    worlds, actions := r.worlds, r.actions;
  }
}
