/**
 Building runs: wallets opened without money, operations up to the wallet lock, to their decision, and from
 there to their commit.
 */
module RunBuilder {
  import opened Basics
  import opened Wallets
  import opened Wagering
  import opened Rules
  import opened Database
  import opened UseCases
  import opened Commit
  import opened Engine
  import opened Processes
  import opened Worlds
  import opened Commits
  import opened Reach
  import opened History
  import PayloadHash

  // ---- building runs ----

  datatype Run = Run(worlds: seq<World>, actions: seq<Action>)

  ghost predicate Proper(cfg: Config, r: Run) {
    IsRun(cfg, r.worlds, r.actions)
  }

  ghost function Last(r: Run): World {
    if r.worlds == [] then START else r.worlds[|r.worlds| - 1]
  }

  ghost predicate Continues(r: Run, r': Run) {
    r.worlds <= r'.worlds && r.actions <= r'.actions
  }

  /** The last world of a run is still its world in every longer one. */
  lemma StaysInPlace(cfg: Config, r: Run, r': Run)
    requires Proper(cfg, r) && Proper(cfg, r') && Continues(r, r')
    ensures |r.actions| < |r'.worlds| && r'.worlds[|r.actions|] == Last(r)
    ensures |r'.worlds| == |r'.actions| + 1
  {}

  lemma Act(cfg: Config, r: Run, a: Action) returns (r': Run)
    requires Proper(cfg, r) && Enabled(Last(r), a)
    ensures Proper(cfg, r') && Continues(r, r') && Last(r') == Perform(cfg, Last(r), a)
    ensures r'.worlds == r.worlds + [Last(r')] && r'.actions == r.actions + [a]
  {
    hide Enabled, Perform;
    r' := Run(r.worlds + [Perform(cfg, Last(r), a)], r.actions + [a]);
  }

  lemma Begin(cfg: Config) returns (r: Run)
    ensures Proper(cfg, r) && Last(r) == START
  {
    r := Run([START], []);
  }

  /** All identifiers used so far are below n. */
  predicate Below(used: set<Uuid>, n: nat) {
    NIL in used && forall id :: id in used ==> id < n
  }

  predicate Room(n: nat) {
    n + 3 < UUID_LIMIT
  }

  function From(n: nat): Ids
    requires Room(n)
  {
    Ids(n, n + 1, n + 2, n + 3)
  }

  function Drawing(n: nat): Choice
    requires Room(n)
  {
    Choice(0, From(n), None)
  }

  lemma FreshFrom(used: set<Uuid>, n: nat)
    requires Below(used, n) && Room(n)
    ensures FreshIds(used, From(n)) && Below(used + IdSet(From(n)), n + 4)
  {}

  /** Nobody else holds what the process waits for. */
  ghost predicate Unhindered(procs: map<Pid, Proc>, pid: Pid) {
    pid in procs && (Wants(procs[pid]).Some? ==>
      forall q :: q in procs && q != pid ==> Wants(procs[pid]).value !in Holds(procs[q]))
  }

  /** The next statement of one process. */
  lemma Step(cfg: Config, r: Run, pid: Pid, n: nat) returns (r': Run)
    requires Proper(cfg, r) && Unhindered(Last(r).procs, pid) && !Last(r).procs[pid].Claiming?
    requires Room(n) && Below(Last(r).used, n)
    ensures Proper(cfg, r') && Continues(r, r') && Last(r') == Advanced(cfg, Last(r), pid, Drawing(n))
    ensures r'.worlds == r.worlds + [Last(r')] && r'.actions == r.actions + [Advance(pid, Drawing(n))]
  {
    hide Holds, Wants, Advanced, IsRun;
    FreshFrom(Last(r).used, n);
    r' := Act(cfg, r, Advance(pid, Drawing(n)));
  }

  // ---- a wallet without money ----

  lemma OpenBare(cfg: Config, r: Run, pid: Pid, wallet: WalletState, n: nat) returns (r': Run)
    requires Proper(cfg, r) && Last(r).procs == map[] && Room(n + 4) && Below(Last(r).used, n)
    requires Open(wallet.id, wallet.playerId, wallet.balance) == Ok(wallet) && wallet.balance.IsZero()
    requires wallet.id !in Last(r).used && wallet.id < n && wallet.id !in Last(r).db.wallets
    requires !OwnerTaken(Last(r).db.wallets, wallet.playerId, wallet.currency)
    ensures Proper(cfg, r') && Continues(r, r')
    ensures var w, w' := Last(r), Last(r');
            && w'.db == w.db.(wallets := w.db.wallets[wallet.id := wallet])
            && w'.procs == map[] && Below(w'.used, n + 4)
            && w'.used == w.used + IdSet(From(n)) + {wallet.id} && w'.replies == w.replies
  {
    hide IsRun, OwnerTaken, NewOpeningParts;
    FreshFrom(Last(r).used, n);
    var w := Last(r);
    var ws := OpenWrites(wallet, None, From(n));
    assert ws == [ReserveOwner(wallet.playerId, wallet.currency), CreateWallet(wallet)];
    assert ws[..0] == [] && ws[..1] == [ws[0]] && ws[..2] == ws;
    var r1 := Act(cfg, r, Engine.OpenWallet(pid, wallet.id, wallet.playerId, wallet.balance, "", Drawing(n)));
    assert Last(r1).procs == map[pid := OpeningWallet(wallet, None, From(n), "", 0, 1)];
    var r2 := Step(cfg, r1, pid, n + 4);
    assert Last(r2).procs == map[pid := OpeningWallet(wallet, None, From(n), "", 1, 1)];
    var r3 := Step(cfg, r2, pid, n + 4);
    assert Last(r3).procs == map[pid := OpeningWallet(wallet, None, From(n), "", 2, 1)];
    r' := Step(cfg, r3, pid, n + 4);
    assert ApplyAll(w.db, ws, 1) == ApplyWrite(ApplyAll(w.db, ws[..1], 1), ws[1], 1);
    assert ApplyAll(w.db, ws[..1], 1) == w.db;
  }

  // ---- an operation up to the wallet lock ----

  function NewTx(cmd: Command, n: nat): Result<Snapshot>
    requires Room(n)
  {
    NewExternal(n, cmd.req, cmd.key, PayloadHash.Preimage(cmd.req), cmd.correlationId)
  }

  /** The operation is new, and its wallet is there and free. */
  ghost predicate MayEnter(w: World, cmd: Command) {
    && !KeyTaken(w.db.txs, cmd.req.providerId, cmd.key)
    && !ExternalIdTaken(w.db.txs, cmd.req.providerId, cmd.req.externalId)
    && cmd.req.walletId in w.db.wallets
    && forall q :: q in w.procs ==> WalletRow(cmd.req.walletId) !in Holds(w.procs[q])
  }

  function Entered(w: World, pid: Pid, cmd: Command, n: nat): World
    requires Room(n) && NewTx(cmd, n).Ok? && cmd.req.walletId in w.db.wallets
  {
    var b := Body(Some(Ctx(Http(1), cmd, None)), NewTx(cmd, n).value, w.db.wallets[cmd.req.walletId], From(n), 0);
    Become(w, pid, ReadingReference(b)).(used := w.used + IdSet(From(n)))
  }

  lemma BecomeTwice(w: World, pid: Pid, p: Proc, p': Proc)
    ensures Become(Become(w, pid, p), pid, p') == Become(w, pid, p')
  {}

  lemma KeyGiven(cmd: Command, n: nat)
    requires Room(n) && NewTx(cmd, n).Ok?
    ensures cmd.key != ""
  {}

  /** Both lookups find nothing. */
  lemma LooksUp(cfg: Config, r: Run, w: World, pid: Pid, cmd: Command, locked: Option<WalletState>, n: nat) returns (r': Run)
    requires Proper(cfg, r) && Room(n) && Below(w.used, n) && MayEnter(w, cmd)
    requires Last(r) == Become(w, pid, LookingUpKey(Ctx(Http(1), cmd, None), locked))
    ensures Proper(cfg, r') && Continues(r, r')
    ensures Last(r') == Become(w, pid, LookingUpExternalId(Ctx(Http(1), cmd, None), locked))
  {
    hide IsRun, PayloadHash.Preimage, FindByKey, FindByExternalId, Below, FreshIds;
    var ctx := Ctx(Http(1), cmd, None);
    r' := Step(cfg, r, pid, n);
    BecomeTwice(w, pid, LookingUpKey(ctx, locked), LookingUpExternalId(ctx, locked));
  }

  /** The wallet is locked, after the first pair of lookups. */
  lemma Locks(cfg: Config, r: Run, pid: Pid, cmd: Command, n: nat) returns (r': Run)
    requires Proper(cfg, r) && pid !in Last(r).procs && Room(n) && Below(Last(r).used, n)
    requires MayEnter(Last(r), cmd) && cmd.key != ""
    ensures Proper(cfg, r') && Continues(r, r')
    ensures Last(r') == Become(Last(r), pid, LookingUpKey(Ctx(Http(1), cmd, None), Some(Last(r).db.wallets[cmd.req.walletId])))
  {
    hide IsRun, PayloadHash.Preimage, FindByKey, FindByExternalId, KeyTaken, ExternalIdTaken, Below, FreshIds, Holds;
    var w, ctx := Last(r), Ctx(Http(1), cmd, None);
    var r1 := Act(cfg, r, Submit(pid, cmd));
    var r2 := LooksUp(cfg, r1, w, pid, cmd, None, n);
    var r3 := Step(cfg, r2, pid, n);
    BecomeTwice(w, pid, LookingUpExternalId(ctx, None), LockingWallet(ctx));
    r' := Step(cfg, r3, pid, n);
    BecomeTwice(w, pid, LockingWallet(ctx), LookingUpKey(ctx, Some(w.db.wallets[cmd.req.walletId])));
  }

  lemma Enter(cfg: Config, r: Run, pid: Pid, cmd: Command, n: nat) returns (r': Run)
    requires Proper(cfg, r) && pid !in Last(r).procs && Room(n) && Below(Last(r).used, n)
    requires MayEnter(Last(r), cmd) && NewTx(cmd, n).Ok?
    ensures Proper(cfg, r') && Continues(r, r') && Last(r') == Entered(Last(r), pid, cmd, n) && Below(Last(r').used, n + 4)
  {
    hide IsRun, ValidIdentifier, ValidRequest, PayloadHash.Preimage, FindByKey, FindByExternalId, Below, FreshIds, Holds;
    var w, ctx := Last(r), Ctx(Http(1), cmd, None);
    FreshFrom(w.used, n);
    KeyGiven(cmd, n);
    var r1 := Locks(cfg, r, pid, cmd, n);
    var locked := Some(w.db.wallets[cmd.req.walletId]);
    var r2 := LooksUp(cfg, r1, w, pid, cmd, locked, n);
    r' := Step(cfg, r2, pid, n);
    BecomeTwice(w, pid, LookingUpExternalId(ctx, locked), ReadingReference(Body(Some(ctx), NewTx(cmd, n).value, locked.value, From(n), 0)));
  }

  // ---- an operation from its decision to its commit ----

  /** Key and external id are not taken, and nobody else is about to take them. */
  ghost predicate MayInsert(w: World, pid: Pid, tx: Snapshot) {
    && !KeyTaken(w.db.txs, tx.req.providerId, tx.key)
    && !ExternalIdTaken(w.db.txs, tx.req.providerId, tx.req.externalId)
    && forall q :: q in w.procs && q != pid ==>
         KeyEntry(tx.req.providerId, tx.key) !in Holds(w.procs[q])
         && ExternalIdEntry(tx.req.providerId, tx.req.externalId) !in Holds(w.procs[q])
  }

  ghost predicate IsWriting(w: World, pid: Pid) {
    pid in w.procs && w.procs[pid].Writing? && w.procs[pid].body.ctx.Some?
    && w.procs[pid].at <= |BodyStatements(w.procs[pid].body, w.procs[pid].out)|
  }

  /** Only the progress of one writing process differs. */
  ghost predicate WroteOn(w: World, w': World, pid: Pid)
    requires IsWriting(w, pid)
  {
    && IsWriting(w', pid) && w'.db == w.db && w'.used == w.used && w'.replies == w.replies && w'.procs == w.procs[pid := w'.procs[pid]]
    && var p, p' := w.procs[pid], w'.procs[pid];
       p'.body == p.body && p'.out == p.out && p'.ref == p.ref && p'.reversed == p.reversed
  }

  lemma MayStillInsert(w: World, w': World, pid: Pid)
    requires IsWriting(w, pid) && WroteOn(w, w', pid) && MayInsert(w, pid, w.procs[pid].out.tx)
    ensures MayInsert(w', pid, w'.procs[pid].out.tx)
  {
    hide Holds, KeyTaken, ExternalIdTaken, BodyStatements;
  }

  lemma StatementSucceeds(cfg: Config, w: World, pid: Pid)
    requires Inv(cfg, w) && IsWriting(w, pid) && MayInsert(w, pid, w.procs[pid].out.tx)
    requires w.procs[pid].at < |BodyStatements(w.procs[pid].body, w.procs[pid].out)|
    ensures var p := w.procs[pid];
            Violation(View(w.db, BodyStatements(p.body, p.out), p.at, p.seqNo), BodyStatements(p.body, p.out)[p.at]) == None
    ensures Unhindered(w.procs, pid)
  {
    hide Inv, KeyTaken, ExternalIdTaken, BodyStatements, View, Holds;
    var p := w.procs[pid];
    if p.at < 2 {
      ReservationView(w.db, p.body, p.out, p.at, p.seqNo);
    } else {
      WriterNeverFails(cfg, w, pid);
    }
  }

  lemma StatementDone(cfg: Config, w: World, pid: Pid, c: Choice)
    requires IsWriting(w, pid) && w.procs[pid].at < |BodyStatements(w.procs[pid].body, w.procs[pid].out)|
    requires var p := w.procs[pid];
             Violation(View(w.db, BodyStatements(p.body, p.out), p.at, p.seqNo), BodyStatements(p.body, p.out)[p.at]) == None
    ensures var w' := Advanced(cfg, w, pid, c); WroteOn(w, w', pid) && w'.procs[pid].at == w.procs[pid].at + 1
  {
    hide Violation, View, BodyStatements;
  }

  lemma {:induction false} WriteOut(cfg: Config, r: Run, pid: Pid, n: nat) returns (r': Run)
    requires Proper(cfg, r) && IsWriting(Last(r), pid) && MayInsert(Last(r), pid, Last(r).procs[pid].out.tx)
    requires Room(n) && Below(Last(r).used, n)
    ensures Proper(cfg, r') && Continues(r, r') && WroteOn(Last(r), Last(r'), pid)
    ensures var p := Last(r').procs[pid]; p.at == |BodyStatements(p.body, p.out)|
    decreases var p := Last(r).procs[pid]; |BodyStatements(p.body, p.out)| - p.at
  {
    hide IsRun, Inv, MayInsert, BodyStatements, Violation, View, Advanced, Unhindered;
    var p := Last(r).procs[pid];
    if p.at == |BodyStatements(p.body, p.out)| {
      r' := r;
    } else {
      IsSafe(cfg, r);
      StatementSucceeds(cfg, Last(r), pid);
      StatementDone(cfg, Last(r), pid, Drawing(n));
      var r1 := Step(cfg, r, pid, n);
      MayStillInsert(Last(r), Last(r1), pid);
      r' := WriteOut(cfg, r1, pid, n);
    }
  }

  lemma IsSafe(cfg: Config, r: Run)
    requires Proper(cfg, r)
    ensures Inv(cfg, Last(r))
  {
    hide Inv, Enabled, Perform;
    RunsAreSafe(cfg, r.worlds, r.actions, |r.actions|);
  }

  lemma CommitIt(cfg: Config, r: Run, pid: Pid, n: nat) returns (r': Run)
    requires Proper(cfg, r) && IsWriting(Last(r), pid) && Room(n) && Below(Last(r).used, n)
    requires var p := Last(r).procs[pid];
             p.at == |BodyStatements(p.body, p.out)| && p.body.ctx.value.source.Http? && p.body.ctx.value.inbox.None?
    ensures Proper(cfg, r') && Continues(r, r') && r'.worlds == r.worlds + [Last(r')]
    ensures var p := Last(r).procs[pid];
            && Last(r').db == After(Last(r).db, p.out, p.body.ids, p.seqNo)
            && Last(r').procs == Last(r).procs - {pid} && Last(r').used == Last(r).used
            && Last(r').replies == Last(r).replies + [Reply(p.body.ctx.value.source, p.body.ctx.value.cmd, Ok(p.out.tx), false)]
  {
    hide IsRun, Inv, BodyStatements, After, Evolves, Holds, ApplyAll;
    IsSafe(cfg, r);
    BodyCommitChanges(cfg, Last(r), pid);
    ReservationView(Last(r).db, Last(r).procs[pid].body, Last(r).procs[pid].out, 0, 1);
    r' := Step(cfg, r, pid, n);
  }

  /** Process pid writes what it decided about the body without a reference. */
  ghost predicate DecidedAlone(cfg: Config, w: World, pid: Pid, b: Body) {
    && IsWriting(w, pid) && w.procs[pid].body == b && w.procs[pid].ref.None? && !w.procs[pid].reversed
    && Decide(b.tx, b.base, None, false, b.ids.entry, b.now, cfg) == Ok(w.procs[pid].out)
  }

  /** Before its first statement a writer holds its wallet and nothing else. */
  lemma FreshWriterHolds(w: World, pid: Pid)
    requires IsWriting(w, pid) && w.procs[pid].at == 0 && w.procs[pid].body.ctx.value.inbox.None?
    ensures Holds(w.procs[pid]) == {WalletRow(w.procs[pid].body.base.id)}
  {
    hide BodyStatements;
  }

  /** An operation that finds no reference, or asks for none, is decided on its wallet alone. */
  lemma DecideAlone(cfg: Config, r: Run, pid: Pid, b: Body, n: nat) returns (r': Run)
    requires Proper(cfg, r) && Room(n) && Below(Last(r).used, n)
    requires pid in Last(r).procs && Last(r).procs[pid] == ReadingReference(b) && b.ctx.Some?
    requires ReferenceNow(Last(r).db, b.tx, b.base).None? && Decide(b.tx, b.base, None, false, b.ids.entry, b.now, cfg).Ok?
    ensures Proper(cfg, r') && Continues(r, r') && |r'.actions| == |r.actions| + 1
    ensures var w, w' := Last(r), Last(r');
            && DecidedAlone(cfg, w', pid, b) && w'.db == w.db && w'.used == w.used && w'.replies == w.replies
            && w'.procs == w.procs[pid := w'.procs[pid]] && w'.procs[pid].at == 0
  {
    hide IsRun, Decide, ReferenceOf, ReadsReference;
    r' := Step(cfg, r, pid, n);
  }

  // ---- an operation alone ----

  /** The operation as a process carries it when it has locked its wallet. */
  function BodyOf(w: World, cmd: Command, n: nat): Body
    requires Room(n) && NewTx(cmd, n).Ok? && cmd.req.walletId in w.db.wallets
  {
    Body(Some(Ctx(Http(1), cmd, None)), NewTx(cmd, n).value, w.db.wallets[cmd.req.walletId], From(n), 0)
  }

  /** A new operation that finds no reference, or asks for none, from its request to its commit, with nobody else about. */
  lemma Plays(cfg: Config, r: Run, cmd: Command, n: nat) returns (r': Run, out: Outcome, seqNo: SeqNo)
    requires Proper(cfg, r) && Last(r).procs == map[] && Room(n) && Room(n + 4) && Below(Last(r).used, n)
    requires MayEnter(Last(r), cmd) && NewTx(cmd, n).Ok?
    requires var b := BodyOf(Last(r), cmd, n);
             ReferenceNow(Last(r).db, b.tx, b.base).None? && Decide(b.tx, b.base, None, false, b.ids.entry, b.now, cfg).Ok?
             && SameIdentity(b.tx, Decide(b.tx, b.base, None, false, b.ids.entry, b.now, cfg).value.tx)
    ensures Proper(cfg, r') && Continues(r, r') && Last(r').procs == map[] && Below(Last(r').used, n + 4)
    ensures var b := BodyOf(Last(r), cmd, n);
            Decide(b.tx, b.base, None, false, b.ids.entry, b.now, cfg) == Ok(out) && SameIdentity(b.tx, out.tx)
            && Last(r').db == After(Last(r).db, out, From(n), seqNo)
  {
    hide IsRun, Decide, PayloadHash.Preimage, NewTx, BodyStatements, Below, KeyTaken, ExternalIdTaken, After, Holds, ReadsReference, ReferenceOf;
    var b := BodyOf(Last(r), cmd, n);
    NewIsOfCommand(cmd, n);
    var r1 := Enter(cfg, r, 1, cmd, n);
    var r2 := DecideAlone(cfg, r1, 1, b, n + 4);
    var r3 := WriteOut(cfg, r2, 1, n + 4);
    r' := CommitIt(cfg, r3, 1, n + 4);
    out, seqNo := Last(r3).procs[1].out, Last(r3).procs[1].seqNo;
  }

  lemma NewIsOfCommand(cmd: Command, n: nat)
    requires Room(n) && NewTx(cmd, n).Ok?
    ensures NewTx(cmd, n).value.req == cmd.req && NewTx(cmd, n).value.key == cmd.key
  {}
}
