/**
 Ledger pages (ListLedger of internal/app/wallets.go and List of internal/adapters/postgres/ledger_repo.go):
 a reader that follows the cursors while entries are being committed sees every entry once.
 */
module Paging {
  import opened Basics
  import opened Wallets
  import opened Rules
  import opened Database
  import opened Invariants
  import opened Engine
  import opened Worlds
  import opened Reach
  import opened History
  import Cursor

  /** The rows numbered after a cursor. */
  function Beyond(rows: seq<LedgerRecord>, after: nat): seq<LedgerRecord> {
    if rows == [] then []
    else
      var last := rows[|rows| - 1];
      Beyond(rows[..|rows| - 1], after) + (if last.seqNo > after then [last] else [])
  }

  function Limited(rows: seq<LedgerRecord>, limit: nat): seq<LedgerRecord> {
    if |rows| <= limit then rows else rows[..limit]
  }

  lemma BeyondStep(rows: seq<LedgerRecord>, rec: LedgerRecord, after: nat)
    ensures Beyond(rows + [rec], after) == Beyond(rows, after) + (if rec.seqNo > after then [rec] else [])
    ensures Beyond(rows + [], after) == Beyond(rows, after)
  {
    assert (rows + [rec])[..|rows|] == rows;
    assert rows + [] == rows;
  }

  // ---- one page ----

  function EffectiveLimit(limit: int): nat {
    if limit <= 0 || limit > 200 then 50 else limit
  }

  function EntriesOf(rows: seq<LedgerRecord>): (es: seq<LedgerEntry>)
    ensures |es| == |rows|
  {
    seq(|rows|, i requires 0 <= i < |rows| => rows[i].entry)
  }

  datatype Page = Page(entries: seq<LedgerEntry>, next: string)

  function PageAfter(rows: seq<LedgerRecord>, after: nat, limit: nat): Page
    requires limit >= 1
  {
    var found := Limited(Beyond(rows, after), limit + 1);
    if |found| > limit then Page(EntriesOf(found[..limit]), Cursor.EncodeCursor(found[limit - 1].seqNo))
    else Page(EntriesOf(found), "")
  }

  function ListLedger(db: DB, walletId: Uuid, cursor: string, limit: int): Result<Page> {
    var after :- Cursor.DecodeCursor(cursor);
    if walletId !in db.wallets then Err(WalletNotFound)
    else Ok(PageAfter(OfWallet(db.ledger, walletId), after, EffectiveLimit(limit)))
  }

  // ---- following the cursors ----

  /** Sequence numbers fit their BIGINT column. */
  predicate SeqsFitBigint(rows: seq<LedgerRecord>) {
    forall k :: 0 <= k < |rows| ==> rows[k].seqNo <= MAX_INT64
  }

  lemma {:induction false} BeyondIsSuffix(rows: seq<LedgerRecord>, n: nat, after: nat)
    requires SeqIncreasing(rows) && n <= |rows|
    requires if n == 0 then after == 0 else after == rows[n - 1].seqNo
    ensures Beyond(rows, after) == rows[n..]
  {
    if rows != [] {
      var m := |rows| - 1;
      if n <= m {
        BeyondIsSuffix(rows[..m], n, after);
        assert rows[n..] == rows[..m][n..] + [rows[m]];
      } else {
        NothingBeyond(rows, after);
      }
    }
  }

  lemma {:induction false} NothingBeyond(rows: seq<LedgerRecord>, after: nat)
    requires forall k :: 0 <= k < |rows| ==> rows[k].seqNo <= after
    ensures Beyond(rows, after) == []
  {
    if rows != [] {
      NothingBeyond(rows[..|rows| - 1], after);
    }
  }

  /** A page that starts after n rows holds the next rows, and its cursor is the last of them when more follow. */
  lemma PageIsNextRows(rows: seq<LedgerRecord>, n: nat, after: nat, limit: nat)
    requires SeqIncreasing(rows) && n <= |rows| && limit >= 1
    requires if n == 0 then after == 0 else after == rows[n - 1].seqNo
    ensures var p := PageAfter(rows, after, limit);
            if |rows| - n > limit then
              p == Page(EntriesOf(rows[n..n + limit]), Cursor.EncodeCursor(rows[n + limit - 1].seqNo))
            else p == Page(EntriesOf(rows[n..]), "")
  {
    BeyondIsSuffix(rows, n, after);
    if |rows| - n > limit {
      assert rows[n..][..limit + 1][..limit] == rows[n..n + limit];
    }
  }

  /**
   How long a page is. From the beginning, or from the cursor of the n-th row, the page has the wallet's next rows:
   as many as asked for when that is between 1 and 200 and otherwise 50, or fewer when no more are left, and it
   has no cursor exactly when nothing is left.
   */
  lemma PagesAreAsLongAsAsked(db: DB, walletId: Uuid, cursor: string, limit: int, n: nat)
    requires walletId in db.wallets && n <= |OfWallet(db.ledger, walletId)|
    requires SeqIncreasing(OfWallet(db.ledger, walletId)) && SeqsFitBigint(OfWallet(db.ledger, walletId))
    requires cursor == if n == 0 then "" else Cursor.EncodeCursor(OfWallet(db.ledger, walletId)[n - 1].seqNo)
    ensures var rows, r := OfWallet(db.ledger, walletId), ListLedger(db, walletId, cursor, limit);
            var asked := if 1 <= limit <= 200 then limit else 50;
            var left := |rows| - n;
            && r.Ok? && |r.value.entries| == (if asked <= left then asked else left)
            && (forall k :: 0 <= k < |r.value.entries| ==> r.value.entries[k] == rows[n + k].entry)
            && (r.value.next == "" <==> left <= asked)
  {
    hide OfWallet, Beyond, Cursor.EncodeCursor, Cursor.DecodeCursor, PageAfter;
    var rows := OfWallet(db.ledger, walletId);
    if n == 0 {
      CursorStarts();
    } else {
      Cursor.CursorRoundTrip(rows[n - 1].seqNo);
    }
    var after := if n == 0 then 0 else rows[n - 1].seqNo;
    PageIsNextRows(rows, n, after, if 1 <= limit <= 200 then limit else 50);
    if |rows| - n > (if 1 <= limit <= 200 then limit else 50) {
      Cursor.CursorRoundTrip(rows[n + (if 1 <= limit <= 200 then limit else 50) - 1].seqNo);
    }
  }

  lemma {:induction false} OfWalletGrows(ledger: seq<LedgerRecord>, ledger': seq<LedgerRecord>, walletId: Uuid)
    requires ledger <= ledger'
    ensures OfWallet(ledger, walletId) <= OfWallet(ledger', walletId)
    decreases |ledger'|
  {
    if ledger' != ledger {
      OfWalletGrows(ledger, ledger'[..|ledger'| - 1], walletId);
    }
  }

  /** The cursor the i-th page is asked for with. */
  function CursorAt(pages: seq<Page>, i: nat): string
    requires i <= |pages|
  {
    if i == 0 then "" else pages[i - 1].next
  }

  /** One page after another, each read from tables that may have grown since the one before. */
  ghost predicate Reading(tables: seq<DB>, walletId: Uuid, limits: seq<int>, pages: seq<Page>) {
    && |tables| == |limits| == |pages| >= 1
    && (forall i :: 0 <= i < |pages| ==>
                      ListLedger(tables[i], walletId, CursorAt(pages, i), limits[i]) == Ok(pages[i]))
    && (forall i :: 0 < i < |pages| ==> CursorAt(pages, i) != "")
    && (forall i :: 0 < i < |tables| ==> tables[i - 1].ledger <= tables[i].ledger)
    && (forall i :: 0 <= i < |tables| ==> SeqIncreasing(OfWallet(tables[i].ledger, walletId))
                                          && SeqsFitBigint(OfWallet(tables[i].ledger, walletId)))
  }

  function AllEntries(pages: seq<Page>): seq<LedgerEntry> {
    if pages == [] then [] else AllEntries(pages[..|pages| - 1]) + pages[|pages| - 1].entries
  }

  /** Reading has come to the n-th row, where the cursor points. */
  ghost predicate CameTo(rows: seq<LedgerRecord>, n: nat, read: seq<LedgerEntry>, next: string) {
    && n <= |rows| && read == EntriesOf(rows[..n])
    && (next == "" ==> n == |rows|)
    && (next != "" ==> n >= 1 && next == Cursor.EncodeCursor(rows[n - 1].seqNo))
  }

  lemma EntriesInTwoParts(rows: seq<LedgerRecord>, a: nat, b: nat)
    requires a <= b <= |rows|
    ensures EntriesOf(rows[..b]) == EntriesOf(rows[..a]) + EntriesOf(rows[a..b])
  {
    assert rows[..b] == rows[..a] + rows[a..b];
  }

  lemma OnePageMore(rows: seq<LedgerRecord>, before: nat, after: nat, limit: nat,
                    read: seq<LedgerEntry>) returns (n: nat)
    requires SeqIncreasing(rows) && before <= |rows| && limit >= 1 && read == EntriesOf(rows[..before])
    requires if before == 0 then after == 0 else after == rows[before - 1].seqNo
    requires SeqsFitBigint(rows)
    ensures var page := PageAfter(rows, after, limit); CameTo(rows, n, read + page.entries, page.next)
  {
    hide Beyond, Cursor.EncodeCursor, Cursor.DecodeCursor, PageAfter;
    hide EntriesOf, SeqIncreasing, Cursor.DecodeCursor;
    PageIsNextRows(rows, before, after, limit);
    n := if |rows| - before > limit then before + limit else |rows|;
    EntriesInTwoParts(rows, before, n);
    if |rows| - before > limit {
      Cursor.CursorRoundTrip(rows[n - 1].seqNo);
    } else {
      assert rows[before..] == rows[before..n];
    }
  }

  /** A cursor goes on meaning the same place when rows are added. */
  lemma StillCameTo(rows: seq<LedgerRecord>, rows': seq<LedgerRecord>, n: nat, read: seq<LedgerEntry>, next: string)
    requires CameTo(rows, n, read, next) && next != "" && rows <= rows' && SeqsFitBigint(rows')
    ensures 1 <= n <= |rows'| && read == EntriesOf(rows'[..n]) && Cursor.DecodeCursor(next) == Ok(rows'[n - 1].seqNo)
  {
    hide Cursor.EncodeCursor, Cursor.DecodeCursor;
    assert rows[..n] == rows'[..n] && rows[n - 1] == rows'[n - 1];
    Cursor.CursorRoundTrip(rows'[n - 1].seqNo);
  }

  /** What has been read so far is a prefix of the wallet's entries, ending where the last cursor points. */
  lemma {:induction false} ReadSoFar(tables: seq<DB>, walletId: Uuid, limits: seq<int>,
                                     pages: seq<Page>) returns (n: nat)
    requires Reading(tables, walletId, limits, pages)
    ensures CameTo(OfWallet(tables[|tables| - 1].ledger, walletId), n, AllEntries(pages), pages[|pages| - 1].next)
    decreases |pages|
  {
    hide OfWallet, Beyond, Cursor.EncodeCursor, Cursor.DecodeCursor, PageAfter, CameTo, SeqIncreasing, SeqsFitBigint,
      Reading, AllEntries, EntriesOf;
    LastRead(tables, walletId, limits, pages);
    var k := |pages| - 1;
    var rows := OfWallet(tables[k].ledger, walletId);
    AllEntriesLast(pages);
    if k == 0 {
      CursorStarts();
      NoEntries(rows);
      n := OnePageMore(rows, 0, 0, EffectiveLimit(limits[k]), []);
    } else {
      PrefixReads(tables, walletId, limits, pages);
      var before := ReadSoFar(tables[..k], walletId, limits[..k], pages[..k]);
      OfWalletGrows(tables[k - 1].ledger, tables[k].ledger, walletId);
      StillCameTo(OfWallet(tables[k - 1].ledger, walletId), rows, before, AllEntries(pages[..k]), pages[k - 1].next);
      n := OnePageMore(rows, before, rows[before - 1].seqNo, EffectiveLimit(limits[k]), AllEntries(pages[..k]));
    }
  }

  /** What reading says about the last page. */
  lemma LastRead(tables: seq<DB>, walletId: Uuid, limits: seq<int>, pages: seq<Page>)
    requires Reading(tables, walletId, limits, pages)
    ensures |tables| == |limits| == |pages| >= 1
    ensures var k := |pages| - 1;
            && ListLedger(tables[k], walletId, CursorAt(pages, k), limits[k]) == Ok(pages[k])
            && SeqIncreasing(OfWallet(tables[k].ledger, walletId)) && SeqsFitBigint(OfWallet(tables[k].ledger, walletId))
            && (k > 0 ==> pages[k - 1].next != "" && tables[k - 1].ledger <= tables[k].ledger)
  {
    hide OfWallet, ListLedger, SeqIncreasing, SeqsFitBigint;
    assert |pages| > 1 ==> CursorAt(pages, |pages| - 1) != "";
  }

  lemma AllEntriesLast(pages: seq<Page>)
    requires pages != []
    ensures AllEntries(pages) == AllEntries(pages[..|pages| - 1]) + pages[|pages| - 1].entries
    ensures |pages| == 1 ==> AllEntries(pages[..|pages| - 1]) == []
  {}

  lemma NoEntries(rows: seq<LedgerRecord>)
    ensures EntriesOf(rows[..0]) == []
  {}

  lemma CursorStarts()
    ensures Cursor.DecodeCursor("") == Ok(0)
  {}

  lemma PrefixReads(tables: seq<DB>, walletId: Uuid, limits: seq<int>, pages: seq<Page>)
    requires Reading(tables, walletId, limits, pages) && |pages| >= 2
    ensures var k := |pages| - 1; Reading(tables[..k], walletId, limits[..k], pages[..k])
  {
    hide OfWallet, ListLedger, SeqIncreasing, SeqsFitBigint;
    var k := |pages| - 1;
    forall i | 0 <= i < k
      ensures ListLedger(tables[..k][i], walletId, CursorAt(pages[..k], i), limits[..k][i]) == Ok(pages[..k][i])
      ensures CursorAt(pages[..k], i) == CursorAt(pages, i)
    {
      assert ListLedger(tables[i], walletId, CursorAt(pages, i), limits[i]) == Ok(pages[i]);
      assert CursorAt(pages[..k], i) == CursorAt(pages, i);
    }
  }

  /**
   Over every run: whoever follows the cursors from the beginning, with whatever limits, while entries are
   being committed, reads the wallet's entries in order without gaps or repetitions; and when the last page
   has no cursor, all of them up to that moment, so every entry that was there at the start.
   */
  lemma PagesReadEverythingOnce(cfg: Config, worlds: seq<World>, actions: seq<Action>, moments: seq<nat>,
                                walletId: Uuid,
                                limits: seq<int>, pages: seq<Page>)
    requires IsRun(cfg, worlds, actions)
    requires |moments| == |limits| == |pages| >= 1
    requires forall i :: 0 <= i < |moments| ==> moments[i] < |worlds|
    requires forall i :: 0 < i < |moments| ==> moments[i - 1] <= moments[i]
    requires forall i :: 0 <= i < |moments| ==> SeqsFitBigint(OfWallet(worlds[moments[i]].db.ledger, walletId))
    requires forall i :: 0 <= i < |pages| ==>
                           ListLedger(worlds[moments[i]].db, walletId, CursorAt(pages, i), limits[i]) == Ok(pages[i])
    requires forall i :: 0 < i < |pages| ==> CursorAt(pages, i) != ""
    ensures var first := EntriesOf(OfWallet(worlds[moments[0]].db.ledger, walletId));
            var last := EntriesOf(OfWallet(worlds[moments[|moments| - 1]].db.ledger, walletId));
            && AllEntries(pages) <= last && first <= last
            && (pages[|pages| - 1].next == "" ==> AllEntries(pages) == last)
  {
    hide IsRun, OfWallet, ListLedger, Inv, SeqIncreasing, SeqsFitBigint, CursorAt, AllEntries, RowsKeep;
    var tables := seq(|moments|, i requires 0 <= i < |moments| => worlds[moments[i]].db);
    TablesOfRun(cfg, worlds, actions, moments, walletId);
    assert Reading(tables, walletId, limits, pages);
    var n := ReadSoFar(tables, walletId, limits, pages);
    MomentsOrdered(moments, |moments| - 1);
    FinishedRowsAreFrozen(cfg, worlds, actions, moments[0], moments[|moments| - 1]);
    OfWalletGrows(worlds[moments[0]].db.ledger, worlds[moments[|moments| - 1]].db.ledger, walletId);
    var rows := OfWallet(worlds[moments[|moments| - 1]].db.ledger, walletId);
    assert EntriesOf(rows[..n]) == EntriesOf(rows)[..n];
    assert rows[..|rows|] == rows;
  }

  lemma TablesOfRun(cfg: Config, worlds: seq<World>, actions: seq<Action>, moments: seq<nat>, walletId: Uuid)
    requires IsRun(cfg, worlds, actions)
    requires forall i :: 0 <= i < |moments| ==> moments[i] < |worlds|
    requires forall i :: 0 < i < |moments| ==> moments[i - 1] <= moments[i]
    ensures forall i :: 0 <= i < |moments| ==> SeqIncreasing(OfWallet(worlds[moments[i]].db.ledger, walletId))
    ensures forall i :: 0 < i < |moments| ==> worlds[moments[i - 1]].db.ledger <= worlds[moments[i]].db.ledger
  {
    hide IsRun, OfWallet, Inv, SeqIncreasing, RowsKeep;
    forall i | 0 <= i < |moments| ensures SeqIncreasing(OfWallet(worlds[moments[i]].db.ledger, walletId)) {
      RunsAreSafe(cfg, worlds, actions, moments[i]);
      LedgerIncreases(cfg, worlds[moments[i]], walletId);
    }
    forall i | 0 < i < |moments| ensures worlds[moments[i - 1]].db.ledger <= worlds[moments[i]].db.ledger {
      FinishedRowsAreFrozen(cfg, worlds, actions, moments[i - 1], moments[i]);
    }
  }

  lemma {:induction false} MomentsOrdered(moments: seq<nat>, k: nat)
    requires k < |moments| && forall i :: 0 < i < |moments| ==> moments[i - 1] <= moments[i]
    ensures moments[0] <= moments[k]
  {
    if k > 0 {
      MomentsOrdered(moments, k - 1);
    }
  }

  lemma LedgerIncreases(cfg: Config, w: World, walletId: Uuid)
    requires Inv(cfg, w)
    ensures SeqIncreasing(OfWallet(w.db.ledger, walletId))
  {
    hide TablesOk, EventsOk, InboxOk, EntriesOk, EntriesDistinct, EntriesComplete, ReferencesPrecede, ProcsOk,
      LocksExclude, IdsOk, MailOk, RepliesOk, SeqsOk;
    if walletId in w.db.wallets {
      assert WalletLedgerOk(w.db.txs, OfWallet(w.db.ledger, walletId), w.db.wallets[walletId]);
    } else {
      assert OfWallet(w.db.ledger, walletId) == [];
    }
  }
}
