/** The converse of serializability: every serial order is a run of single statements. */
module Schedules {
  import opened Credits
  import opened Settlement
  import opened Transactions

  lemma {:induction false} RunAppend(db: Db, a: seq<Label>, b: seq<Label>)
    ensures Run(db, a + b) == Run(Run(db, a), b)
    ensures CommitOrder(db, a + b) == CommitOrder(db, a) + CommitOrder(Run(db, a), b)
  {
    hide Next, Commits;
    if b == [] {
      assert a + b == a;
      assert CommitOrder(db, a) + [] == CommitOrder(db, a);
    } else {
      var init := b[..|b| - 1];
      RunAppend(db, a, init);
      assert (a + b)[..|a + b| - 1] == a + init;
      var x, y := CommitOrder(db, a), CommitOrder(Run(db, a), init);
      var z := Commits(Run(Run(db, a), init), b[|b| - 1]);
      assert (x + y) + z == x + (y + z);
    }
  }

  lemma RunOne(db: Db, l: Label)
    ensures Run(db, [l]) == Next(db, l) && CommitOrder(db, [l]) == Commits(db, l)
  {
    hide Next, Commits;
    assert [l][..0] == [];
    assert [] + Commits(db, l) == Commits(db, l);
  }

  /** One more step after a run. */
  lemma Then(db: Db, ls: seq<Label>, s: Db, items: seq<Item>, l: Label) returns (more: seq<Label>)
    requires Run(db, ls) == s && CommitOrder(db, ls) == items
    ensures Run(db, more) == Next(s, l) && CommitOrder(db, more) == items + Commits(s, l) && more == ls + [l]
  {
    hide Next, Commits;
    RunAppend(db, ls, [l]);
    RunOne(s, l);
    more := ls + [l];
  }

  /** Transaction 0 alone, after k of its ledger entries. */
  ghost predicate Alone0(db: Db, work: Work, k: nat, s: Db) {
    && Inv(s) && s.tables == db.tables && s.claims == map[]
    && s.locks == (if k == 0 then map[] else map[work.wallet := 0])
    && 0 in s.txs && s.txs == map[0 := s.txs[0]]
    && s.txs[0].work == work && s.txs[0].done == k && s.txs[0].stage == Idle && s.txs[0].written == Unwritten
  }

  lemma {:induction false} PrefixAccepted(a: Account, ops: seq<Op>, k: nat)
    requires RunOps(a, ops).Some? && k <= |ops|
    ensures RunOps(a, ops[..k]).Some?
    decreases |ops|
  {
    if k < |ops| {
      PrefixAccepted(a, ops[..|ops| - 1], k);
      assert ops[..|ops| - 1][..k] == ops[..k];
    } else {
      assert ops[..k] == ops;
    }
  }

  lemma NextOpAccepted(accounts: seq<Account>, tx: Tx)
    requires tx.work.wallet < |accounts| && RunOps(accounts[tx.work.wallet], tx.work.ops).Some?
    requires HolderOk(accounts, tx) && tx.stage.Selected? && tx.done < |tx.work.ops|
    ensures Updating(tx).Some?
  {
    hide Wrap64;
    PrefixAccepted(accounts[tx.work.wallet], tx.work.ops, tx.done + 1);
    assert tx.work.ops[..tx.done + 1][..tx.done] == tx.work.ops[..tx.done];
  }

  /** Select, update and insert of one accepted entry. */
  lemma OneEntry(db: Db, work: Work, k: nat, s: Db) returns (s1: Db, s2: Db, s3: Db)
    requires Alone0(db, work, k, s) && k < |work.ops|
    requires work.wallet < |db.tables.accounts| && RunOps(db.tables.accounts[work.wallet], work.ops).Some?
    ensures s1 == Next(s, SelectForUpdate(0)) && s2 == Next(s1, Update(0)) && s3 == Next(s2, Insert(0))
    ensures Alone0(db, work, k + 1, s3)
  {
    hide Inv, HolderOk, Updating;
    s1 := Next(s, SelectForUpdate(0));
    NextKeepsInv(s, SelectForUpdate(0));
    assert CanSelect(s, 0);
    Held(s1, 0);
    NextOpAccepted(s1.tables.accounts, s1.txs[0]);
    s2 := Next(s1, Update(0));
    NextKeepsInv(s1, Update(0));
    UpdatedFrom(s1.txs[0]);
    s3 := Next(s2, Insert(0));
    NextKeepsInv(s2, Insert(0));
  }

  lemma Held(s: Db, t: nat)
    requires Inv(s) && Holds(s, t)
    ensures HolderOk(s.tables.accounts, s.txs[t])
  {
    hide HolderOk;
    assert LedgerOk(s.tables.accounts, s.txs[t], Holds(s, t));
  }

  lemma UpdatedFrom(tx: Tx)
    requires tx.stage.Selected? && tx.done < |tx.work.ops| && Updating(tx).Some?
    ensures var u := Updating(tx).value;
            u.stage == Updated && u.work == tx.work && u.done == tx.done && u.written == tx.written
  {
  }

  /** A transaction 0 begins and does the rest of its statements. */
  ghost predicate IsOne(ls: seq<Label>, work: Work) {
    |ls| > 0 && ls[0] == Begin(0, work) && Rest(ls[1..])
  }

  ghost predicate Rest(ls: seq<Label>) {
    forall k :: 0 <= k < |ls| ==> !ls[k].Begin? && !ls[k].Execute? && ls[k].t == 0
  }

  lemma {:induction false} EntriesRun(db: Db, work: Work, k: nat) returns (ls: seq<Label>, s: Db)
    requires Start(db) && Inv(db) && k <= |work.ops|
    requires work.ops != [] ==>
               work.wallet < |db.tables.accounts| && RunOps(db.tables.accounts[work.wallet], work.ops).Some?
    ensures Run(db, ls) == s && CommitOrder(db, ls) == [] && Alone0(db, work, k, s)
    ensures IsOne(ls, work)
  {
    hide Next, Inv, RunOps, Run, CommitOrder;
    if k == 0 {
      ls, s := Begins(db, work);
    } else {
      var ls0, s0 := EntriesRun(db, work, k - 1);
      var s1, s2, s3 := OneEntry(db, work, k - 1, s0);
      var ls1 := Then(db, ls0, s0, [], SelectForUpdate(0));
      var ls2 := Then(db, ls1, s1, [], Update(0));
      ls := Then(db, ls2, s2, [], Insert(0));
      s := s3;
    }
  }

  lemma Begins(db: Db, work: Work) returns (ls: seq<Label>, s: Db)
    requires Start(db) && Inv(db)
    ensures Run(db, ls) == s && CommitOrder(db, ls) == [] && Alone0(db, work, 0, s)
    ensures IsOne(ls, work)
  {
    hide Inv, Run, CommitOrder;
    ls := [Begin(0, work)];
    RunOne(db, Begin(0, work));
    s := Next(db, Begin(0, work));
    NextKeepsInv(db, Begin(0, work));
  }

  /** All entries are written: the tail, and the commit. */
  lemma TailRun(db: Db, work: Work, s: Db) returns (ls: seq<Label>)
    requires Alone0(db, work, |work.ops|, s)
    requires work.tail.Record? ==> RecordAllowed(s.tables, work.tail.usage)
    ensures CommitOrder(s, ls) == [Whole(work)] && Start(Run(s, ls)) && Rest(ls)
  {
    hide Inv, Run, CommitOrder, RecordAllowed;
    if work.tail.Nothing? {
      RunOne(s, Commit(0));
      ls := [Commit(0)];
    } else {
      var s1 := Next(s, WriteTail(0));
      RunOne(s, WriteTail(0));
      FitsIfAllowed(s.tables, work.tail);
      var ls1 := [WriteTail(0)];
      if work.tail.Audit? {
        ls := Then(s, ls1, s1, [], Commit(0));
      } else {
        var s2 := Next(s1, MarkSucceeded(0));
        var ls2 := Then(s, ls1, s1, [], MarkSucceeded(0));
        ls := Then(s, ls2, s2, [], Commit(0));
      }
    }
  }

  lemma FitsIfAllowed(tables: Tables, tail: Tail)
    requires tail.Record? ==> RecordAllowed(tables, tail.usage)
    ensures tail.Record? ==> FitsUsage(tail.usage.measured)
  {
  }

  lemma TransactionRuns(db: Db, work: Work) returns (ls: seq<Label>)
    requires Start(db) && Inv(db) && Atomic(db.tables, Whole(work)).Some?
    ensures CommitOrder(db, ls) == [Whole(work)] && Start(Run(db, ls)) && IsOne(ls, work)
  {
    hide Inv, Run, CommitOrder, RecordAllowed;
    var ls1, s := EntriesRun(db, work, |work.ops|);
    var ls2 := TailRun(db, work, s);
    RunAppend(db, ls1, ls2);
    ls := ls1 + ls2;
    assert [] + [Whole(work)] == [Whole(work)];
  }

  lemma StatementRuns(db: Db, q: Single) returns (ls: seq<Label>)
    requires Start(db) && Perform(db.tables, q).Some?
    ensures CommitOrder(db, ls) == [Alone(q)] && Start(Run(db, ls))
  {
    hide Perform, Run, CommitOrder;
    RunOne(db, Execute(q));
    ls := [Execute(q)];
  }

  lemma ItemRuns(s: Db, item: Item) returns (ls: seq<Label>)
    requires Start(s) && Inv(s) && Atomic(s.tables, item).Some?
    ensures CommitOrder(s, ls) == [item] && Start(Run(s, ls))
  {
    match item
    case Whole(work) => ls := TransactionRuns(s, work);
    case Alone(q) => ls := StatementRuns(s, q);
  }

  lemma NothingRuns(db: Db)
    ensures Run(db, []) == db && CommitOrder(db, []) == []
  {
  }

  /** Every serial order of accepted transactions and statements is what some run commits. With
      RunsAreSerial: interleaving adds no result, and loses none. */
  lemma {:induction false} SerialOrdersRun(db: Db, items: seq<Item>) returns (ls: seq<Label>)
    requires Start(db) && Serial(db.tables, items).Some?
    ensures CommitOrder(db, ls) == items && Start(Run(db, ls))
    ensures Run(db, ls).tables == Serial(db.tables, items).value
  {
    hide Run, CommitOrder, Inv, Atomic, Start;
    if items == [] {
      ls := [];
      NothingRuns(db);
    } else {
      var init, item := items[..|items| - 1], items[|items| - 1];
      var ls1 := SerialOrdersRun(db, init);
      RunsAreSerial(db, ls1);
      var ls2 := ItemRuns(Run(db, ls1), item);
      assert items == init + [item];
      RunAppend(db, ls1, ls2);
      ls := ls1 + ls2;
      hide Serial;
      RunsAreSerial(db, ls);
    }
  }
}
