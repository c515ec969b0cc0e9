/** The converse of the composition: every run of the protocol is a run of single statements. */
module Realization {
  import opened Credits
  import opened Settlement
  import opened Refinement
  import opened Composition
  import S = Schedules
  import P = Protocol
  import T = Transactions

  lemma {:induction false} RunAppend(s: State, a: seq<Label>, b: seq<Label>)
    ensures Run(s, a + b) == Run(Run(s, a), b)
  {
    if b == [] {
      assert a + b == a;
    } else {
      hide Next;
      RunAppend(s, a, b[..|b| - 1]);
      assert (a + b)[..|a + b| - 1] == a + b[..|b| - 1];
    }
  }

  lemma RunOne(s: State, l: Label)
    ensures Run(s, [l]) == Next(s, l)
  {
    hide Next;
    assert [l][..0] == [];
  }

  ghost predicate OfTransaction0(fs: seq<T.Label>) {
    forall k :: 0 <= k < |fs| ==> Owner(fs[k]) == Some(0)
  }

  function Statements(fs: seq<T.Label>): seq<Label> {
    if fs == [] then [] else Statements(fs[..|fs| - 1]) + [Statement(fs[|fs| - 1])]
  }

  /** A caller alone in the database either still waits, or its transaction has committed or ended
      otherwise and it has moved on. */
  ghost predicate Answered(v: P.State, call: Call, n: State, items: seq<T.Item>) {
    if n.pending == map[] then
      StepOf(v, call, items != []).Some? && View(n) == P.Next(v, StepOf(v, call, items != []).value)
    else n.pending == map[0 := call] && View(n) == v && items == []
  }

  /** A commit commits something, another end nothing. */
  lemma EndsWithItems(s: State, l: T.Label, after: T.Db)
    requires Inv(s) && Owner(l) == Some(0) && after == T.Next(s.db, l) && Ends(s, 0, after)
    ensures T.Commits(s.db, l) != [] <==> l.Commit?
  {
    hide P.Next, StepOf, T.DoSelect, T.DoUpdate, T.DoInsert, T.DoWriteTail;
  }

  lemma StatementShape(m: State, l: T.Label, after: T.Db)
    requires Inv(m) && Owner(l) == Some(0) && after == T.Next(m.db, l)
    ensures var n := Next(m, Statement(l));
            && Inv(n) && n.db == after
            && (if Ends(m, 0, after) then
                  && StepOf(View(m), m.pending[0], l.Commit?).Some? && n.pending == m.pending - {0}
                  && View(n) == P.Next(View(m), StepOf(View(m), m.pending[0], l.Commit?).value)
                else n.pending == m.pending && View(n) == View(m) && T.Commits(m.db, l) == [])
  {
    StatementRefines(m, l);
    StatementKeepsInv(m, l);
    if Ends(m, 0, after) {
      AbortedToo(View(m), m.pending[0]);
    } else {
      RunningCommitsNothing(m, l, 0);
    }
    hide Inv, P.Next, T.Next, T.Commits, StepOf, Items, CodesReward;
  }

  lemma OneStatement(v: P.State, call: Call, m: State, l: T.Label, items: seq<T.Item>)
    requires Inv(m) && Owner(l) == Some(0) && Answered(v, call, m, items)
    ensures var n := Next(m, Statement(l));
            Inv(n) && n.db == T.Next(m.db, l) && Answered(v, call, n, items + T.Commits(m.db, l))
  {
    var after := T.Next(m.db, l);
    hide Inv, Next, P.Next, T.Next, T.Commits, StepOf;
    StatementShape(m, l, after);
    if Ends(m, 0, after) {
      EndsWithItems(m, l, after);
      assert m.pending - {0} == map[];
    } else {
      assert items + [] == items;
    }
  }

  lemma {:induction false} CallerIsAnswered(s: State, call: Call, fs: seq<T.Label>)
    requires Inv(s) && s.pending == map[0 := call] && OfTransaction0(fs)
    ensures var n := Run(s, Statements(fs));
            Inv(n) && n.db == T.Run(s.db, fs) && Answered(View(s), call, n, T.CommitOrder(s.db, fs))
  {
    if fs == [] {
      assert Run(s, []) == s && T.Run(s.db, []) == s.db && T.CommitOrder(s.db, []) == [];
    } else {
      hide Inv, Answered, Next, T.Next, T.Commits;
      var init, l := fs[..|fs| - 1], fs[|fs| - 1];
      CallerIsAnswered(s, call, init);
      var m := Run(s, Statements(init));
      RunAppend(s, Statements(init), [Statement(l)]);
      RunOne(m, Statement(l));
      OneStatement(View(s), call, m, l, T.CommitOrder(s.db, init));
    }
  }

  // ---- Steps of the protocol ----

  /** A refused operation and an aborted one are the same step. */
  lemma RefusedIsAborted(v: P.State, call: Call)
    requires CallOperation(v, call).Some? && Outcome(v.db, CallOperation(v, call).value).None?
    ensures StepOf(v, call, false).Some?
    ensures P.Next(v, StepOf(v, call, true).value) == P.Next(v, StepOf(v, call, false).value)
  {
    hide ReserveForUser, Release, AdminAdjust, FinalizeUsage, P.AfterDispatch, P.H.Next;
  }

  /** The state after which nothing runs. */
  ghost predicate Quiet(s: State) {
    Inv(s) && T.Start(s.db)
  }

  lemma QuietIsFree(s: State, call: Call)
    requires Quiet(s)
    ensures s.pending == map[] && (CallOperation(View(s), call).Some? ==> CanBegin(s, 0, call))
  {
    hide T.Inv, CallOperation, OneEach;
  }

  lemma Begun(s: State, call: Call) returns (n: State)
    requires Quiet(s) && CallOperation(View(s), call).Some? && Proper(CallOperation(View(s), call).value)
    ensures n == Next(s, Begin(0, call)) && Inv(n) && n.pending == map[0 := call] && View(n) == View(s)
    ensures ItemOf(CallOperation(View(s), call).value).Whole?
    ensures n.db == T.Next(s.db, T.Begin(0, ItemOf(CallOperation(View(s), call).value).work))
  {
    n := Next(s, Begin(0, call));
    QuietIsFree(s, call);
    CallFacts(View(s), call);
    BegunKeepsInv(s, 0, call);
    hide Inv, T.Inv, CallOperation, Proper, ItemOf;
  }

  lemma QuietAgain(n: State)
    requires Inv(n) && T.Start(n.db)
    ensures n.pending == map[]
  {
    hide T.Inv, PendingOk;
  }

  lemma Aborts(s: State, call: Call) returns (ls: seq<Label>)
    requires Quiet(s) && CallOperation(View(s), call).Some? && Proper(CallOperation(View(s), call).value)
    ensures Quiet(Run(s, ls))
    ensures StepOf(View(s), call, false).Some?
    ensures View(Run(s, ls)) == P.Next(View(s), StepOf(View(s), call, false).value)
  {
    var work := ItemOf(CallOperation(View(s), call).value).work;
    var n := Begun(s, call);
    RollbackFrees(s.db, work);
    hide Inv, Next, T.Next, P.Next, CallOperation, Proper, ItemOf, StepOf, Run, Statements, T.Run, T.CommitOrder;
    ls := [Begin(0, call)] + Statements([T.Rollback(0)]);
    CallerIsAnswered(n, call, [T.Rollback(0)]);
    RunOne(s, Begin(0, call));
    RunAppend(s, [Begin(0, call)], Statements([T.Rollback(0)]));
    S.RunOne(n.db, T.Rollback(0));
    QuietAgain(Run(s, ls));
  }

  lemma RollbackFrees(db: T.Db, work: T.Work)
    requires T.Start(db)
    ensures var n := T.Next(db, T.Begin(0, work));
            T.Start(T.Next(n, T.Rollback(0))) && T.Commits(n, T.Rollback(0)) == []
  {
  }

  lemma Commits(s: State, call: Call) returns (ls: seq<Label>)
    requires Quiet(s) && CallOperation(View(s), call).Some? && Proper(CallOperation(View(s), call).value)
    requires Outcome(s.db.tables, CallOperation(View(s), call).value).Some?
    ensures Quiet(Run(s, ls))
    ensures View(Run(s, ls)) == P.Next(View(s), StepOf(View(s), call, true).value)
  {
    var o := CallOperation(View(s), call).value;
    var n := Begun(s, call);
    OperationIsAtomic(s.db.tables, o);
    hide Next, T.Inv, T.Next, P.Next, CallOperation, Proper, ItemOf, StepOf, Run, Statements, T.Run, T.CommitOrder,
      Outcome, T.Atomic, T.Commits, OneEach, AllPendingOk;
    var fs := S.TransactionRuns(s.db, ItemOf(o).work);
    CommitsAfterBegin(s.db, fs, ItemOf(o).work, n.db);
    ls := [Begin(0, call)] + Statements(fs[1..]);
    CallerIsAnswered(n, call, fs[1..]);
    RunOne(s, Begin(0, call));
    RunAppend(s, [Begin(0, call)], Statements(fs[1..]));
    QuietAgain(Run(s, ls));
  }

  lemma CommitsAfterBegin(db: T.Db, fs: seq<T.Label>, work: T.Work, n: T.Db)
    requires S.IsOne(fs, work) && T.CommitOrder(db, fs) == [T.Whole(work)] && T.Start(T.Run(db, fs))
    requires n == T.Next(db, T.Begin(0, work))
    ensures OfTransaction0(fs[1..]) && T.CommitOrder(n, fs[1..]) == [T.Whole(work)] && T.Start(T.Run(n, fs[1..]))
  {
    assert fs == [T.Begin(0, work)] + fs[1..];
    hide T.Next, T.Run, T.CommitOrder;
    S.RunAppend(db, [T.Begin(0, work)], fs[1..]);
    S.RunOne(db, T.Begin(0, work));
    assert [] + T.CommitOrder(n, fs[1..]) == T.CommitOrder(n, fs[1..]);
  }

  /** Every call can be answered either way its operation allows. */
  lemma CallRuns(s: State, call: Call, ok: bool) returns (ls: seq<Label>)
    requires Quiet(s) && CallOperation(View(s), call).Some? && StepOf(View(s), call, ok).Some?
    ensures Quiet(Run(s, ls)) && View(Run(s, ls)) == P.Next(View(s), StepOf(View(s), call, ok).value)
  {
    var o := CallOperation(View(s), call).value;
    CallFacts(View(s), call);
    if Outcome(s.db.tables, o).None? {
      RefusedIsAborted(View(s), call);
    }
    hide Quiet, Run, P.Next, CallOperation, Outcome, ItemOf, CodesReward, StepOf, Proper;
    if !Proper(o) {
      ls := Refused(s, call);
    } else if ok && Outcome(s.db.tables, o).Some? {
      ls := Commits(s, call);
    } else {
      ls := Aborts(s, call);
    }
  }

  lemma Refused(s: State, call: Call) returns (ls: seq<Label>)
    requires Quiet(s) && CallOperation(View(s), call).Some? && !Proper(CallOperation(View(s), call).value)
    ensures Quiet(Run(s, ls)) && View(Run(s, ls)) == P.Next(View(s), StepOf(View(s), call, true).value)
  {
    QuietIsFree(s, call);
    BeginRefines(s, 0, call);
    RefusedKeepsInv(s, 0, call);
    hide Inv, P.Next, CallOperation, Proper, StepOf, Run, Items, CodesReward;
    ls := [Begin(0, call)];
    RunOne(s, Begin(0, call));
  }

  lemma PlainRuns(s: State, l: P.Label) returns (ls: seq<Label>)
    requires Quiet(s) && IsPlain(l)
    ensures Quiet(Run(s, ls)) && View(Run(s, ls)) == P.Next(View(s), l)
  {
    hide Inv, P.Next, OperationOf, Run, Items, CodesReward;
    PlainRefines(s, l);
    PlainKeepsInv(s, l);
    ls := [Plain(l)];
    RunOne(s, Plain(l));
  }

  /** The call a step of the protocol stands for, if it is enabled. */
  function CallOf(l: P.Label): Call
    requires !IsPlain(l)
  {
    match l
    case Adjust(w, amount, reason, _) => OfAdministrator(w, amount, reason)
    case ReserveCredits(i, _) => OfRequest(i)
    case ReleaseCredits(i, _) => OfRequest(i)
    case Finalize(i, _, _) => OfRequest(i)
  }

  lemma EnabledOrNothing(v: P.State, l: P.Label)
    requires !IsPlain(l) && CodesReward(v, l)
    ensures P.Next(v, l) == v
            || (CallOperation(v, CallOf(l)).Some? && StepOf(v, CallOf(l), l.ok) == Some(l))
  {
    hide P.DoReserve, P.DoRelease, P.DoFinalize, P.DoAdjust;
  }

  lemma StepRuns(s: State, l: P.Label) returns (ls: seq<Label>)
    requires Quiet(s) && CodesReward(View(s), l)
    ensures Quiet(Run(s, ls)) && View(Run(s, ls)) == P.Next(View(s), l)
  {
    hide Quiet, P.Next, CallOperation, StepOf, CodesReward;
    if IsPlain(l) {
      ls := PlainRuns(s, l);
    } else {
      EnabledOrNothing(View(s), l);
      if P.Next(View(s), l) == View(s) {
        ls := [];
      } else {
        ls := CallRuns(s, CallOf(l), l.ok);
      }
    }
  }

  /** Every run of the protocol is a run of single statements, after which nothing is left running. With
      StatementsRefineProtocol: the interleaved statements reach exactly what the protocol reaches. */
  lemma {:induction false} ProtocolIsReached(ls: seq<P.Label>) returns (ms: seq<Label>)
    requires CodesRewards(ls)
    ensures View(Run(INIT, ms)) == P.Run(P.INIT, ls)
    ensures Inv(Run(INIT, ms)) && T.Start(Run(INIT, ms).db)
  {
    if ls == [] {
      ms := [];
      InitIsEmpty();
    } else {
      hide Inv, P.Next, Next, CodesReward, T.Start;
      var init := ProtocolIsReached(ls[..|ls| - 1]);
      var s := Run(INIT, init);
      var more := StepRuns(s, ls[|ls| - 1]);
      RunAppend(INIT, init, more);
      ms := init + more;
    }
  }
}
