/** What requests reserve, what they are charged, and what their job rows say, over whole runs. */
module Requests {
  import opened Credits
  import opened Settlement
  import opened Text
  import opened Billing
  import opened Protocol
  import opened Amounts
  import G = Guarantees
  import H = Hub

  // ---- Reservations ----

  /** Request i was created by step k, */
  ghost predicate CreatedBy(ls: seq<Label>, k: nat, j: Job) {
    k < |ls| && ls[k] == Create(j.id, j.wallet, j.terms)
  }

  /** with its own job id, wallet and terms, and it carries their quote. */
  ghost predicate Asked(ls: seq<Label>, j: Job) {
    j.quote == Quote(j.terms) && exists k: nat :: CreatedBy(ls, k, j)
  }

  lemma IdentityStays(s: State, l: Label, i: nat)
    requires i < |s.jobs|
    ensures i < |Next(s, l).jobs|
    ensures var j, n := s.jobs[i], Next(s, l).jobs[i];
            n.id == j.id && n.wallet == j.wallet && n.terms == j.terms && n.quote == j.quote
  {
    hide Charge, Quote, AdminAdjust, Register, ReserveForUser, Release, FinalizeUsage, CreateJob, MarkJob, H.Next;
  }

  lemma NewIsAsked(s: State, l: Label)
    requires |Next(s, l).jobs| > |s.jobs|
    ensures |Next(s, l).jobs| == |s.jobs| + 1
    ensures var j := Next(s, l).jobs[|s.jobs|]; l == Create(j.id, j.wallet, j.terms) && j.quote == Quote(j.terms)
  {
    hide Charge, Quote, AdminAdjust, Register, ReserveForUser, Release, FinalizeUsage, CreateJob, MarkJob, H.Next;
  }

  lemma {:induction false} EveryJobIsAsked(ls: seq<Label>, i: nat)
    requires i < |Run(INIT, ls).jobs|
    ensures Asked(ls, Run(INIT, ls).jobs[i])
  {
    if ls != [] {
      hide Next, Quote;
      var init, l := ls[..|ls| - 1], ls[|ls| - 1];
      var s := Run(INIT, init);
      var j := Run(INIT, ls).jobs[i];
      if i < |s.jobs| {
        EveryJobIsAsked(init, i);
        IdentityStays(s, l, i);
        var k: nat :| CreatedBy(init, k, s.jobs[i]);
        assert CreatedBy(ls, k, j);
      } else {
        NewIsAsked(s, l);
        assert CreatedBy(ls, |init|, j);
      }
    }
  }

  /** In every reachable state a request is accepted into the job table exactly when its public id is new and its
      estimate and limit fit their columns. */
  lemma CreationIff(ls: seq<Label>, id: nat, w: nat, t: Terms)
    ensures var s := Run(INIT, ls); var n := Next(s, Create(id, w, t));
            if (exists i :: 0 <= i < |s.jobs| && s.jobs[i].id == id) || (t.inputChars + 3) / 4 >= 0x8000_0000 ||
               !(-0x8000_0000 <= t.maxTokens < 0x8000_0000)
            then n == s
            else
              && |n.jobs| == |s.jobs| + 1 && n.jobs[..|s.jobs|] == s.jobs
              && n.jobs[|s.jobs|].phase == Created && n.db.status == s.db.status + [Queued]
              && n.db.accounts == s.db.accounts && n.db.usage == s.db.usage
  {
    Reachable(ls);
    var s := Run(INIT, ls);
    hide Run, Quote;
    IdsInTable(s, id);
    hide Inv;
  }

  lemma IdsInTable(s: State, id: nat)
    requires Inv(s)
    ensures id in s.db.ids <==> exists i :: 0 <= i < |s.jobs| && s.jobs[i].id == id
  {
    hide Books, Protocol.Requests, HubOk;
    if id in s.db.ids {
      var i :| 0 <= i < |s.db.ids| && s.db.ids[i] == id;
      assert s.jobs[i].id == id;
    }
    if i :| 0 <= i < |s.jobs| && s.jobs[i].id == id {
      assert s.db.ids[i] == id;
    }
  }

  /** In every reachable state every request reserves, or tried to reserve, exactly the price of its estimated
      input and its token limit at the rates it was created with. */
  lemma ReservationsAreExact(ls: seq<Label>, i: nat)
    requires i < |Run(INIT, ls).jobs|
    ensures var j := Run(INIT, ls).jobs[i];
            && (exists k: nat :: CreatedBy(ls, k, j))
            && (ExactParts((j.terms.inputChars + 3) / 4, j.terms.maxTokens, j.terms) ==>
                  j.quote == ((j.terms.inputChars + 3) / 4 * j.terms.inputPer1K + 999) / 1000 +
                             (j.terms.maxTokens * j.terms.outputPer1K + 999) / 1000)
  {
    hide Run, Quote, ExactParts;
    EveryJobIsAsked(ls, i);
    var t := Run(INIT, ls).jobs[i].terms;
    if ExactParts((t.inputChars + 3) / 4, t.maxTokens, t) {
      QuoteIsPrice(t);
    }
  }

  /** A reservation is accepted, unless the database aborts it, exactly when the credits are there. */
  lemma ReservationIff(ls: seq<Label>, i: nat)
    requires In(Run(INIT, ls), i, Created)
    ensures var s := Run(INIT, ls); var j := s.jobs[i];
            Next(s, ReserveCredits(i, true)).jobs[i].phase ==
            if j.wallet < |s.db.accounts| && 0 < j.quote <= s.db.accounts[j.wallet].balance &&
               s.db.accounts[j.wallet].reserved + j.quote <= MAX_INT64
            then Reserved else Refused
  {
    Reachable(ls);
    var s := Run(INIT, ls);
    hide Run;
    JobFacts(s, i);
    SoundInRange(s.db.accounts);
    hide Inv, ReserveForUser;
    ReserveAccepts(s.db, s.jobs[i].wallet, s.jobs[i].quote);
  }

  // ---- Charges ----

  /** The record is of the result its request consumed, with that request's tokens and latency, and in the
      exact range it costs the price of these tokens, at most the reservation. */
  predicate RecordIsExact(s: State, u: Usage) {
    && u.job < |s.jobs| && u.job in s.hub.dispatches
    && s.hub.dispatches[u.job].stage.Returned? && s.hub.dispatches[u.job].stage.outcome.Received?
    && var j, r := s.jobs[u.job], s.hub.dispatches[u.job].stage.outcome.result;
       var (prompt, completion) := Tokens(j.terms, r);
       && r.job == j.id && r.errorCode == ""
       && u.measured == Measured(prompt, completion, r.latency)
       && (ExactParts(prompt, completion, j.terms) ==>
             var price := (prompt * j.terms.inputPer1K + 999) / 1000 + (completion * j.terms.outputPer1K + 999) / 1000;
             u.cost == if price > j.quote then j.quote else price)
  }

  lemma RecordsAreExact(ls: seq<Label>, k: nat)
    requires k < |Run(INIT, ls).db.usage|
    ensures RecordIsExact(Run(INIT, ls), Run(INIT, ls).db.usage[k])
  {
    hide Run, Inv, G.Billed, RecordIsExact;
    G.ReachableBilled(ls);
    Reachable(ls);
    var s := Run(INIT, ls);
    RecordHasBill(s, k);
    G.OwnResult(s, s.db.usage[k].job);
    BilledIsExact(s, s.db.usage[k]);
  }

  lemma RecordHasBill(s: State, k: nat)
    requires G.Billed(s) && k < |s.db.usage|
    ensures s.db.usage[k].job < |s.jobs|
    ensures G.BillOf(s, s.db.usage[k].job) == Some(G.BillIn(s.db.usage[k]))
  {
    hide Charge;
    assert G.BillOf(s, s.db.usage[k].job) == Some(G.BillIn(s.db.usage[k]));
  }

  lemma BilledIsExact(s: State, u: Usage)
    requires u.job < |s.jobs| && G.BillOf(s, u.job) == Some(G.BillIn(u))
    requires GotResult(s.hub.dispatches, u.job) ==>
               s.hub.dispatches[u.job].stage.outcome.result.job == s.jobs[u.job].id
    ensures RecordIsExact(s, u)
  {
    hide Charge, Tokens, ExactParts;
    var j, r := s.jobs[u.job], s.hub.dispatches[u.job].stage.outcome.result;
    ChargeMeasures(j.terms, j.quote, r);
    if ExactParts(Tokens(j.terms, r).0, Tokens(j.terms, r).1, j.terms) {
      ChargeIsPrice(j.terms, j.quote, r);
    }
  }

  // ---- Job rows ----

  /** What the job row of request i says when no status update is lost. */
  ghost predicate RowOk(s: State, i: nat) {
    && i < |s.jobs| && i < |s.db.status|
    && match s.jobs[i].phase
       case Created => s.db.status[i] == Queued
       case Refused => s.db.status[i] == Queued
       case Reserved => s.db.status[i] == Queued
       case Done =>
         s.db.status[i] ==
         if s.jobs[i].settled == 1 then Succeeded
         else if GotResult(s.hub.dispatches, i) then Dispatched
         else Failed
       case _ => s.db.status[i] == Dispatched
  }

  /** The database aborts no status update. */
  predicate MarkWorks(l: Label) {
    (l.MarkDispatched? || l.MarkFailed?) ==> l.ok
  }

  ghost predicate MarksWork(ls: seq<Label>) {
    ls == [] || (MarksWork(ls[..|ls| - 1]) && MarkWorks(ls[|ls| - 1]))
  }

  lemma StatusStays(s: State, l: Label, i: nat)
    requires Inv(s) && i < |s.db.status| && !G.ActsOn(l, i)
    ensures i < |Next(s, l).db.status| && Next(s, l).db.status[i] == s.db.status[i]
  {
    hide Inv, Charge, Quote, Post, FinalizeAccounts, FitsUsage, Blank, TrimSpace, H.Next;
  }

  lemma ResultStays(s: State, l: Label, i: nat)
    requires i < |s.jobs| && s.jobs[i].phase.Done? && (DispatchReturned(s, i) || i !in s.hub.dispatches)
    ensures GotResult(Next(s, l).hub.dispatches, i) <==> GotResult(s.hub.dispatches, i)
  {
    if DispatchReturned(s, i) {
      hide Next;
      G.ReturnedStays(s, l, i);
    } else if l.HubStep? && HubMayStep(s, l.l) {
      DispatchesMove(s.hub, l.l);
      hide H.Next;
    } else {
      G.SameHub(s, l);
    }
  }

  lemma OtherStepKeepsRow(s: State, l: Label, i: nat, refused: bool)
    requires Inv(s) && RowOk(s, i) && G.Concluded(s, i, refused) && !G.ActsOn(l, i)
    ensures RowOk(Next(s, l), i)
  {
    StatusStays(s, l, i);
    G.OthersLeave(s, l, i);
    if s.jobs[i].phase.Done? {
      ResultStays(s, l, i);
    }
    hide Inv, Next, GotResult, G.Concluded;
  }

  /** The settlement writes Succeeded, a refused one nothing. */
  lemma FinalizeKeepsRow(s: State, i: nat, w: nat, ok: bool)
    requires Inv(s) && RowOk(s, i)
    ensures RowOk(Next(s, Finalize(i, w, ok)), i)
  {
    hide Inv, Charge, FinalizeAccounts, UsageAllowed, FitsUsage, GotResult;
    JobFacts(s, i);
  }

  lemma WalletStepKeepsRow(s: State, l: Label, i: nat, ok: bool, refused: bool)
    requires Inv(s) && RowOk(s, i) && G.Concluded(s, i, refused)
    requires l == ReserveCredits(i, ok) || l == ReleaseCredits(i, ok)
    ensures RowOk(Next(s, l), i)
  {
    hide Inv, Charge, Post, GotResult;
    JobFacts(s, i);
  }

  lemma MarkKeepsRow(s: State, l: Label, i: nat, refused: bool)
    requires Inv(s) && RowOk(s, i) && G.Concluded(s, i, refused)
    requires l == MarkDispatched(i, true) || l == MarkFailed(i, true) || l == EndDispatch(i)
    ensures RowOk(Next(s, l), i)
  {
    hide Inv, Charge;
    JobFacts(s, i);
  }

  lemma NextKeepsRow(s: State, l: Label, i: nat, refused: bool)
    requires Inv(s) && RowOk(s, i) && G.Concluded(s, i, refused) && MarkWorks(l)
    ensures RowOk(Next(s, l), i)
  {
    hide Inv, Next, RowOk, G.Concluded;
    if G.ActsOn(l, i) {
      match l
      case Finalize(_, w, ok) => FinalizeKeepsRow(s, i, w, ok);
      case ReserveCredits(_, ok) => WalletStepKeepsRow(s, l, i, ok, refused);
      case ReleaseCredits(_, ok) => WalletStepKeepsRow(s, l, i, ok, refused);
      case _ => MarkKeepsRow(s, l, i, refused);
    } else {
      OtherStepKeepsRow(s, l, i, refused);
    }
  }

  lemma NewRow(s: State, l: Label)
    requires Inv(s) && |Next(s, l).jobs| > |s.jobs|
    ensures RowOk(Next(s, l), |s.jobs|) && |Next(s, l).jobs| == |s.jobs| + 1
  {
    hide Charge, Quote, AdminAdjust, Register, ReserveForUser, Release, FinalizeUsage, MarkJob, H.Next;
  }

  lemma RowStep(init: seq<Label>, l: Label, i: nat)
    requires MarkWorks(l) && i < |Next(Run(INIT, init), l).jobs|
    requires i < |Run(INIT, init).jobs| ==> RowOk(Run(INIT, init), i)
    ensures RowOk(Next(Run(INIT, init), l), i)
  {
    var s := Run(INIT, init);
    Reachable(init);
    G.ReachableConcluded(init, i);
    hide Inv, Next, Run, RowOk, MarkWorks, G.Concluded, G.WasRefused;
    if i < |s.jobs| {
      NextKeepsRow(s, l, i, G.WasRefused(init, i));
    } else {
      NewRow(s, l);
    }
  }

  /** In every run without a lost status update the job row of every request says where it stands: queued
      until the reservation, dispatched until the end of the dispatch and for ever after a refused
      settlement, succeeded after a settlement, and failed after a refused reservation or a dispatch
      without a proper result. */
  lemma {:induction false} JobRowsTell(ls: seq<Label>, i: nat)
    requires MarksWork(ls) && i < |Run(INIT, ls).jobs|
    ensures RowOk(Run(INIT, ls), i)
  {
    if ls != [] {
      hide Next, RowOk, MarkWorks;
      var init := ls[..|ls| - 1];
      if i < |Run(INIT, init).jobs| {
        JobRowsTell(init, i);
      }
      RowStep(init, ls[|ls| - 1], i);
    }
  }
}
