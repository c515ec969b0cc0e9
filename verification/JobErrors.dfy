/** A provider's error report, from its message to the user's wallet. */
module JobErrors {
  import opened Credits
  import opened Settlement
  import opened Billing
  import opened Protocol
  import opened Settled
  import A = Amounts
  import G = Guarantees
  import H = Hub
  import R = Requests
  import V = Presence
  import W = PresenceService

  /** What a provider's message hands to the hub in state t. */
  function Handed(t: V.State, c: nat, m: W.Message): seq<H.JobResult> {
    V.Run(t, W.Labels(t.versions, c, m)).completed
  }

  /** An error message hands over one result: of its own job, with its own error code, and empty. */
  lemma ErrorIsHandedOver(t: V.State, c: nat, job: nat, code: string)
    ensures Handed(t, c, W.ErrorMessage(job, code)) == t.completed + [H.JobResult(job, code, 0, None, 0)]
  {
    var l := V.Complete(H.FromError(job, code));
    assert [l][..0] == [];
    assert V.Run(t, [l]) == V.Next(t, l);
  }

  lemma ResultIsHandedOver(t: V.State, c: nat, r: H.JobResult)
    ensures Handed(t, c, W.ResultMessage(r)) == t.completed + [r]
  {
    assert [V.Complete(r)][..0] == [];
    assert V.Run(t, [V.Complete(r)]) == V.Next(t, V.Complete(r));
  }

  /** The dispatch of request i ended with a report of this error. */
  predicate EndedIn(s: State, i: nat, code: string) {
    && i in s.hub.dispatches && s.hub.dispatches[i].stage.Returned?
    && s.hub.dispatches[i].stage.outcome.Received? && s.hub.dispatches[i].stage.outcome.result.errorCode == code
  }

  /** In every run, a request whose dispatch ended in an error with a code is never settled, whatever
      follows: its job row never says succeeded and no usage record names it. */
  lemma ErrorsAreNeverBilled(ls: seq<Label>, more: seq<Label>, i: nat, code: string)
    requires EndedIn(Run(INIT, ls), i, code) && code != ""
    ensures var s := Run(Run(INIT, ls), more);
            && i < |s.jobs| && i < |s.db.status|
            && s.jobs[i].settled == 0 && s.db.status[i] != Succeeded
            && forall k :: 0 <= k < |s.db.usage| ==> s.db.usage[k].job != i
  {
    G.LateResultsChangeNothing(ls, more, i);
  }

  /** When no release is stopped, such a request gives its reservation back exactly once, and when no status
      update is lost, its job row says failed. */
  lemma ErrorsAreReleased(ls: seq<Label>, i: nat, code: string)
    requires EndedIn(Run(INIT, ls), i, code) && code != ""
    requires i < |Run(INIT, ls).jobs| && Run(INIT, ls).jobs[i].phase == Done
    requires G.ReleasesWork(ls)
    ensures var s := Run(INIT, ls);
            && s.jobs[i].taken == 1 && s.jobs[i].released == 1 && s.jobs[i].settled == 0
            && (R.MarksWork(ls) ==> i < |s.db.status| && s.db.status[i] == Failed)
  {
    G.ReservationsCloseExactlyOnce(ls, i);
    if R.MarksWork(ls) {
      R.JobRowsTell(ls, i);
    }
  }

  // ---- From the message to the release ----

  /** The error arrives, is consumed, and the credits are released. */
  function ReleasingSteps(s: State, i: nat, r: H.JobResult): seq<Label> {
    [HubStep(H.Complete(r)), HubStep(H.Send(|s.hub.completions|)), HubStep(H.Receive(i)), HubStep(H.Delete(i)),
     EndDispatch(i), ReleaseCredits(i, true)] + [MarkFailed(i, true)]
  }

  /** Request i is finished and failed, and its wallet has the reservation back. */
  ghost predicate GivenBack(s: State, n: State, i: nat)
    requires i < |s.jobs|
  {
    var w, quote := s.jobs[i].wallet, s.jobs[i].quote;
    && i < |n.jobs| && n.jobs[i].phase == Done && n.jobs[i].released == 1 && n.jobs[i].settled == 0
    && i < |n.db.status| && n.db.status[i] == Failed && n.db.usage == s.db.usage
    && Moved(s.db.accounts, n.db.accounts, w, quote, -quote)
  }

  lemma EndsInReleasing(s: State, s4: State, i: nat, r: H.JobResult)
    requires s4 == s.(hub := s4.hub) && In(s, i, Dispatching) && IsInt64(s.jobs[i].quote) && r.errorCode != ""
    requires i in s4.hub.dispatches && s4.hub.dispatches[i] == H.Dispatch(r.job, H.Returned(H.Received(r)))
    ensures Next(s4, EndDispatch(i)) == SetJob(s4, i, s.jobs[i].(phase := Releasing(true)))
  {
  }

  lemma ReleasesHere(s: State, s5: State, i: nat)
    requires Inv(s) && In(s, i, Dispatching) && s5.db == s.db
    requires s5.jobs == s.jobs[i := s.jobs[i].(phase := Releasing(true))]
    requires s.jobs[i].wallet < |s.db.accounts|
    requires s.db.accounts[s.jobs[i].wallet].balance + s.jobs[i].quote <= MAX_INT64
    ensures GivenBack(s, Next(Next(s5, ReleaseCredits(i, true)), MarkFailed(i, true)), i)
  {
    hide Inv, Next, GotResult, AllInRange, Moved, MarkJob;
    var j := s.jobs[i];
    JobFacts(s, i);
    G.JobHolds(s, i);
    WalletsInRange(s);
    ReleaseMoves(s.db, j.wallet, j.quote);
    hide Release;
    ReleasedAndMarked(s5, i);
    MarkedFailed(Release(s.db, j.wallet, j.quote).value, i);
  }

  lemma ReleaseMoves(t: Tables, w: nat, quote: int)
    requires AllInRange(t.accounts) && w < |t.accounts| && IsInt64(quote) && 0 < quote <= t.accounts[w].reserved
    requires t.accounts[w].balance + quote <= MAX_INT64
    ensures Release(t, w, quote).Ok? && Release(t, w, quote).value == t.(accounts := Release(t, w, quote).value.accounts)
    ensures Moved(t.accounts, Release(t, w, quote).value.accounts, w, quote, -quote)
  {
    hide Moved, AddLedger;
    ReleaseAccepts(t, w, quote);
    PostEffect(t.accounts, Posting(w, Op(ReleaseReserve, quote, -quote)));
  }

  lemma MarkedFailed(t: Tables, i: nat)
    requires i < |t.status|
    ensures MarkJob(t, i, Failed) == t.(status := t.status[i := Failed])
  {
  }

  lemma ReleasedAndMarked(s: State, i: nat)
    requires i < |s.jobs| && s.jobs[i].phase == Releasing(true) && i < |s.db.status|
    requires Release(s.db, s.jobs[i].wallet, s.jobs[i].quote).Ok?
    ensures var n := Next(Next(s, ReleaseCredits(i, true)), MarkFailed(i, true)); var j := s.jobs[i];
            && i < |n.jobs| && n.jobs[i] == j.(phase := Done, released := j.released + 1)
            && n.db == MarkJob(Release(s.db, j.wallet, j.quote).value, i, Failed)
  {
    hide Release, MarkJob;
  }

  /** A job_error with a code for a waiting request: what the message hands over gives the user's credits
      back, and to no other wallet; the job row says failed, and nothing is recorded. */
  lemma JobErrorGivesBack(s: State, i: nat, c: nat, t: V.State, session: nat, code: string)
    requires Inv(s) && Waits(s, i, c) && code != "" && s.jobs[i].wallet < |s.db.accounts|
    requires s.db.accounts[s.jobs[i].wallet].balance + s.jobs[i].quote <= MAX_INT64
    ensures var handed := Handed(t, session, W.ErrorMessage(s.jobs[i].id, code));
            |handed| > 0 && GivenBack(s, Run(s, ReleasingSteps(s, i, handed[|handed| - 1])), i)
  {
    var r := H.JobResult(s.jobs[i].id, code, 0, None, 0);
    ErrorIsHandedOver(t, session, s.jobs[i].id, code);
    var h := ResultReturns(s, i, c, r);
    var k := |s.hub.completions|;
    var s4 := s.(hub := h);
    var steps := [HubStep(H.Complete(r)), HubStep(H.Send(k)), HubStep(H.Receive(i)), HubStep(H.Delete(i)),
                  EndDispatch(i), ReleaseCredits(i, true)];
    Run6(s, HubStep(H.Complete(r)), HubStep(H.Send(k)), HubStep(H.Receive(i)), HubStep(H.Delete(i)),
         EndDispatch(i), ReleaseCredits(i, true));
    RunMore(s, steps, MarkFailed(i, true));
    FourHubSteps(s, H.Complete(r), H.Send(k), H.Receive(i), H.Delete(i), h);
    JobFacts(s, i);
    EndsInReleasing(s, s4, i, r);
    hide Run, H.Next, Inv, Next, GivenBack, Handed;
    ReleasesHere(s, Next(s4, EndDispatch(i)), i);
  }

  /** With an empty code it is settled, if the prompt's estimate can be paid: at that price, and the job row
      says succeeded. */
  lemma EmptyErrorIsSettled(s: State, i: nat, c: nat, t: V.State, session: nat)
    requires Inv(s) && Waits(s, i, c) && IsInt64(s.jobs[i].quote)
    requires Payable(s, i, H.JobResult(s.jobs[i].id, "", 0, None, 0))
    ensures var handed := Handed(t, session, W.ErrorMessage(s.jobs[i].id, ""));
            |handed| > 0 &&
            var n := Run(s, SettlingSteps(s, i, handed[|handed| - 1]));
            && i < |n.jobs| && n.jobs[i].phase == Done && n.jobs[i].settled == 1 && n.jobs[i].released == 0
            && |n.db.usage| == |s.db.usage| + 1 && n.db.usage[|s.db.usage|].job == i
            && n.db.usage[|s.db.usage|].measured == Measured((s.jobs[i].terms.inputChars + 3) / 4, 0, 0)
            && i < |n.db.status| && n.db.status[i] == Succeeded
  {
    var r := H.JobResult(s.jobs[i].id, "", 0, None, 0);
    ErrorIsHandedOver(t, session, s.jobs[i].id, "");
    A.ChargeMeasures(s.jobs[i].terms, s.jobs[i].quote, r);
    hide Run, Inv, Handed, Charge, Waits, Payable;
    WaitingRequestIsSettled(s, i, c, r);
  }
}
