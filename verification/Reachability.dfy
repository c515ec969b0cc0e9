/** Which providers are found over whole runs: for the right model, and for as long as they report. */
module Reachability {
  import opened Credits
  import opened Presence
  import opened Text

  // ---- Routes serve the model that was asked for ----

  /** Step k inserted this advertisement as row a: for the session's provider and instance, and matched to a
      version row that then served this runtime and name and was active, unless there was none. */
  ghost predicate InsertedAt(start: State, ls: seq<Label>, k: nat, a: nat, ad: Ad) {
    && k < |ls| && ls[k].Advertise?
    && var s, l := Run(start, ls[..k]), ls[k];
       && |s.ads| == a && l.session < |s.sessions| && s.sessions[l.session] == Session(ad.provider, Some(ad.inst))
       && ad.runtime == (if l.runtime == "" then "ollama" else l.runtime) && ad.name == l.name
       && (ad.matched.Some? ==>
             && ad.matched.value.version < |s.versions|
             && s.versions[ad.matched.value.version] == Version(ad.matched.value.model, ad.runtime, ad.name, true))
       && (ad.matched.None? ==>
             forall v :: 0 <= v < |s.versions| ==>
               !(s.versions[v].active && s.versions[v].runtime == ad.runtime && s.versions[v].name == ad.name))
  }

  ghost predicate Inserted(start: State, ls: seq<Label>, a: nat, ad: Ad) {
    exists k: nat :: InsertedAt(start, ls, k, a, ad)
  }

  /** A new row is the one its message asks for. */
  lemma NewAd(s: State, l: Label)
    requires |Next(s, l).ads| > |s.ads|
    ensures l.Advertise? && |Next(s, l).ads| == |s.ads| + 1
    ensures InsertedAt(s, [l], 0, |s.ads|, Next(s, l).ads[|s.ads|])
  {
    hide Blank, ParseStatus, SweepAll, DisconnectAll, InstanceOf, HasAd, SameAd;
    assert [l][..0] == [];
  }

  lemma OldAd(s: State, l: Label, a: nat)
    requires a < |s.ads|
    ensures a < |Next(s, l).ads|
    ensures var o, n := s.ads[a], Next(s, l).ads[a];
            && n.provider == o.provider && n.inst == o.inst && n.runtime == o.runtime && n.name == o.name
            && n.matched == o.matched
  {
    hide Blank, ParseStatus, RuntimeOf, Matches, SweepAll, DisconnectAll, InstanceOf, HasAd, SameAd;
  }

  lemma {:induction false} EveryAdIsInserted(start: State, ls: seq<Label>, a: nat)
    requires start.ads == [] && a < |Run(start, ls).ads|
    ensures Inserted(start, ls, a, Run(start, ls).ads[a])
  {
    if ls != [] {
      hide Next;
      var init, l := ls[..|ls| - 1], ls[|ls| - 1];
      var s, ad := Run(start, init), Run(start, ls).ads[a];
      if a < |s.ads| {
        EveryAdIsInserted(start, init, a);
        OldAd(s, l, a);
        var k: nat :| InsertedAt(start, init, k, a, s.ads[a]);
        assert ls[..k] == init[..k];
        assert InsertedAt(start, ls, k, a, ad);
      } else {
        NewAd(s, l);
        assert [l][..0] == [];
        assert InsertedAt(start, ls, |init|, a, ad);
      }
    }
  }

  /** In every run a request for a model is routed only over an approved advertisement that is matched to
      this very model, through a version row that is active now, to an approved and enabled provider and an
      online instance of it; and the row was inserted while an active version of its matched model was served
      under its runtime and name. */
  lemma RoutesServeTheModel(timeout: nat, start: int, ls: seq<Label>, model: nat, a: nat)
    requires Routes(Run(Start(timeout, start), ls), model, a)
    ensures var s := Run(Start(timeout, start), ls);
            && a < |s.ads|
            && var ad := s.ads[a];
               && ad.status == Approved && ad.matched.Some? && ad.matched.value.model == model
               && ad.matched.value.version < |s.versions| && s.versions[ad.matched.value.version].active
               && ad.inst < |s.instances| && s.instances[ad.inst].status == Online
               && s.instances[ad.inst].provider == ad.provider
               && ad.provider < |s.providers| && s.providers[ad.provider] == Provider(Approved, false)
               && Inserted(Start(timeout, start), ls, a, ad)
  {
    EveryAdIsInserted(Start(timeout, start), ls, a);
    hide Run;
  }

  lemma {:induction false} LatestIsFound(s: State, model: nat, n: nat, a: nat) returns (b: nat)
    requires a < n <= |s.ads| && Eligible(s, model, a)
    ensures Eligible(s, model, b)
    ensures forall c :: 0 <= c < n && Eligible(s, model, c) ==> HeartbeatOf(s, c) <= HeartbeatOf(s, b)
  {
    hide Eligible, HeartbeatOf;
    b := a;
    for k := 0 to n
      invariant Eligible(s, model, b)
      invariant forall c :: 0 <= c < k && Eligible(s, model, c) ==> HeartbeatOf(s, c) <= HeartbeatOf(s, b)
    {
      if Eligible(s, model, k) && HeartbeatOf(s, b) < HeartbeatOf(s, k) {
        b := k;
      }
    }
  }

  /** Conversely an approved and enabled provider with an online instance and an approved advertisement for an
      active version of the model is enough: a route is found, on a heartbeat at least as late. */
  lemma ApprovedModelIsFound(s: State, model: nat, a: nat) returns (b: nat)
    requires a < |s.ads| && s.ads[a].status == Approved
    requires s.ads[a].matched.Some? && s.ads[a].matched.value.model == model
    requires s.ads[a].matched.value.version < |s.versions| && s.versions[s.ads[a].matched.value.version].active
    requires s.ads[a].inst < |s.instances| && s.instances[s.ads[a].inst].status == Online
    requires s.instances[s.ads[a].inst].provider == s.ads[a].provider
    requires s.ads[a].provider < |s.providers| && s.providers[s.ads[a].provider] == Provider(Approved, false)
    ensures Routes(s, model, b) && b < |s.ads| && s.ads[b].inst < |s.instances|
    ensures s.instances[s.ads[b].inst].heartbeat >= s.instances[s.ads[a].inst].heartbeat
  {
    b := LatestIsFound(s, model, |s.ads|, a);
  }

  /** And the latest heartbeat wins. */
  lemma LatestHeartbeatWins(s: State, model: nat, a: nat, b: nat)
    requires Routes(s, model, a)
    requires b < |s.ads| && s.ads[b].status == Approved
    requires s.ads[b].matched.Some? && s.ads[b].matched.value.model == model
    requires s.ads[b].matched.value.version < |s.versions| && s.versions[s.ads[b].matched.value.version].active
    requires s.ads[b].inst < |s.instances| && s.instances[s.ads[b].inst].status == Online
    requires s.instances[s.ads[b].inst].provider == s.ads[b].provider
    requires s.ads[b].provider < |s.providers| && s.providers[s.ads[b].provider] == Provider(Approved, false)
    ensures s.instances[s.ads[b].inst].heartbeat <= s.instances[s.ads[a].inst].heartbeat
  {
    assert Eligible(s, model, b);
  }

  // ---- Instances that report stay online ----

  /** The step leaves instance k, which beat at h, alone: no status message of its own, no sweep that finds it
      stale, and its provider is not disabled. */
  predicate Leaves(s: State, l: Label, k: nat, h: int) {
    && k < |s.instances|
    && match l
       case Hello(c, key, ok) =>
         c < |s.sessions| && s.sessions[c].provider == s.instances[k].provider && key == s.instances[k].key ==> !ok
       case Heartbeat(c, status) =>
         c < |s.sessions| && s.sessions[c].inst == Some(k) ==>
           status != "online" && status != "busy" && status != "draining"
       case Sweep(tick) => tick - s.timeout <= h
       case Disable(p) => p != s.instances[k].provider
       case _ => true
  }

  ghost predicate LeftAlone(s: State, ls: seq<Label>, k: nat, h: int) {
    ls == [] || (LeftAlone(s, ls[..|ls| - 1], k, h) && Leaves(Run(s, ls[..|ls| - 1]), ls[|ls| - 1], k, h))
  }

  lemma StepLeaves(s: State, l: Label, k: nat)
    requires k < |s.instances| && Leaves(s, l, k, s.instances[k].heartbeat)
    ensures k < |Next(s, l).instances| && Next(s, l).instances[k] == s.instances[k]
  {
    hide Blank, RuntimeOf, Matches, HasAd, SameAd;
  }

  lemma {:induction false} InstanceStays(s: State, ls: seq<Label>, k: nat)
    requires k < |s.instances| && LeftAlone(s, ls, k, s.instances[k].heartbeat)
    ensures k < |Run(s, ls).instances| && Run(s, ls).instances[k] == s.instances[k]
  {
    if ls != [] {
      hide Next, Leaves;
      InstanceStays(s, ls[..|ls| - 1], k);
      StepLeaves(Run(s, ls[..|ls| - 1]), ls[|ls| - 1], k);
    }
  }

  /** Its own status messages: a hello with a key that is not blank, or a heartbeat. */
  predicate Says(s: State, l: Label, k: nat, status: InstanceStatus) {
    match l
    case Hello(c, key, ok) =>
      && c < |s.sessions| && ok && !Blank(key) && status == Online
      && k == InstanceOf(s.instances, s.sessions[c].provider, key)
    case Heartbeat(c, text) =>
      && c < |s.sessions| && s.sessions[c].inst == Some(k) && k < |s.instances|
      && ((text == "online" && status == Online) || (text == "busy" && status == Busy)
          || (text == "draining" && status == Draining))
    case _ => false
  }

  /** The instance then has that status and a heartbeat now. */
  lemma MessageIsRecorded(s: State, l: Label, k: nat, status: InstanceStatus)
    requires Says(s, l, k, status)
    ensures var n := Next(s, l);
            k < |n.instances| && n.instances[k].status == status && n.instances[k].heartbeat == s.now
    ensures l.Hello? ==>
              var n := Next(s, l);
              && l.session < |n.sessions| && n.sessions[l.session] == Session(s.sessions[l.session].provider, Some(k))
              && n.instances[k].provider == s.sessions[l.session].provider && n.instances[k].key == l.key
  {
    assert Blank("");
    hide Blank;
  }

  /** In every run: an instance that said hello or sent an "online" heartbeat is still online, with that very
      heartbeat, as long as nothing newer came from it, no later sweep ran more than the timeout after it, and
      its provider was not disabled; one that said busy or draining is still that. */
  lemma ReportingInstancesStay(timeout: nat, start: int, before: seq<Label>, l: Label, after: seq<Label>, k: nat,
                               status: InstanceStatus)
    requires var s := Run(Start(timeout, start), before);
             Says(s, l, k, status) && LeftAlone(Next(s, l), after, k, s.now)
    ensures var s := Run(Start(timeout, start), before); var n := Run(Next(s, l), after);
            k < |n.instances| && n.instances[k].status == status && n.instances[k].heartbeat == s.now
  {
    var s := Run(Start(timeout, start), before);
    MessageIsRecorded(s, l, k, status);
    hide Run, Next, Says, LeftAlone;
    InstanceStays(Next(s, l), after, k);
  }

  /** Then an approved advertisement of it for an active version of the model, and an approved and enabled
      provider, make the model routable. */
  lemma ReportingInstancesAreFound(timeout: nat, start: int, before: seq<Label>, l: Label, after: seq<Label>,
                                   k: nat, model: nat, a: nat) returns (b: nat)
    requires var s := Run(Start(timeout, start), before);
             Says(s, l, k, Online) && LeftAlone(Next(s, l), after, k, s.now)
    requires var n := Run(Next(Run(Start(timeout, start), before), l), after);
             && a < |n.ads| && n.ads[a].status == Approved && n.ads[a].inst == k
             && n.ads[a].matched.Some? && n.ads[a].matched.value.model == model
             && n.ads[a].matched.value.version < |n.versions| && n.versions[n.ads[a].matched.value.version].active
             && n.ads[a].provider < |n.providers| && n.providers[n.ads[a].provider] == Provider(Approved, false)
    ensures var s := Run(Start(timeout, start), before); var n := Run(Next(s, l), after);
            Routes(n, model, b) && HeartbeatOf(n, b) >= s.now
  {
    ReportingInstancesStay(timeout, start, before, l, after, k, Online);
    RunKeepsOwnRows(Start(timeout, start), before);
    var s := Run(Start(timeout, start), before);
    NextKeepsOwnRows(s, l);
    RunKeepsOwnRows(Next(s, l), after);
    hide Run, Next, Says, LeftAlone, Routes;
    b := ApprovedModelIsFound(Run(Next(s, l), after), model, a);
  }

  // ---- What messages and decisions record ----

  /** A hello that fails, or whose key is blank, leaves its session without an instance; one without a key is
      ignored. */
  lemma FailedHelloForgets(s: State, c: nat, key: string, ok: bool)
    requires c < |s.sessions| && (!ok || Blank(key))
    ensures Next(s, Hello(c, key, ok)) ==
            if key == "" then s else s.(sessions := s.sessions[c := Session(s.sessions[c].provider, None)])
  {
    assert Blank("");
    hide Blank;
  }

  /** And without an instance every other message of the session changes nothing. */
  lemma SilentWithoutHello(s: State, c: nat, l: Label)
    requires c < |s.sessions| && s.sessions[c].inst.None?
    requires (l.Heartbeat? || l.Advertise? || l.Report?) && l.session == c
    ensures Next(s, l) == s
  {
  }

  /** A hardware report is stored for the session's instance. */
  lemma ReportIsStored(s: State, c: nat, k: nat, report: string)
    requires c < |s.sessions| && s.sessions[c].inst == Some(k)
    ensures Next(s, Report(c, report)) == s.(hardware := s.hardware + [Hardware(k, report)])
  {
  }

  /** The advertisement of this name by this session's instance. */
  predicate IsAdOf(s: State, c: nat, runtime: string, name: string, ad: Ad) {
    && c < |s.sessions| && s.sessions[c] == Session(ad.provider, Some(ad.inst))
    && ad.runtime == (if runtime == "" then "ollama" else runtime) && ad.name == name
  }

  /** An advertised model has the digest it was advertised with; a new one waits for a decision, and every other
      row is as it was. */
  lemma AdvertisedIsRecorded(s: State, c: nat, runtime: string, name: string, digest: string, m: Option<Match>)
    requires c < |s.sessions| && s.sessions[c].inst.Some? && !Blank(name)
    requires Matches(s.versions, RuntimeOf(runtime), name, m)
    ensures var n := Next(s, Advertise(c, runtime, name, digest, m));
            && |s.ads| <= |n.ads| <= |s.ads| + 1
            && (forall a :: 0 <= a < |s.ads| ==>
                  n.ads[a] == if IsAdOf(s, c, runtime, name, s.ads[a]) then s.ads[a].(digest := digest) else s.ads[a])
            && (exists a :: 0 <= a < |n.ads| && IsAdOf(s, c, runtime, name, n.ads[a]) && n.ads[a].digest == digest)
            && (|n.ads| > |s.ads| ==> n.ads[|s.ads|].status == Pending && n.ads[|s.ads|].matched == m)
  {
    hide Blank, Matches;
    var p, k, r := s.sessions[c].provider, s.sessions[c].inst.value, RuntimeOf(runtime);
    var n := Next(s, Advertise(c, runtime, name, digest, m));
    assert forall a :: 0 <= a < |s.ads| ==>
             (SameAd(s.ads[a], p, k, r, name) <==> IsAdOf(s, c, runtime, name, s.ads[a]));
    if HasAd(s.ads, p, k, r, name) {
      var a :| 0 <= a < |s.ads| && SameAd(s.ads[a], p, k, r, name);
      assert IsAdOf(s, c, runtime, name, n.ads[a]) && n.ads[a].digest == digest;
    } else {
      assert IsAdOf(s, c, runtime, name, n.ads[|s.ads|]) && n.ads[|s.ads|].digest == digest;
    }
  }

  /** Disabling takes exactly the provider's own instances offline, and it cannot connect again. */
  lemma DisabledIsOffline(s: State, p: nat)
    requires p < |s.providers|
    ensures var n := Next(s, Disable(p));
            && p < |n.providers| && n.providers[p].disabled && Next(n, Connect(p)) == n
            && |n.instances| == |s.instances|
            && forall k :: 0 <= k < |s.instances| ==>
                 n.instances[k] == if s.instances[k].provider == p then s.instances[k].(status := Offline)
                                   else s.instances[k]
  {
  }

  /** A blank name is skipped. */
  lemma BlankIsSkipped(s: State, c: nat, runtime: string, name: string, digest: string, m: Option<Match>)
    requires Blank(name)
    ensures Next(s, Advertise(c, runtime, name, digest, m)) == s
  {
  }

  lemma Then(start: State, ls: seq<Label>, l: Label) returns (s: State)
    ensures s == Next(Run(start, ls), l) == Run(start, ls + [l])
  {
    s := Next(Run(start, ls), l);
    assert (ls + [l])[..|ls|] == ls;
  }

  lemma SaysHello(s: State, n: State, key: string)
    requires !Blank(key) && s.sessions == [Session(0, None)] && s.instances == [] && n == Next(s, Hello(0, key, true))
    ensures n == s.(sessions := [Session(0, Some(0))], instances := [Instance(0, key, Online, s.now)])
  {
    assert Blank("");
    hide Blank;
  }

  lemma Advertises(s: State, n: State, name: string, digest: string)
    requires !Blank(name) && s.sessions == [Session(0, Some(0))] && s.ads == []
    requires s.versions == [Version(7, "ollama", name, true)]
    requires n == Next(s, Advertise(0, "", name, digest, Some(Match(7, 0))))
    ensures n == s.(ads := [Ad(0, 0, "ollama", name, Some(Match(7, 0)), digest, Pending)])
  {
    hide Blank;
  }

  /** Providers are found at all: one that is approved, connects, says hello and advertises a model that is
      approved. */
  lemma RouteIsReached(timeout: nat, start: int, key: string, name: string, digest: string) returns (ls: seq<Label>)
    requires !Blank(key) && !Blank(name)
    ensures Routes(Run(Start(timeout, start), ls), 7, 0)
  {
    var s0 := Start(timeout, start);
    hide Run, Blank, Matches, RuntimeOf, Routes;
    var l1 := [AddProvider(Approved)];
    assert [] + l1 == l1 && Run(s0, []) == s0 by { RunNone(s0); }
    var s1 := Then(s0, [], AddProvider(Approved));
    var v := Version(7, "ollama", name, true);
    var s2 := Then(s0, l1, EditVersion(0, v));
    var l2 := l1 + [EditVersion(0, v)];
    var s3 := Then(s0, l2, Connect(0));
    var l3 := l2 + [Connect(0)];
    assert s3.sessions == [Session(0, None)] && s3.versions == [v] && s3.providers == [Provider(Approved, false)];
    hide Next;
    var s4 := Then(s0, l3, Hello(0, key, true));
    SaysHello(s3, s4, key);
    var l4 := l3 + [Hello(0, key, true)];
    var s5 := Then(s0, l4, Advertise(0, "", name, digest, Some(Match(7, 0))));
    Advertises(s4, s5, name, digest);
    var l5 := l4 + [Advertise(0, "", name, digest, Some(Match(7, 0)))];
    var s6 := Then(s0, l5, SetAdStatus(0, Approved));
    OnlyRoute(s5, s6);
    ls := l5 + [SetAdStatus(0, Approved)];
  }

  lemma RunNone(s: State)
    ensures Run(s, []) == s
  {
  }

  lemma OnlyRoute(s: State, n: State)
    requires n == Next(s, SetAdStatus(0, Approved)) && |s.ads| == 1 && s.providers == [Provider(Approved, false)]
    requires s.ads[0].provider == s.ads[0].inst == 0 && s.ads[0].matched == Some(Match(7, 0))
    requires |s.versions| == 1 && s.versions[0].active
    requires |s.instances| == 1 && s.instances[0].provider == 0 && s.instances[0].status == Online
    ensures Routes(n, 7, 0)
  {
  }
}
