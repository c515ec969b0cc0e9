/** What each of a provider's messages leaves behind. */
module Messages {
  import opened Credits
  import opened Presence
  import opened PresenceService
  import opened Reachability
  import opened Text

  lemma RunOne(s: State, l: Label)
    ensures Run(s, [l]) == Next(s, l)
  {
    hide Next;
    assert [l][..0] == [];
  }

  /** After a hello that reached the database the session reports for the instance with its key, which is online
      now; after one that failed, or with a blank key, for none; and one without a key is ignored. */
  lemma HelloIsRecorded(s: State, c: nat, key: string, ok: bool) returns (k: nat)
    requires c < |s.sessions|
    ensures var n := Run(s, Labels(s.versions, c, HelloMessage(key, ok))); var p := s.sessions[c].provider;
            if key == "" then n == s
            else if !ok || All(key, IsSpace) then n == s.(sessions := s.sessions[c := Session(p, None)])
            else
              && k < |n.instances| && n.instances[k] == Instance(p, key, Online, s.now)
              && n.sessions == s.sessions[c := Session(p, Some(k))]
              && n.instances ==
                 if k < |s.instances| then s.instances[k := n.instances[k]] else s.instances + [n.instances[k]]
  {
    BlankIff(key);
    k := InstanceOf(s.instances, s.sessions[c].provider, key);
    RunOne(s, Hello(c, key, ok));
    hide Run, Blank, IsSpace, All;
  }

  /** A heartbeat that reaches the database sets status and time of the session's own instance, if its status is
      known; any other changes nothing. */
  lemma HeartbeatIsRecorded(s: State, c: nat, k: nat, status: string, ok: bool)
    requires c < |s.sessions| && s.sessions[c].inst == Some(k) && k < |s.instances|
    ensures var n := Run(s, Labels(s.versions, c, HeartbeatMessage(status, ok)));
            var i := s.instances[k];
            n == if !ok then s
                 else if status == "online" then
                   s.(instances := s.instances[k := Instance(i.provider, i.key, Online, s.now)])
                 else if status == "busy" then
                   s.(instances := s.instances[k := Instance(i.provider, i.key, Busy, s.now)])
                 else if status == "draining" then
                   s.(instances := s.instances[k := Instance(i.provider, i.key, Draining, s.now)])
                 else s
  {
    hide Next, Run;
    RunNone(s);
    RunOne(s, Heartbeat(c, status));
    HeartbeatStep(s, c, k, status);
  }

  lemma HeartbeatStep(s: State, c: nat, k: nat, status: string)
    requires c < |s.sessions| && s.sessions[c].inst == Some(k) && k < |s.instances|
    ensures Next(s, Heartbeat(c, status)) ==
            if ParseStatus(status).None? then s
            else s.(instances := s.instances[k := s.instances[k].(status := ParseStatus(status).value, heartbeat := s.now)])
  {
    hide ParseStatus, Blank, Matches, RuntimeOf, DoHello, DoAdvertise, SweepAll, DisconnectAll;
  }

  lemma HardwareIsRecorded(s: State, c: nat, k: nat, report: string, ok: bool)
    requires c < |s.sessions| && s.sessions[c].inst == Some(k)
    ensures Run(s, Labels(s.versions, c, HardwareMessage(report, ok))) ==
            if ok then s.(hardware := s.hardware + [Hardware(k, report)]) else s
  {
    RunOne(s, Report(c, report));
  }

  /** The names of a model list differ: it is a map. */
  ghost predicate DistinctNames(models: seq<(string, string)>) {
    forall p, q | 0 <= p < q < |models| :: models[p].0 != models[q].0
  }

  predicate HasDigest(n: State, c: nat, runtime: string, name: string, digest: string, a: nat) {
    a < |n.ads| && IsAdOf(n, c, runtime, name, n.ads[a]) && n.ads[a].digest == digest
  }

  /** Every entry that is not blank is recorded with its digest, and no other row is touched. */
  ghost predicate Recorded(s: State, n: State, c: nat, runtime: string, models: seq<(string, string)>) {
    && n == s.(ads := n.ads) && |s.ads| <= |n.ads|
    && (forall q :: 0 <= q < |models| && !Blank(models[q].0) ==>
          exists a: nat :: HasDigest(n, c, runtime, models[q].0, models[q].1, a))
    && (forall a :: 0 <= a < |s.ads| && (forall q :: 0 <= q < |models| ==> s.ads[a].name != models[q].0) ==>
          n.ads[a] == s.ads[a])
  }

  lemma {:induction false} ListIsRecorded(s: State, c: nat, runtime: string, models: seq<(string, string)>)
    requires c < |s.sessions| && s.sessions[c].inst.Some? && DistinctNames(models)
    ensures Recorded(s, Run(s, ListLabels(s.versions, c, runtime, models)), c, runtime, models)
  {
    hide Next, Recorded, MatchVersion, RuntimeOf, Blank;
    if models == [] {
      NothingRecorded(s, c, runtime);
    } else {
      var init, m := models[..|models| - 1], models[|models| - 1];
      ListIsRecorded(s, c, runtime, init);
      var n := Run(s, ListLabels(s.versions, c, runtime, init));
      OneMore(s, n, c, runtime, init, m);
      assert models == init + [m];
    }
  }

  lemma NothingRecorded(s: State, c: nat, runtime: string)
    ensures Recorded(s, s, c, runtime, [])
  {
  }

  lemma OneMore(s: State, n: State, c: nat, runtime: string, init: seq<(string, string)>, m: (string, string))
    requires c < |s.sessions| && s.sessions[c].inst.Some? && DistinctNames(init + [m])
    requires Recorded(s, n, c, runtime, init)
    ensures Recorded(s, Next(n, Advertise(c, runtime, m.0, m.1, MatchVersion(s.versions, RuntimeOf(runtime), m.0))),
                     c, runtime, init + [m])
  {
    var match0 := MatchVersion(s.versions, RuntimeOf(runtime), m.0);
    var t := Next(n, Advertise(c, runtime, m.0, m.1, match0));
    var models := init + [m];
    assert forall q :: 0 <= q < |init| ==> models[q] == init[q];
    assert models[|init|] == m;
    if Blank(m.0) {
      BlankIsSkipped(n, c, runtime, m.0, m.1, match0);
    } else {
      AdvertisedIsRecorded(n, c, runtime, m.0, m.1, match0);
      AdvertiseOnlyAds(n, c, runtime, m.0, m.1, match0);
      hide Next, Blank, Matches, MatchVersion, RuntimeOf;
      var b: nat :| b < |t.ads| && IsAdOf(n, c, runtime, m.0, t.ads[b]) && t.ads[b].digest == m.1;
      assert HasDigest(t, c, runtime, m.0, m.1, b);
      forall q | 0 <= q < |init| && !Blank(init[q].0)
        ensures exists a: nat :: HasDigest(t, c, runtime, init[q].0, init[q].1, a)
      {
        var a: nat :| HasDigest(n, c, runtime, init[q].0, init[q].1, a);
        assert models[q].0 != models[|init|].0;
        assert HasDigest(t, c, runtime, init[q].0, init[q].1, a);
      }
    }
  }

  lemma AdvertiseOnlyAds(s: State, c: nat, runtime: string, name: string, digest: string, m: Option<Match>)
    ensures var n := Next(s, Advertise(c, runtime, name, digest, m)); n == s.(ads := n.ads)
  {
    hide Blank, Matches, RuntimeOf, HasAd, Redigest;
  }

  /** A model list records its entries up to the first that fails. */
  lemma ModelListIsRecorded(s: State, c: nat, runtime: string, models: seq<(string, string)>, done: nat)
    requires c < |s.sessions| && s.sessions[c].inst.Some? && DistinctNames(models)
    ensures Recorded(s, Run(s, Labels(s.versions, c, ModelListMessage(runtime, models, done))), c, runtime,
                     if done < |models| then models[..done] else models)
  {
    ListIsRecorded(s, c, runtime, if done < |models| then models[..done] else models);
    hide Recorded, Run, ListLabels;
  }
}
