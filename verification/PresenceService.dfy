/** The provider tables as the API changes them, a provider's connection loop, and the routing query. */
module PresenceService {
  import opened Credits
  import opened Presence
  import opened Text
  import H = Hub

  /** What a provider sends; other messages are ignored. `ok` says whether the statement reaches the
      database, `done` how many entries of a model list are handled before one fails. */
  datatype Message =
    | HelloMessage(key: string, ok: bool)
    | HeartbeatMessage(status: string, ok: bool)
    | ModelListMessage(runtime: string, models: seq<(string, string)>, done: nat)
    | HardwareMessage(report: string, ok: bool)
    | ResultMessage(result: H.JobResult)
    | ErrorMessage(job: nat, errorCode: string)
    | OtherMessage

  function MatchVersion(versions: seq<Version>, runtime: string, name: string): (m: Option<Match>)
    ensures Matches(versions, runtime, name, m)
  {
    if versions == [] then None
    else
      var n := |versions| - 1;
      var m := MatchVersion(versions[..n], runtime, name);
      if m.Some? then m
      else if versions[n].active && versions[n].runtime == runtime && versions[n].name == name then
        Some(Match(versions[n].model, n))
      else None
  }

  function ListLabels(versions: seq<Version>, c: nat, runtime: string, models: seq<(string, string)>): seq<Label> {
    if models == [] then []
    else
      var m := models[|models| - 1];
      ListLabels(versions, c, runtime, models[..|models| - 1]) +
      [Advertise(c, runtime, m.0, m.1, MatchVersion(versions, RuntimeOf(runtime), m.0))]
  }

  function Labels(versions: seq<Version>, c: nat, m: Message): seq<Label> {
    match m
    case HelloMessage(key, ok) => [Hello(c, key, ok)]
    case HeartbeatMessage(status, ok) => if ok then [Heartbeat(c, status)] else []
    case ModelListMessage(runtime, models, done) =>
      ListLabels(versions, c, runtime, if done < |models| then models[..done] else models)
    case HardwareMessage(report, ok) => if ok then [Report(c, report)] else []
    case ResultMessage(result) => [Complete(result)]
    case ErrorMessage(job, errorCode) => [Complete(H.FromError(job, errorCode))]
    case OtherMessage => []
  }

  function AllLabels(versions: seq<Version>, c: nat, ms: seq<Message>): seq<Label> {
    if ms == [] then [] else AllLabels(versions, c, ms[..|ms| - 1]) + Labels(versions, c, ms[|ms| - 1])
  }

  lemma NoAdSeen(ads: seq<Ad>, provider: nat, inst: nat, runtime: string, name: string, digest: string)
    requires !HasAd(ads, provider, inst, runtime, name)
    ensures Redigest(ads, provider, inst, runtime, name, digest) == ads
  {
  }

  lemma MoreLabels(versions: seq<Version>, c: nat, ms: seq<Message>, k: nat)
    requires k < |ms|
    ensures AllLabels(versions, c, ms[..k + 1]) == AllLabels(versions, c, ms[..k]) + Labels(versions, c, ms[k])
  {
    assert ms[..k + 1][..k] == ms[..k];
  }

  lemma RunNothing(s: State, c: nat, versions: seq<Version>, ms: seq<Message>)
    ensures Run(s, AllLabels(versions, c, ms[..0])) == s
  {
  }

  /** Without a hello a model list changes nothing. */
  lemma {:induction false} IdleList(s: State, c: nat, runtime: string, models: seq<(string, string)>)
    requires c < |s.sessions| && s.sessions[c].inst.None?
    ensures Run(s, ListLabels(s.versions, c, runtime, models)) == s
  {
    hide Next, MatchVersion, RuntimeOf;
    if models != [] {
      IdleList(s, c, runtime, models[..|models| - 1]);
      var m := models[|models| - 1];
      IdleEntry(s, c, runtime, m.0, m.1, MatchVersion(s.versions, RuntimeOf(runtime), m.0));
    }
  }

  lemma IdleEntry(s: State, c: nat, runtime: string, name: string, digest: string, m: Option<Match>)
    requires c < |s.sessions| && s.sessions[c].inst.None?
    ensures Next(s, Advertise(c, runtime, name, digest, m)) == s
  {
  }

  lemma ListStarts(s: State, c: nat, runtime: string, models: seq<(string, string)>)
    ensures Run(s, ListLabels(s.versions, c, runtime, models[..0])) == s
  {
    assert models[..0] == [];
  }

  lemma ListGrows(s: State, c: nat, runtime: string, models: seq<(string, string)>, k: nat)
    requires k < |models|
    ensures Run(s, ListLabels(s.versions, c, runtime, models[..k + 1])) ==
            Next(Run(s, ListLabels(s.versions, c, runtime, models[..k])),
                 Advertise(c, runtime, models[k].0, models[k].1,
                           MatchVersion(s.versions, RuntimeOf(runtime), models[k].0)))
  {
    hide Next, MatchVersion, RuntimeOf;
    assert models[..k + 1][..k] == models[..k];
  }

  class Api {
    const timeout: nat
    var now: int
    var lastSweep: Option<int>
    var providers: seq<Provider>
    var instances: seq<Instance>
    var ads: seq<Ad>
    var versions: seq<Version>
    var sessions: seq<Session>
    var hardware: seq<Hardware>
    var completed: seq<H.JobResult>

    function Tables(): State
      reads this
    {
      State(timeout, now, lastSweep, providers, instances, ads, versions, sessions, hardware, completed)
    }

    method UpsertInstance(provider: nat, key: string) returns (k: nat)
      modifies this`instances
      ensures k == InstanceOf(old(instances), provider, key) < |instances|
      ensures instances ==
              if k < |old(instances)| then old(instances)[k := old(instances)[k].(status := Online, heartbeat := now)]
              else old(instances) + [Instance(provider, key, Online, now)]
    {
      k := 0;
      while k < |instances| && !(instances[k].provider == provider && instances[k].key == key)
        invariant 0 <= k <= |instances|
        invariant forall n :: 0 <= n < k ==> !(instances[n].provider == provider && instances[n].key == key)
      {
        k := k + 1;
      }
      if k < |instances| {
        instances := instances[k := instances[k].(status := Online, heartbeat := now)];
      } else {
        instances := instances + [Instance(provider, key, Online, now)];
      }
    }

    method SayHello(c: nat, key: string, ok: bool)
      requires c < |sessions|
      modifies this`instances, this`sessions
      ensures Tables() == Next(old(Tables()), Hello(c, key, ok))
    {
      if key == "" {
        return;
      }
      var provider := sessions[c].provider;
      if Blank(key) || !ok {
        sessions := sessions[c := Session(provider, None)];
        return;
      }
      var k := UpsertInstance(provider, key);
      sessions := sessions[c := Session(provider, Some(k))];
    }

    method Beat(c: nat, status: string, ok: bool)
      requires c < |sessions| && OwnRows(Tables())
      modifies this`instances
      ensures Tables() == if ok then Next(old(Tables()), Heartbeat(c, status)) else old(Tables())
    {
      if sessions[c].inst.None? || !ok {
        return;
      }
      var i := sessions[c].inst.value;
      if status == "online" {
        instances := instances[i := instances[i].(status := Online, heartbeat := now)];
      } else if status == "busy" {
        instances := instances[i := instances[i].(status := Busy, heartbeat := now)];
      } else if status == "draining" {
        instances := instances[i := instances[i].(status := Draining, heartbeat := now)];
      }
    }

    /** UPDATE ... RETURNING id: the digest of every matching row; whether there was one. */
    method UpdateAds(provider: nat, inst: nat, runtime: string, name: string, digest: string) returns (found: bool)
      modifies this`ads
      ensures ads == Redigest(old(ads), provider, inst, runtime, name, digest)
      ensures found <==> HasAd(old(ads), provider, inst, runtime, name)
    {
      var k, was := 0, ads;
      found := false;
      while k < |ads|
        invariant 0 <= k <= |ads| == |was|
        invariant found <==> exists n :: 0 <= n < k && SameAd(was[n], provider, inst, runtime, name)
        invariant forall n :: 0 <= n < |was| ==>
                    ads[n] == if n < k then Seen(was[n], provider, inst, runtime, name, digest) else was[n]
      {
        if SameAd(ads[k], provider, inst, runtime, name) {
          ads, found := ads[k := ads[k].(digest := digest)], true;
        }
        k := k + 1;
      }
    }

    /** The update, and the insert when no row matched. */
    method UpsertAd(c: nat, runtime: string, name: string, digest: string)
      requires c < |sessions| && sessions[c].inst.Some? && !Blank(name)
      modifies this`ads
      ensures Tables() == Next(old(Tables()), Advertise(c, runtime, name, digest,
                                                        MatchVersion(versions, RuntimeOf(runtime), name)))
    {
      hide Blank, Matches, MatchVersion, RuntimeOf, HasAd, Redigest;
      var provider, inst, run := sessions[c].provider, sessions[c].inst.value, RuntimeOf(runtime);
      ghost var was := ads;
      var found := UpdateAds(provider, inst, run, name, digest);
      if !found {
        NoAdSeen(was, provider, inst, run, name, digest);
        ads := ads + [Ad(provider, inst, run, name, MatchVersion(versions, run, name), digest, Pending)];
      }
    }

    method ModelList(c: nat, runtime: string, models: seq<(string, string)>, done: nat)
      requires c < |sessions|
      modifies this`ads
      ensures Tables() == Run(old(Tables()), Labels(versions, c, ModelListMessage(runtime, models, done)))
    {
      hide Run, Matches, RuntimeOf, MatchVersion, HasAd, DoAdvertise, Blank;
      if sessions[c].inst.None? {
        IdleList(Tables(), c, runtime, if done < |models| then models[..done] else models);
        return;
      }
      var k := 0;
      ListStarts(Tables(), c, runtime, models);
      while k < |models| && k < done
        invariant 0 <= k <= |models| && k <= done
        invariant Tables() == Run(old(Tables()), ListLabels(versions, c, runtime, models[..k]))
      {
        ListGrows(old(Tables()), c, runtime, models, k);
        if !Blank(models[k].0) {
          UpsertAd(c, runtime, models[k].0, models[k].1);
        }
        k := k + 1;
      }
      assert models[..k] == if done < |models| then models[..done] else models;
    }

    method Handle(c: nat, m: Message)
      requires c < |sessions| && OwnRows(Tables())
      modifies this`instances, this`ads, this`sessions, this`hardware, this`completed
      ensures Tables() == Run(old(Tables()), Labels(versions, c, m)) && |sessions| == |old(sessions)|
      ensures completed == old(completed) +
                           match m
                           case ResultMessage(result) => [result]
                           case ErrorMessage(job, errorCode) => [H.JobResult(job, errorCode, 0, None, 0)]
                           case _ => []
    {
      match m
      case HelloMessage(key, ok) => SayHello(c, key, ok);
      case HeartbeatMessage(status, ok) => Beat(c, status, ok);
      case ModelListMessage(runtime, models, done) => ModelList(c, runtime, models, done);
      case HardwareMessage(report, ok) =>
        if sessions[c].inst.Some? && ok {
          hardware := hardware + [Hardware(sessions[c].inst.value, report)];
        }
      case ResultMessage(result) => completed := completed + [result];
      case ErrorMessage(job, errorCode) => completed := completed + [H.FromError(job, errorCode)];
      case OtherMessage =>
    }

    /** One provider connection: its messages are handled one after another. */
    method ProviderWS(provider: nat, messages: seq<Message>)
      requires provider < |providers| && OwnRows(Tables())
      modifies this`instances, this`ads, this`sessions, this`hardware, this`completed
      ensures Tables() ==
              if providers[provider].disabled then old(Tables())
              else Run(Next(old(Tables()), Connect(provider)), AllLabels(versions, |old(sessions)|, messages))
    {
      hide Run, Next, Labels, AllLabels, OwnRows;
      if providers[provider].disabled {
        return;
      }
      var k := 0;
      var c := Open(provider);
      ghost var start := Tables();
      NextKeepsOwnRows(old(Tables()), Connect(provider));
      RunNothing(start, c, versions, messages);
      while k < |messages|
        invariant 0 <= k <= |messages| && c < |sessions|
        invariant OwnRows(Tables())
        invariant Tables() == Run(start, AllLabels(versions, c, messages[..k]))
      {
        ghost var before := Tables();
        Handle(c, messages[k]);
        RunKeepsOwnRows(before, Labels(versions, c, messages[k]));
        RunAppend(start, AllLabels(versions, c, messages[..k]), Labels(versions, c, messages[k]));
        MoreLabels(versions, c, messages, k);
        k := k + 1;
      }
      assert messages[..k] == messages;
    }

    method Open(provider: nat) returns (c: nat)
      requires provider < |providers| && !providers[provider].disabled
      modifies this`sessions
      ensures Tables() == Next(old(Tables()), Connect(provider)) && c == |old(sessions)| < |sessions|
    {
      c := |sessions|;
      sessions := sessions + [Session(provider, None)];
    }

    /** UPDATE ... WHERE status IN (...) AND last_heartbeat_at < cutoff. */
    method MarkStaleOffline(tick: int)
      requires tick <= now
      modifies this`instances, this`lastSweep
      ensures Tables() == Next(old(Tables()), Sweep(tick))
      ensures forall k :: 0 <= k < |instances| ==>
                instances[k] == if old(instances)[k].status != Offline && old(instances)[k].heartbeat < tick - timeout
                                then old(instances)[k].(status := Offline) else old(instances)[k]
    {
      var k, was := 0, instances;
      while k < |instances|
        invariant 0 <= k <= |instances| == |was|
        invariant forall n :: 0 <= n < |was| ==> instances[n] == if n < k then Swept(was[n], tick - timeout) else was[n]
      {
        if instances[k].status != Offline && instances[k].heartbeat < tick - timeout {
          instances := instances[k := instances[k].(status := Offline)];
        }
        k := k + 1;
      }
      lastSweep := Some(tick);
    }

    method DisableProvider(provider: nat)
      requires provider < |providers|
      modifies this`instances, this`providers
      ensures Tables() == Next(old(Tables()), Disable(provider))
    {
      var k, was := 0, instances;
      providers := providers[provider := providers[provider].(disabled := true)];
      while k < |instances|
        modifies this`instances
        invariant 0 <= k <= |instances| == |was|
        invariant forall n :: 0 <= n < |was| ==>
                    instances[n] == if n < k then Disconnected(was[n], provider) else was[n]
      {
        if instances[k].provider == provider {
          instances := instances[k := instances[k].(status := Offline)];
        }
        k := k + 1;
      }
      assert instances == DisconnectAll(was, provider);
    }

    /** The latest heartbeat wins; no row is found exactly when no row is eligible. */
    method FindRoutableProvider(model: nat) returns (r: Option<nat>)
      ensures r.Some? ==> Routes(Tables(), model, r.value)
      ensures r.None? <==> forall a :: !Eligible(Tables(), model, a)
      ensures r.Some? ==> r.value < |ads| && ads[r.value].matched.Some? && ads[r.value].matched.value.model == model
    {
      r := None;
      var k := 0;
      while k < |ads|
        invariant 0 <= k <= |ads|
        invariant r.Some? ==> Eligible(Tables(), model, r.value)
        invariant forall b :: 0 <= b < k && Eligible(Tables(), model, b) ==>
                    r.Some? && HeartbeatOf(Tables(), b) <= HeartbeatOf(Tables(), r.value)
      {
        if Eligible(Tables(), model, k) && (r.None? || HeartbeatOf(Tables(), r.value) < HeartbeatOf(Tables(), k)) {
          r := Some(k);
        }
        k := k + 1;
      }
    }
  }
}
