/** The hub as an object: maps changed in place under its mutex. Each critical section is a method
    proved to be one step of the state machine in module Hub; Dispatch runs them in its own order. */
module HubService {
  import opened Credits
  import opened Hub

  class Server {
    var providers: set<nat>
    var jobs: map<nat, nat>
    var slots: seq<Option<JobResult>>
    // What the state machine knows besides: who each channel was made for, and every goroutine.
    ghost var owners: seq<nat>
    ghost var dispatches: map<nat, Hub.Dispatch>
    ghost var completions: seq<Completion>

    constructor ()
      ensures Contents() == EMPTY
    {
      providers, jobs, slots := {}, map[], [];
      owners, dispatches, completions := [], map[], [];
    }

    ghost function Contents(): State
      reads this
    {
      State(providers, jobs, owners, slots, dispatches, completions)
    }

    method Register(provider: nat)
      modifies this`providers
      ensures Contents() == Next(old(Contents()), Label.Register(provider))
    {
      providers := providers + {provider};
    }

    method Unregister(provider: nat)
      modifies this`providers
      ensures Contents() == Next(old(Contents()), Label.Unregister(provider))
    {
      providers := providers - {provider};
    }

    /** Disconnect also tells whether there was a connection to close. */
    method Disconnect(provider: nat) returns (closes: bool)
      modifies this`providers
      ensures Contents() == Next(old(Contents()), Label.Unregister(provider))
      ensures closes <==> provider in old(providers)
    {
      closes := provider in providers;
      providers := providers - {provider};
    }

    method Lookup(ghost g: nat, ghost job: nat, provider: nat) returns (connected: bool)
      requires g !in dispatches
      modifies this`dispatches
      ensures Contents() == Next(old(Contents()), Label.Lookup(g, job, provider))
      ensures connected <==> provider in providers
      ensures var stage := if connected then Connected else Returned(ProviderUnavailable);
              dispatches == old(dispatches)[g := Hub.Dispatch(job, stage)]
    {
      connected := provider in providers;
      dispatches := dispatches[g := Hub.Dispatch(job, if connected then Connected else Returned(ProviderUnavailable))];
    }

    method Insert(ghost g: nat, job: nat) returns (c: nat)
      requires g in dispatches && dispatches[g] == Hub.Dispatch(job, Connected)
      modifies this`jobs, this`slots, this`owners, this`dispatches
      ensures Contents() == Next(old(Contents()), Label.Insert(g))
      ensures c == |old(slots)| && slots == old(slots) + [None] && jobs == old(jobs)[job := c]
      ensures dispatches == old(dispatches)[g := Hub.Dispatch(job, Registered(c))]
    {
      c := |slots|;
      slots := slots + [None];
      jobs := jobs[job := c];
      owners := owners + [job];
      dispatches := dispatches[g := dispatches[g].(stage := Registered(c))];
    }

    method Delete(ghost g: nat, job: nat)
      requires g in dispatches && dispatches[g].job == job && dispatches[g].stage.Leaving?
      modifies this`jobs, this`dispatches
      ensures Contents() == Next(old(Contents()), Label.Delete(g))
      ensures jobs == old(jobs) - {job}
      ensures dispatches == old(dispatches)[g := Hub.Dispatch(job, Returned(old(dispatches[g].stage.pending)))]
    {
      jobs := jobs - {job};
      dispatches := dispatches[g := dispatches[g].(stage := Returned(dispatches[g].stage.pending))];
    }

    /** Complete up to its send; the send itself waits while the channel is full. */
    method StartComplete(result: JobResult) returns (chan: Option<nat>)
      modifies this`completions
      ensures Contents() == Next(old(Contents()), Complete(result))
      ensures chan == if result.job in jobs then Some(jobs[result.job]) else None
      ensures completions ==
              old(completions) + [if chan.Some? then Sending(result, chan.value) else Completed(result, false)]
    {
      chan := if result.job in jobs then Some(jobs[result.job]) else None;
      completions := completions + [if chan.Some? then Sending(result, chan.value) else Completed(result, false)];
    }

    method TrySend(ghost k: nat, result: JobResult, c: nat) returns (sent: bool)
      requires k < |completions| && completions[k] == Sending(result, c)
      modifies this`slots, this`completions
      ensures Contents() == Next(old(Contents()), Send(k))
      ensures sent <==> CanSend(old(Contents()), k)
      ensures slots == if sent then old(slots)[c := Some(result)] else old(slots)
    {
      sent := c < |slots| && slots[c].None?;
      if sent {
        slots := slots[c := Some(result)];
        completions := completions[k := Completed(result, true)];
      }
    }

    /** The select of Dispatch when it runs: a buffered result, or else the timeout. */
    method Select(ghost g: nat, c: nat) returns (outcome: Outcome)
      requires g in dispatches && dispatches[g].stage == Waiting(c) && c < |slots|
      modifies this`slots, this`dispatches
      ensures Contents() == Next(old(Contents()), if old(slots)[c].Some? then Receive(g) else Timeout(g))
      ensures outcome == if old(slots)[c].Some? then Received(old(slots)[c].value) else TimedOut
      ensures dispatches == old(dispatches)[g := old(dispatches[g]).(stage := Leaving(c, outcome))]
    {
      if slots[c].Some? {
        outcome := Received(slots[c].value);
        slots := slots[c := None];
      } else {
        outcome := TimedOut;
      }
      dispatches := dispatches[g := dispatches[g].(stage := Leaving(c, outcome))];
    }

    method WriteRequest(ghost g: nat, ghost ok: bool)
      requires g in dispatches && dispatches[g].stage.Registered?
      modifies this`dispatches
      ensures Contents() == Next(old(Contents()), Label.WriteRequest(g, ok))
      ensures var d := old(dispatches[g]);
              var stage := if ok then Waiting(d.stage.chan) else Leaving(d.stage.chan, WriteFailed);
              dispatches == old(dispatches)[g := d.(stage := stage)]
    {
      ghost var c := dispatches[g].stage.chan;
      dispatches := dispatches[g := dispatches[g].(stage := if ok then Waiting(c) else Leaving(c, WriteFailed))];
    }

    /** Every entry of the map names a channel. */
    ghost predicate Valid()
      reads this
    {
      forall j :: j in jobs ==> jobs[j] < |slots|
    }

    /** The wait of Dispatch, during which a provider session may complete one result. */
    method Await(ghost g: nat, job: nat, c: nat, arriving: Option<JobResult>) returns (outcome: Outcome)
      requires Valid() && g in dispatches && dispatches[g] == Hub.Dispatch(job, Waiting(c))
      requires c < |slots| && slots[c] == None && job in jobs
      requires forall j :: j in jobs ==> (jobs[j] == c <==> j == job)
      modifies this`slots, this`dispatches, this`completions
      ensures outcome ==
              if arriving.Some? && arriving.value.job == job then Received(arriving.value) else TimedOut
      ensures dispatches == old(dispatches)[g := Hub.Dispatch(job, Leaving(c, outcome))]
    {
      hide Hub.Next;
      if arriving.Some? {
        ghost var k := |completions|;
        var chan := StartComplete(arriving.value);
        if chan.Some? {
          var sent := TrySend(k, arriving.value, chan.value);
          assert chan.value != c ==> slots[c] == None;
          assert chan.value == c ==> slots[c] == arriving;
        }
      }
      outcome := Select(g, c);
    }

    /** Dispatch between its insert and its deferred delete. */
    method Exchange(ghost g: nat, job: nat, c: nat, writeOk: bool, arriving: Option<JobResult>)
      returns (outcome: Outcome)
      requires Valid() && g in dispatches && dispatches[g] == Hub.Dispatch(job, Registered(c))
      requires c < |slots| && slots[c] == None && job in jobs
      requires forall j :: j in jobs ==> (jobs[j] == c <==> j == job)
      modifies this`slots, this`dispatches, this`completions
      ensures outcome ==
              if !writeOk then WriteFailed
              else if arriving.Some? && arriving.value.job == job then Received(arriving.value)
              else TimedOut
      ensures dispatches == old(dispatches)[g := Hub.Dispatch(job, Leaving(c, outcome))]
    {
      hide Hub.Next;
      WriteRequest(g, writeOk);
      if !writeOk {
        return WriteFailed;
      }
      outcome := Await(g, job, c, arriving);
    }

    /** Dispatch by goroutine g with nobody else running, except that a provider session may complete
        one result while it waits: only a result for this very job is returned, and the map comes back
        as it was without the job. */
    method Dispatch(ghost g: nat, provider: nat, job: nat, writeOk: bool, arriving: Option<JobResult>)
      returns (outcome: Outcome)
      requires Valid() && g !in dispatches
      modifies this`jobs, this`slots, this`owners, this`dispatches, this`completions
      ensures dispatches == old(dispatches)[g := Hub.Dispatch(job, Returned(outcome))]
      ensures jobs == if provider in providers then old(jobs) - {job} else old(jobs)
      ensures outcome ==
              if provider !in providers then ProviderUnavailable
              else if !writeOk then WriteFailed
              else if arriving.Some? && arriving.value.job == job then Received(arriving.value)
              else TimedOut
    {
      hide Hub.Next;
      var connected := Lookup(g, job, provider);
      if !connected {
        return ProviderUnavailable;
      }
      var c := Insert(g, job);
      outcome := Exchange(g, job, c, writeOk, arriving);
      Delete(g, job);
      assert jobs == old(jobs) - {job};
    }
  }
}
