/** What every reachable state of the credentials system satisfies. */
module CredentialInvariant {
  import opened Wrappers
  import opened CredentialCache
  import opened CredentialSystem

  ghost predicate ReadsMap(s: State, t: nat) {
    t < |s.tasks| && s.tasks[t].pc.MapReading?
  }

  ghost predicate WritesMap(s: State, t: nat) {
    t < |s.tasks| && s.tasks[t].pc.MapWriting?
  }

  /** The map lock is held by exactly the tasks inside its critical sections. */
  ghost predicate MapLock(s: State) {
    && (forall t: nat :: t in s.mapReaders <==> ReadsMap(s, t))
    && (forall t: nat :: WritesMap(s, t) <==> s.mapWriter == Some(t))
    && (s.mapWriter.Some? ==> s.mapReaders == {})
  }

  ghost predicate ReadsCache(s: State, t: nat, p: nat) {
    t < |s.tasks| && s.tasks[t].pc.Reading? && s.tasks[t].pc.p == p
  }

  ghost predicate WritesCache(s: State, t: nat, p: nat) {
    t < |s.tasks| && (s.tasks[t].pc.Writing? || s.tasks[t].pc.Fetching?) && s.tasks[t].pc.p == p
  }

  /** A cache lock is held by exactly the tasks inside its critical sections. */
  ghost predicate CacheLock(s: State, p: nat)
    requires p < |s.providers|
  {
    && (forall t: nat :: t in s.providers[p].readers <==> ReadsCache(s, t, p))
    && (forall t: nat :: WritesCache(s, t, p) <==> s.providers[p].writer == Some(t))
    && (s.providers[p].writer.Some? ==> s.providers[p].readers == {})
  }

  ghost predicate CacheLocks(s: State) {
    forall p :: 0 <= p < |s.providers| ==> CacheLock(s, p)
  }

  ghost predicate Bindings(s: State) {
    forall k :: k in s.bindings ==> s.bindings[k] < |s.providers| && s.providers[s.bindings[k]].key == k
  }

  ghost predicate Bound(s: State, p: nat) {
    p < |s.providers| && s.providers[p].key in s.bindings && s.bindings[s.providers[p].key] == p
  }

  /** A call that has its provider uses the one bound to its identity. */
  ghost predicate UsesBound(s: State, t: nat)
    requires t < |s.tasks|
  {
    var task := s.tasks[t];
    task.pc.HasProvider() ==> task.key in s.bindings && s.bindings[task.key] == task.pc.p
  }

  /** A provider built but not yet inserted is not bound, and no other call holds it. */
  ghost predicate OwnsBuilt(s: State, t: nat)
    requires t < |s.tasks|
  {
    var task := s.tasks[t];
    task.pc.HasBuilt() ==>
      && task.pc.built < |s.providers|
      && s.providers[task.pc.built].key == task.key
      && !Bound(s, task.pc.built)
      && forall u :: 0 <= u < |s.tasks| && u != t && s.tasks[u].pc.HasBuilt() ==> s.tasks[u].pc.built != task.pc.built
  }

  ghost predicate References(s: State) {
    && (forall t :: 0 <= t < |s.tasks| ==> UsesBound(s, t))
    && (forall t :: 0 <= t < |s.tasks| ==> OwnsBuilt(s, t))
  }

  /** Consecutive installs are at least half the earlier validity apart. */
  ghost predicate Spaced(installs: seq<Install>) {
    forall i {:trigger installs[i]} :: 0 <= i < |installs| - 1 ==>
                                         var due := RefreshTime(installs[i].credentials, installs[i].at);
                                         due.Some? && due.value <= installs[i + 1].at
  }

  ghost predicate Entry(pr: Provider, clock: Time) {
    && Spaced(pr.installs)
    && pr.entry == CellOf(pr.Latest())
    && (pr.Latest().Some? ==> pr.Latest().value.at <= clock)
  }

  /** A cell holds the latest install, and a provider that is not bound has never been asked. */
  ghost predicate EntryOk(s: State, p: nat)
    requires p < |s.providers|
  {
    Entry(s.providers[p], s.clock) && (!Bound(s, p) ==> s.providers[p].installs == [] && s.providers[p].fetches == 0)
  }

  ghost predicate Entries(s: State) {
    forall p :: 0 <= p < |s.providers| ==> EntryOk(s, p)
  }

  /** A reading a call carries was taken since the call came; one carried into a fetch found nothing
      usable and is not older than the entry. */
  ghost predicate SampleOk(s: State, t: nat)
    requires t < |s.tasks|
  {
    var pc := s.tasks[t].pc;
    && s.tasks[t].arrived <= s.clock
    && (pc.ReadWait? || pc.Reading? || pc.Fetching? ==> s.tasks[t].arrived <= pc.sample <= s.clock)
    && (pc.Fetching? ==> pc.p < |s.providers| && LateMiss(s.providers[pc.p], pc.sample))
  }

  ghost predicate LateMiss(pr: Provider, sample: Time) {
    && Lookup(pr.entry, sample).None?
    && (pr.Latest().Some? ==> pr.Latest().value.at <= sample)
  }

  ghost predicate Samples(s: State) {
    forall t :: 0 <= t < |s.tasks| ==> SampleOk(s, t)
  }

  ghost predicate Inv(s: State) {
    && MapLock(s) && CacheLocks(s) && Bindings(s) && References(s)
    && Entries(s) && Samples(s)
  }

  lemma KeepsMapHolder(s: State, step: Step, u: nat)
    requires Enabled(s, step)
    requires u in s.mapReaders <==> ReadsMap(s, u)
    requires WritesMap(s, u) <==> s.mapWriter == Some(u)
    requires step.Act? ==> (WritesMap(s, step.t) <==> s.mapWriter == Some(step.t))
    ensures var s' := Apply(s, step); u in s'.mapReaders <==> ReadsMap(s', u)
    ensures var s' := Apply(s, step); WritesMap(s', u) <==> s'.mapWriter == Some(u)
  {
  }

  lemma KeepsMapReadersOut(s: State, step: Step)
    requires Enabled(s, step) && (s.mapWriter.Some? ==> s.mapReaders == {})
    ensures var s' := Apply(s, step); s'.mapWriter.Some? ==> s'.mapReaders == {}
  {
  }

  lemma KeepsMapLock(s: State, step: Step)
    requires MapLock(s) && Enabled(s, step)
    ensures MapLock(Apply(s, step))
  {
    var s' := Apply(s, step);
    KeepsMapReadersOut(s, step);
    forall u: nat
      ensures u in s'.mapReaders <==> ReadsMap(s', u)
      ensures WritesMap(s', u) <==> s'.mapWriter == Some(u)
    {
      KeepsMapHolder(s, step, u);
    }
  }

  /** What a step binds: nothing, or the provider its task built. */
  lemma NewBinding(s: State, step: Step)
    requires Enabled(s, step)
    ensures var s' := Apply(s, step);
            || s'.bindings == s.bindings
            || (&& step.Act? && step.action.InsertMap?
                && s.tasks[step.t].key !in s.bindings && s.tasks[step.t].pc.HasBuilt()
                && s'.bindings == s.bindings[s.tasks[step.t].key := s.tasks[step.t].pc.built])
  {
  }

  /** A step keeps all providers and their identities. */
  lemma SameKeys(s: State, step: Step, p: nat)
    requires Enabled(s, step) && p < |s.providers|
    ensures p < |Apply(s, step).providers| && Apply(s, step).providers[p].key == s.providers[p].key
  {
  }

  lemma KeepsBindings(s: State, step: Step)
    requires Bindings(s) && References(s) && Enabled(s, step)
    ensures Bindings(Apply(s, step))
  {
    var s' := Apply(s, step);
    NewBinding(s, step);
    forall k | k in s'.bindings
      ensures s'.bindings[k] < |s'.providers| && s'.providers[s'.bindings[k]].key == k
    {
      if k !in s.bindings {
        assert OwnsBuilt(s, step.t);
      }
      SameKeys(s, step, s'.bindings[k]);
    }
  }

  /** Two holders of one cache's write guard are one task. */
  lemma OneWriter(s: State, p: nat, t: nat, u: nat)
    requires p < |s.providers| && CacheLock(s, p)
    requires WritesCache(s, t, p) && WritesCache(s, u, p)
    ensures t == u
  {
  }

  lemma KeepsReader(s: State, step: Step, p: nat, u: nat)
    requires p < |s.providers| && Enabled(s, step)
    requires u in s.providers[p].readers <==> ReadsCache(s, u, p)
    ensures var s' := Apply(s, step); u in s'.providers[p].readers <==> ReadsCache(s', u, p)
  {
  }

  lemma KeepsWriter(s: State, step: Step, p: nat, u: nat)
    requires p < |s.providers| && Enabled(s, step)
    requires WritesCache(s, u, p) <==> s.providers[p].writer == Some(u)
    requires step.Act? ==> (WritesCache(s, step.t, p) <==> s.providers[p].writer == Some(step.t))
    ensures var s' := Apply(s, step); WritesCache(s', u, p) <==> s'.providers[p].writer == Some(u)
  {
  }

  lemma KeepsReadersOut(s: State, step: Step, p: nat)
    requires p < |s.providers| && Enabled(s, step)
    requires s.providers[p].writer.Some? ==> s.providers[p].readers == {}
    ensures var pr := Apply(s, step).providers[p]; pr.writer.Some? ==> pr.readers == {}
  {
  }

  /** Nobody is inside the critical sections of a provider built by this step. */
  lemma NewProviderUnlocked(s: State, step: Step, u: nat)
    requires Enabled(s, step)
    requires u < |s.tasks| && s.tasks[u].pc.HasProvider() ==> s.tasks[u].pc.p < |s.providers|
    requires step.Act? && step.action.LookupMap? && s.tasks[step.t].key in s.bindings ==>
               s.bindings[s.tasks[step.t].key] < |s.providers|
    ensures var s' := Apply(s, step); !ReadsCache(s', u, |s.providers|) && !WritesCache(s', u, |s.providers|)
  {
  }

  lemma KeepsCacheLocks(s: State, step: Step)
    requires CacheLocks(s) && Bindings(s) && References(s) && Enabled(s, step)
    ensures CacheLocks(Apply(s, step))
  {
    var s' := Apply(s, step);
    forall p | 0 <= p < |s'.providers|
      ensures CacheLock(s', p)
    {
      if p < |s.providers| {
        assert CacheLock(s, p);
        KeepsReadersOut(s, step, p);
        forall u: nat
          ensures u in s'.providers[p].readers <==> ReadsCache(s', u, p)
          ensures WritesCache(s', u, p) <==> s'.providers[p].writer == Some(u)
        {
          KeepsReader(s, step, p, u);
          KeepsWriter(s, step, p, u);
        }
      } else {
        assert s'.providers[p].readers == {} && s'.providers[p].writer == None;
        forall u: nat
          ensures !ReadsCache(s', u, p) && !WritesCache(s', u, p)
        {
          assert u < |s.tasks| ==> UsesBound(s, u);
          NewProviderUnlocked(s, step, u);
        }
      }
    }
  }

  lemma KeepsUsesBound(s: State, step: Step, t: nat)
    requires Enabled(s, step)
    requires t < |s.tasks| ==> UsesBound(s, t)
    requires t < |Apply(s, step).tasks|
    ensures UsesBound(Apply(s, step), t)
  {
  }

  /** A task that holds a built provider held it before, or has just built it. */
  lemma BuiltOrigin(s: State, step: Step, t: nat)
    requires Enabled(s, step)
    requires t < |s.tasks| && Apply(s, step).tasks[t].pc.HasBuilt()
    ensures var built := Apply(s, step).tasks[t].pc.built;
            || (s.tasks[t].pc.HasBuilt() && s.tasks[t].pc.built == built && step != Act(t, FinishBuild)
                && step != Act(t, InsertMap))
            || (step == Act(t, FinishBuild) && built == |s.providers|)
  {
  }

  lemma BuiltStaysUnbound(s: State, step: Step, t: nat)
    requires Bindings(s) && References(s) && Enabled(s, step)
    requires t < |s.tasks| && Apply(s, step).tasks[t].pc.HasBuilt()
    ensures !Bound(Apply(s, step), Apply(s, step).tasks[t].pc.built)
  {
    BuiltOrigin(s, step, t);
    assert OwnsBuilt(s, t);
    if step.Act? && step.action.InsertMap? {
      assert OwnsBuilt(s, step.t);
    }
  }

  lemma BuiltStaysDistinct(s: State, step: Step, t: nat, u: nat)
    requires References(s) && Enabled(s, step)
    requires t < |s.tasks| && u < |s.tasks| && t != u
    requires Apply(s, step).tasks[t].pc.HasBuilt() && Apply(s, step).tasks[u].pc.HasBuilt()
    ensures Apply(s, step).tasks[t].pc.built != Apply(s, step).tasks[u].pc.built
  {
    BuiltOrigin(s, step, t);
    BuiltOrigin(s, step, u);
    assert OwnsBuilt(s, t) && OwnsBuilt(s, u);
  }

  lemma KeepsOwnsBuilt(s: State, step: Step, t: nat)
    requires Bindings(s) && References(s) && Enabled(s, step)
    requires t < |Apply(s, step).tasks|
    ensures OwnsBuilt(Apply(s, step), t)
  {
    var s' := Apply(s, step);
    if t < |s.tasks| && s'.tasks[t].pc.HasBuilt() {
      BuiltStaysUnbound(s, step, t);
      forall u | 0 <= u < |s'.tasks| && u != t && s'.tasks[u].pc.HasBuilt()
        ensures s'.tasks[u].pc.built != s'.tasks[t].pc.built
      {
        BuiltStaysDistinct(s, step, t, u);
      }
      assert OwnsBuilt(s, t);
    }
  }

  lemma KeepsReferences(s: State, step: Step)
    requires Bindings(s) && References(s) && Enabled(s, step)
    ensures References(Apply(s, step))
  {
    forall t | 0 <= t < |Apply(s, step).tasks|
      ensures UsesBound(Apply(s, step), t) && OwnsBuilt(Apply(s, step), t)
    {
      KeepsUsesBound(s, step, t);
      KeepsOwnsBuilt(s, step, t);
    }
  }

  /** An install that follows a due refresh keeps the spacing. */
  lemma KeepsEntry(pr: Provider, sample: Time, now: Time, fetched: ProviderResult)
    requires Entry(pr, now)
    requires sample <= now && Lookup(pr.entry, sample).None?
    ensures Entry(Refreshed(pr, now, fetched), now)
  {
  }

  lemma KeepsProviderEntry(s: State, t: nat, action: Action, p: nat)
    requires p < |s.providers| && Entry(s.providers[p], s.clock)
    requires Enabled(s, Act(t, action)) && SampleOk(s, t)
    ensures Entry(Do(s, t, action).providers[p], s.clock)
  {
    if action.FetchDone? && s.tasks[t].pc.p == p {
      KeepsEntry(s.providers[p], s.tasks[t].pc.sample, s.clock, action.fetched);
    }
  }

  /** A provider that is not bound after the step was not bound before, so the step is not a step
      of a call that uses it. */
  lemma UnboundUntouched(s: State, t: nat, action: Action, p: nat)
    requires p < |s.providers| && Enabled(s, Act(t, action)) && UsesBound(s, t)
    requires s.tasks[t].pc.HasProvider() && s.tasks[t].pc.p == p ==> s.providers[p].key == s.tasks[t].key
    requires !Bound(Do(s, t, action), p)
    ensures !Bound(s, p) && Do(s, t, action).providers[p] == s.providers[p]
  {
  }

  lemma KeepsEntries(s: State, step: Step)
    requires Bindings(s) && References(s) && Entries(s) && Samples(s) && Enabled(s, step)
    ensures Entries(Apply(s, step))
  {
    var s' := Apply(s, step);
    forall p | 0 <= p < |s'.providers|
      ensures EntryOk(s', p)
    {
      if p < |s.providers| {
        assert EntryOk(s, p);
        if step.Act? {
          assert SampleOk(s, step.t) && UsesBound(s, step.t);
          KeepsProviderEntry(s, step.t, step.action, p);
          if !Bound(s', p) {
            UnboundUntouched(s, step.t, step.action, p);
          }
        }
      }
    }
  }

  lemma KeepsSample(s: State, step: Step, t: nat)
    requires Enabled(s, step) && t < |s.tasks| && SampleOk(s, t)
    requires var pc := s.tasks[t].pc; pc.Writing? ==> pc.p < |s.providers| && Entry(s.providers[pc.p], s.clock)
    requires step.Act? && step.t != t && s.tasks[t].pc.Fetching? && s.tasks[step.t].pc.Fetching? ==>
               s.tasks[step.t].pc.p != s.tasks[t].pc.p
    ensures SampleOk(Apply(s, step), t)
  {
  }

  lemma KeepsSamples(s: State, step: Step)
    requires CacheLocks(s) && Bindings(s) && References(s) && Entries(s) && Samples(s) && Enabled(s, step)
    ensures Samples(Apply(s, step))
  {
    var s' := Apply(s, step);
    forall t | 0 <= t < |s'.tasks|
      ensures SampleOk(s', t)
    {
      if t < |s.tasks| {
        assert SampleOk(s, t);
        if s.tasks[t].pc.Writing? {
          assert UsesBound(s, t) && EntryOk(s, s.tasks[t].pc.p);
        }
        if step.Act? && s.tasks[t].pc.Fetching? && s.tasks[step.t].pc.Fetching?
           && s.tasks[t].pc.p == s.tasks[step.t].pc.p {
          OneWriter(s, s.tasks[t].pc.p, t, step.t);
        }
        KeepsSample(s, step, t);
      }
    }
  }

  lemma KeepsInv(s: State, step: Step)
    requires Inv(s) && Enabled(s, step)
    ensures Inv(Apply(s, step))
  {
    KeepsMapLock(s, step);
    KeepsCacheLocks(s, step);
    KeepsBindings(s, step);
    KeepsReferences(s, step);
    KeepsEntries(s, step);
    KeepsSamples(s, step);
  }

  /** Every state of every run satisfies the invariant. */
  lemma {:induction false} RunKeepsInv(states: seq<State>, steps: seq<Step>, i: nat)
    requires IsRun(states, steps) && i < |states|
    ensures Inv(states[i])
  {
    if i > 0 {
      RunKeepsInv(states, steps, i - 1);
      KeepsInv(states[i - 1], steps[i - 1]);
    }
  }
}
