/** Safety of the credentials system over whole runs. */
module CredentialTheorems {
  import opened Wrappers
  import opened CredentialCache
  import opened CredentialSystem
  import opened CredentialInvariant

  /** A binding of the provider map is never replaced or removed. */
  lemma {:induction false} BindingKept(states: seq<State>, steps: seq<Step>, i: nat, j: nat, key: Key)
    requires IsRun(states, steps) && i <= j < |states|
    requires key in states[i].bindings
    ensures key in states[j].bindings && states[j].bindings[key] == states[i].bindings[key]
  {
    if i < j {
      BindingKept(states, steps, i, j - 1, key);
      assert states[j] == Apply(states[j - 1], steps[j - 1]);
    }
  }

  /** All calls for one identity, at any two moments of a run, use one provider object. */
  lemma OneProviderPerIdentity(states: seq<State>, steps: seq<Step>, i: nat, t: nat, j: nat, u: nat)
    requires IsRun(states, steps) && i < |states| && j < |states|
    requires t < |states[i].tasks| && u < |states[j].tasks|
    requires states[i].tasks[t].key == states[j].tasks[u].key
    requires states[i].tasks[t].pc.HasProvider() && states[j].tasks[u].pc.HasProvider()
    ensures states[i].tasks[t].pc.p == states[j].tasks[u].pc.p
  {
    RunKeepsInv(states, steps, i);
    RunKeepsInv(states, steps, j);
    assert UsesBound(states[i], t) && UsesBound(states[j], u);
    var key := states[i].tasks[t].key;
    if i <= j {
      BindingKept(states, steps, i, j, key);
    } else {
      BindingKept(states, steps, j, i, key);
    }
  }

  /** At most one inner fetch per identity is in flight in the whole process. */
  lemma SingleFlight(states: seq<State>, steps: seq<Step>, i: nat, t: nat, u: nat)
    requires IsRun(states, steps) && i < |states|
    requires t < |states[i].tasks| && u < |states[i].tasks|
    requires states[i].tasks[t].key == states[i].tasks[u].key
    requires states[i].tasks[t].pc.Fetching? && states[i].tasks[u].pc.Fetching?
    ensures t == u
  {
    var s := states[i];
    RunKeepsInv(states, steps, i);
    assert UsesBound(s, t) && UsesBound(s, u);
    var p := s.tasks[t].pc.p;
    assert CacheLock(s, p);
    OneWriter(s, p, t, u);
  }

  /** Providers are never dropped from the history, and keep their identity. */
  lemma {:induction false} ProviderKept(states: seq<State>, steps: seq<Step>, i: nat, j: nat, p: nat)
    requires IsRun(states, steps) && i <= j < |states|
    requires p < |states[i].providers|
    ensures p < |states[j].providers| && states[j].providers[p].key == states[i].providers[p].key
  {
    if i < j {
      ProviderKept(states, steps, i, j - 1, p);
      assert states[j] == Apply(states[j - 1], steps[j - 1]);
    }
  }

  /** A provider that lost the insertion race is used by no call and never asked, from then on
      and before. */
  lemma LoserNeverAsked(states: seq<State>, steps: seq<Step>, i: nat, j: nat, p: nat)
    requires IsRun(states, steps) && i <= j < |states|
    requires p < |states[i].providers|
    requires states[i].providers[p].key in states[i].bindings
    requires states[i].bindings[states[i].providers[p].key] != p
    ensures p < |states[j].providers|
    ensures states[j].providers[p].fetches == 0 && states[j].providers[p].installs == []
    ensures forall t :: 0 <= t < |states[j].tasks| && states[j].tasks[t].pc.HasProvider() ==>
                          states[j].tasks[t].pc.p != p
  {
    var s := states[j];
    RunKeepsInv(states, steps, i);
    RunKeepsInv(states, steps, j);
    ProviderKept(states, steps, i, j, p);
    BindingKept(states, steps, i, j, states[i].providers[p].key);
    assert EntryOk(s, p);
    forall t | 0 <= t < |s.tasks| && s.tasks[t].pc.HasProvider()
      ensures s.tasks[t].pc.p != p
    {
      assert UsesBound(s, t);
    }
  }

  /** The validity of what was installed at position `i`, counted from its install, is at least `v`. */
  ghost predicate ValidFor(installs: seq<Install>, i: nat, v: nat)
    requires i < |installs|
  {
    var c := installs[i].credentials;
    c.expiry.Some? ==> Remaining(c.expiry.value, installs[i].at) >= v
  }

  lemma HalfLivesApart(install: Install, v: nat)
    requires ValidFor([install], 0, v) && install.credentials.expiry.Some?
    ensures RefreshTime(install.credentials, install.at).value >= install.at + v / 2
  {
  }

  lemma OneMore(n: nat, k: nat)
    ensures (n + 1) * k == n * k + k
  {
  }

  lemma {:induction false} SpacingAddsUp(installs: seq<Install>, a: nat, b: nat, v: nat)
    requires Spaced(installs) && a <= b < |installs|
    requires forall i :: a <= i < b ==> ValidFor(installs, i, v)
    ensures (b - a) * (v / 2) <= installs[b].at - installs[a].at
  {
    if a < b {
      SpacingAddsUp(installs, a, b - 1, v);
      assert ValidFor(installs, b - 1, v);
      var last := installs[b - 1];
      assert RefreshTime(last.credentials, last.at).value <= installs[b - 1 + 1].at;
      HalfLivesApart(last, v);
      var n, half := b - 1 - a, v / 2;
      OneMore(n, half);
      assert (b - a) * half == n * half + half;
    }
  }

  /** The refresh rate of an identity, whichever calls caused the refreshes: from install `a` to
      install `b` at least half the validity passes per fetch. Only the bound provider of the
      identity ever installs anything. */
  lemma RefreshRate(states: seq<State>, steps: seq<Step>, i: nat, p: nat, a: nat, b: nat, v: nat)
    requires IsRun(states, steps) && i < |states| && p < |states[i].providers|
    requires a <= b < |states[i].providers[p].installs|
    requires forall x :: a <= x < b ==> ValidFor(states[i].providers[p].installs, x, v)
    ensures Bound(states[i], p)
    ensures var installs := states[i].providers[p].installs;
            (b - a) * (v / 2) <= installs[b].at - installs[a].at
  {
    RunKeepsInv(states, steps, i);
    assert EntryOk(states[i], p);
    SpacingAddsUp(states[i].providers[p].installs, a, b, v);
  }

  /** The clock of a run does not go back. */
  lemma {:induction false} ClockGrows(states: seq<State>, steps: seq<Step>, i: nat, j: nat)
    requires IsRun(states, steps) && i <= j < |states|
    ensures states[i].clock <= states[j].clock
  {
    if i < j {
      ClockGrows(states, steps, i, j - 1);
      assert Enabled(states[j - 1], steps[j - 1]) && states[j] == Apply(states[j - 1], steps[j - 1]);
    }
  }

  /** One step while the entry needs no refresh: it stays, and nobody asks the inner provider. */
  lemma FreshEntryStays(s: State, step: Step, p: nat)
    requires Inv(s) && Enabled(s, step) && p < |s.providers|
    requires Lookup(s.providers[p].entry, Apply(s, step).clock).Some?
    ensures Apply(s, step).providers[p].entry == s.providers[p].entry
    ensures Apply(s, step).providers[p].fetches == s.providers[p].fetches
    ensures Apply(s, step).providers[p].installs == s.providers[p].installs
  {
    if step.Act? {
      assert SampleOk(s, step.t);
    }
  }

  /** A call that ends in such a step answers with the entry. */
  lemma FreshEntryAnswers(s: State, t: nat, action: Action, p: nat)
    requires Inv(s) && Enabled(s, Act(t, action)) && p < |s.providers|
    requires Lookup(s.providers[p].entry, s.clock).Some?
    requires !s.tasks[t].pc.Returned?
    requires var pc := Do(s, t, action).tasks[t].pc; pc.Returned? && pc.p == p
    ensures Do(s, t, action).tasks[t].pc.outcome.Result() == Success(s.providers[p].entry.value.credentials)
  {
    assert SampleOk(s, t);
  }

  /** Waiters collapse: once an entry is in place, then as long as the clock stays below its
      refresh time the inner provider is not asked again and the entry does not change, however
      many calls come and wait. */
  lemma {:induction false} FreshEntryShared(states: seq<State>, steps: seq<Step>, i: nat, j: nat, p: nat)
    requires IsRun(states, steps) && i <= j < |states| && p < |states[i].providers|
    requires Lookup(states[i].providers[p].entry, states[j].clock).Some?
    ensures p < |states[j].providers|
    ensures states[j].providers[p].entry == states[i].providers[p].entry
    ensures states[j].providers[p].fetches == states[i].providers[p].fetches
    ensures states[j].providers[p].installs == states[i].providers[p].installs
  {
    if i < j {
      ClockGrows(states, steps, j - 1, j);
      FreshEntryShared(states, steps, i, j - 1, p);
      RunKeepsInv(states, steps, j - 1);
      FreshEntryStays(states[j - 1], steps[j - 1], p);
    }
  }

  lemma OnlyActorMoves(s: State, u: nat, action: Action, t: nat)
    requires Enabled(s, Act(u, action)) && t < |s.tasks|
    requires Do(s, u, action).tasks[t] != s.tasks[t]
    ensures t == u
  {
  }

  /** Every call that ends in that time answers with the shared credentials. */
  lemma WaitersGetSharedEntry(states: seq<State>, steps: seq<Step>, i: nat, j: nat, p: nat, t: nat)
    requires IsRun(states, steps) && i <= j < |steps| && p < |states[i].providers|
    requires Lookup(states[i].providers[p].entry, states[j + 1].clock).Some?
    requires t < |states[j].tasks| && !states[j].tasks[t].pc.Returned?
    requires t < |states[j + 1].tasks| && states[j + 1].tasks[t].pc.Returned? && states[j + 1].tasks[t].pc.p == p
    ensures states[j + 1].tasks[t].pc.outcome.Result() == Success(states[i].providers[p].entry.value.credentials)
  {
    ClockGrows(states, steps, j, j + 1);
    FreshEntryShared(states, steps, i, j, p);
    RunKeepsInv(states, steps, j);
    assert states[j + 1] == Apply(states[j], steps[j]);
    match steps[j]
    case Tick(_) =>
    case Spawn(_) =>
    case Act(u, action) =>
      OnlyActorMoves(states[j], u, action, t);
      FreshEntryAnswers(states[j], t, action, p);
  }

  /** Credentials without expiry are fetched once: nothing changes after they are installed. */
  lemma NoExpiryIsForever(states: seq<State>, steps: seq<Step>, i: nat, j: nat, p: nat)
    requires IsRun(states, steps) && i <= j < |states| && p < |states[i].providers|
    requires states[i].providers[p].entry.Some?
    requires states[i].providers[p].entry.value.credentials.expiry.None?
    ensures p < |states[j].providers|
    ensures states[j].providers[p].entry == states[i].providers[p].entry
    ensures states[j].providers[p].fetches == states[i].providers[p].fetches
    ensures forall t :: 0 <= t < |states[j].tasks| && states[j].tasks[t].pc.Fetching? ==> states[j].tasks[t].pc.p != p
  {
    RunKeepsInv(states, steps, i);
    assert EntryOk(states[i], p);
    FreshEntryShared(states, steps, i, j, p);
    RunKeepsInv(states, steps, j);
    forall t | 0 <= t < |states[j].tasks| && states[j].tasks[t].pc.Fetching?
      ensures states[j].tasks[t].pc.p != p
    {
      assert SampleOk(states[j], t);
    }
  }

  /** The inner provider is asked only by the second check of a call, under the write guard,
      when its own reading finds nothing usable. */
  lemma FetchNeedsOwnMiss(s: State, step: Step, p: nat)
    requires Enabled(s, step) && p < |s.providers|
    ensures Apply(s, step).providers[p].fetches == s.providers[p].fetches
            || (&& Apply(s, step).providers[p].fetches == s.providers[p].fetches + 1
                && step.Act? && step.action.Recheck? && s.tasks[step.t].pc == Writing(p)
                && Lookup(s.providers[p].entry, s.clock).None?)
  {
  }

  /** The entry changes only with the install history, so only by a successful fetch. */
  lemma {:induction false} EntryFollowsInstalls(states: seq<State>, steps: seq<Step>, i: nat, j: nat, p: nat)
    requires IsRun(states, steps) && i <= j < |states| && p < |states[i].providers|
    ensures p < |states[j].providers|
    ensures |states[i].providers[p].installs| <= |states[j].providers[p].installs|
    ensures |states[i].providers[p].installs| == |states[j].providers[p].installs| ==>
              states[j].providers[p].entry == states[i].providers[p].entry
  {
    if i < j {
      EntryFollowsInstalls(states, steps, i, j - 1, p);
      assert states[j] == Apply(states[j - 1], steps[j - 1]);
    }
  }

  /** Failures are not shared: after a failed fetch, every later waiter asks again until some
      fetch succeeds. */
  lemma FailureNotShared(states: seq<State>, steps: seq<Step>, i: nat, t: nat, error: string, j: nat, u: nat, p: nat)
    requires IsRun(states, steps) && i < j < |steps|
    requires steps[i] == Act(t, FetchDone(Failure(error))) && states[i].tasks[t].pc.p == p
    requires p < |states[j].providers| && |states[j].providers[p].installs| == |states[i].providers[p].installs|
    requires steps[j] == Act(u, Recheck) && states[j].tasks[u].pc == Writing(p)
    ensures states[j + 1].tasks[u].pc.Fetching?
    ensures states[j + 1].providers[p].fetches == states[j].providers[p].fetches + 1
  {
    RunKeepsInv(states, steps, i);
    assert SampleOk(states[i], t);
    EntryFollowsInstalls(states, steps, i, j, p);
    ClockGrows(states, steps, i, j);
  }
}
