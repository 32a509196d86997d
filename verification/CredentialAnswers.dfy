/** What the answer of a finished call rests on: a clock reading taken during that very call, and
    the cell as it was when the call decided. */
module CredentialAnswers {
  import opened Wrappers
  import opened CredentialCache
  import opened CredentialSystem
  import opened CredentialInvariant

  /** In step `k` the call reads the clock, before it asks for any guard of the cache. */
  ghost predicate ReadsEarly(states: seq<State>, steps: seq<Step>, k: nat, t: nat, p: nat, sample: Time)
    requires |states| == |steps| + 1
  {
    && k < |steps| && steps[k] == Act(t, SampleClock)
    && t < |states[k].tasks| && states[k].tasks[t].pc == Sampling(p)
    && sample == states[k].clock
  }

  /** In step `k` the call reads the clock while it holds the write guard. */
  ghost predicate ReadsGuarded(states: seq<State>, steps: seq<Step>, k: nat, t: nat, p: nat, sample: Time)
    requires |states| == |steps| + 1
  {
    && k < |steps| && steps[k] == Act(t, Recheck)
    && t < |states[k].tasks| && states[k].tasks[t].pc == Writing(p)
    && p < |states[k].providers| && states[k].providers[p].writer == Some(t)
    && sample == states[k].clock
  }

  /** The install's credentials are in the first half of their window. */
  predicate Fresh(latest: Option<Install>, sample: Time) {
    latest.Some? && FreshAt(latest.value.credentials, latest.value.at, sample)
  }

  /** The install's credentials have not expired. */
  predicate Live(latest: Option<Install>, sample: Time) {
    latest.Some? && LiveAt(latest.value.credentials, sample)
  }

  /** What the cell holds was not installed after the reading. */
  predicate Late(latest: Option<Install>, sample: Time) {
    latest.Some? ==> latest.value.at <= sample
  }

  /** The answer is what step `d` found, judged by the reading of step `k`. Hits are in the first half of
      the window of what the cell holds. A hit of the first check is live at its reading unless that was
      installed with its expiry in the past. The other answers rest on a reading taken under the write
      guard, after the cell's last install: hits are live at it, and where it is too late for a hit the
      call is answered by its own fetch, after a failure by what is live, and else by the error. */
  ghost predicate Justified(states: seq<State>, steps: seq<Step>, k: nat, d: nat, t: nat, p: nat, outcome: Outcome)
    requires |states| == |steps| + 1
  {
    && k <= d < |steps| && p < |states[d].providers| && p < |states[d + 1].providers|
    && var latest := states[d].providers[p].Latest();
    match outcome
    case ReadHit(sample, c) =>
      && ReadsEarly(states, steps, k, t, p, sample)
      && steps[d] == Act(t, CheckRead) && t in states[d].providers[p].readers
      && Fresh(latest, sample) && latest.value.credentials == c
      && (c.expiry.None? || latest.value.at <= c.expiry.value ==> Live(latest, sample))
    case WriteHit(sample, c) =>
      && ReadsGuarded(states, steps, k, t, p, sample)
      && k == d && Late(latest, sample)
      && Fresh(latest, sample) && Live(latest, sample) && latest.value.credentials == c
    case Fetched(c) =>
      && ReadsGuarded(states, steps, k, t, p, states[k].clock)
      && steps[d] == Act(t, FetchDone(Success(c))) && Late(latest, states[k].clock)
      && !Fresh(latest, states[k].clock)
      && states[d + 1].providers[p].installs == states[d].providers[p].installs + [Install(states[d].clock, c)]
    case Stale(sample, c) =>
      && ReadsGuarded(states, steps, k, t, p, sample)
      && (exists error :: steps[d] == Act(t, FetchDone(Failure(error)))) && Late(latest, sample)
      && !Fresh(latest, sample) && Live(latest, sample) && latest.value.credentials == c
    case Failed(sample, error) =>
      && ReadsGuarded(states, steps, k, t, p, sample)
      && steps[d] == Act(t, FetchDone(Failure(error))) && Late(latest, sample)
      && !Fresh(latest, sample) && !Live(latest, sample)
  }

  lemma ReadingOrigin(s: State, step: Step, t: nat)
    requires Enabled(s, step) && t < |Apply(s, step).tasks|
    ensures var pc := Apply(s, step).tasks[t].pc;
            pc.ReadWait? || pc.Reading? ==>
              && t < |s.tasks|
              && var was := s.tasks[t].pc;
              || ((was.ReadWait? || was.Reading?) && was.p == pc.p && was.sample == pc.sample)
              || (step == Act(t, SampleClock) && was == Sampling(pc.p) && pc.sample == s.clock)
    ensures var pc := Apply(s, step).tasks[t].pc;
            pc.Fetching? ==>
              && t < |s.tasks|
              && var was := s.tasks[t].pc;
              was == pc || (step == Act(t, Recheck) && was == Writing(pc.p) && pc.sample == s.clock)
  {
  }

  /** A reading a call carries is that of an earlier step of its own. */
  lemma {:induction false} ReadingIsOwn(states: seq<State>, steps: seq<Step>, i: nat, t: nat)
    requires IsRun(states, steps) && i < |states| && t < |states[i].tasks|
    ensures var pc := states[i].tasks[t].pc;
            pc.ReadWait? || pc.Reading? ==> exists k: nat :: k < i && ReadsEarly(states, steps, k, t, pc.p, pc.sample)
    ensures var pc := states[i].tasks[t].pc;
            pc.Fetching? ==> exists k: nat :: k < i && ReadsGuarded(states, steps, k, t, pc.p, pc.sample)
  {
    var pc := states[i].tasks[t].pc;
    if i > 0 && (pc.ReadWait? || pc.Reading? || pc.Fetching?) {
      var n := i - 1;
      assert states[i] == Apply(states[n], steps[n]);
      ReadingOrigin(states[n], steps[n], t);
      if steps[n] == Act(t, SampleClock) {
        assert ReadsEarly(states, steps, n, t, pc.p, pc.sample);
      } else if steps[n] == Act(t, Recheck) {
        RunKeepsInv(states, steps, n);
        assert UsesBound(states[n], t) && CacheLock(states[n], pc.p);
        assert WritesCache(states[n], t, pc.p);
        assert ReadsGuarded(states, steps, n, t, pc.p, pc.sample);
      } else {
        ReadingIsOwn(states, steps, n, t);
      }
    }
  }

  /** In step `d` the call comes to its answer. */
  ghost predicate AnswersIn(states: seq<State>, steps: seq<Step>, d: nat, t: nat, pc: Pc)
    requires |states| == |steps| + 1
  {
    && d < |steps| && steps[d].Act? && steps[d].t == t
    && t < |states[d].tasks| && !states[d].tasks[t].pc.Returned?
    && t < |states[d + 1].tasks| && states[d + 1].tasks[t].pc == pc
  }

  lemma {:induction false} AnswerHasStep(states: seq<State>, steps: seq<Step>, i: nat, t: nat)
    requires IsRun(states, steps) && i < |states| && t < |states[i].tasks|
    requires states[i].tasks[t].pc.Returned?
    ensures exists d: nat :: d < i && AnswersIn(states, steps, d, t, states[i].tasks[t].pc)
  {
    if i > 0 {
      assert states[i] == Apply(states[i - 1], steps[i - 1]);
      if t < |states[i - 1].tasks| && states[i - 1].tasks[t].pc.Returned? {
        AnswerHasStep(states, steps, i - 1, t);
      } else {
        assert AnswersIn(states, steps, i - 1, t, states[i].tasks[t].pc);
      }
    }
  }

  /** The checks find what the latest install has to offer. */
  lemma CellExactly(pr: Provider, now: Time, sample: Time, error: string)
    requires Entry(pr, now)
    ensures Lookup(pr.entry, sample) ==
            if Fresh(pr.Latest(), sample) then Some(pr.Latest().value.credentials) else None
    ensures Fallback(pr.entry, sample, error) ==
            if Live(pr.Latest(), sample) then Success(pr.Latest().value.credentials) else Failure(error)
  {
    if pr.Latest().Some? {
      HitExactly(pr.Latest().value.credentials, pr.Latest().value.at, sample, error);
    } else {
      HitExactly(Credentials("", None), 0, sample, error);
    }
  }

  /** A fresh install is live, unless it was installed dead and the reading is older. */
  lemma FreshIsLive(latest: Option<Install>, sample: Time)
    requires Fresh(latest, sample)
    ensures var Install(at, c) := latest.value;
            (c.expiry.None? || at <= c.expiry.value || at <= sample) ==> Live(latest, sample)
  {
  }

  /** The answer to a fetch that was asked for after a miss. */
  lemma AnswerIsSound(pr: Provider, sample: Time, now: Time, fetched: ProviderResult)
    requires Entry(pr, now) && LateMiss(pr, sample)
    ensures !Fresh(pr.Latest(), sample) && Late(pr.Latest(), sample)
    ensures match Answer(pr, sample, fetched)
            case Fetched(c) => fetched == Success(c)
            case Stale(at, c) =>
              && at == sample && fetched.Failure?
              && Live(pr.Latest(), sample) && pr.Latest().value.credentials == c
            case Failed(at, error) => at == sample && fetched == Failure(error) && !Live(pr.Latest(), sample)
            case _ => false
  {
    CellExactly(pr, now, sample, if fetched.Failure? then fetched.error else "");
  }

  /** The first check under the read guard hits exactly in the first half of the window, by the reading
      the call brought. */
  lemma FirstCheckExactly(states: seq<State>, steps: seq<Step>, i: nat, t: nat)
    requires IsRun(states, steps) && i < |steps| && steps[i] == Act(t, CheckRead)
    ensures t < |states[i].tasks| && t < |states[i + 1].tasks|
    ensures states[i].tasks[t].pc.Reading? && states[i].tasks[t].pc.p < |states[i].providers|
    ensures var Reading(p, sample) := states[i].tasks[t].pc;
            var latest := states[i].providers[p].Latest();
            states[i + 1].tasks[t].pc ==
            if Fresh(latest, sample) then Returned(p, ReadHit(sample, latest.value.credentials)) else WriteWait(p)
  {
    RunKeepsInv(states, steps, i);
    assert Enabled(states[i], steps[i]) && states[i + 1] == Apply(states[i], steps[i]);
    var Reading(p, sample) := states[i].tasks[t].pc;
    assert EntryOk(states[i], p);
    CellExactly(states[i].providers[p], states[i].clock, sample, "");
  }

  /** The second check under the write guard does so by the clock; from the middle of the window on, and
      without an install, it goes on to fetch. */
  lemma SecondCheckExactly(states: seq<State>, steps: seq<Step>, i: nat, t: nat)
    requires IsRun(states, steps) && i < |steps| && steps[i] == Act(t, Recheck)
    ensures t < |states[i].tasks| && t < |states[i + 1].tasks|
    ensures states[i].tasks[t].pc.Writing? && states[i].tasks[t].pc.p < |states[i].providers|
    ensures var p, now := states[i].tasks[t].pc.p, states[i].clock;
            var latest := states[i].providers[p].Latest();
            states[i + 1].tasks[t].pc ==
            if Fresh(latest, now) then Returned(p, WriteHit(now, latest.value.credentials)) else Fetching(p, now)
  {
    RunKeepsInv(states, steps, i);
    assert Enabled(states[i], steps[i]) && states[i + 1] == Apply(states[i], steps[i]);
    var p := states[i].tasks[t].pc.p;
    assert EntryOk(states[i], p);
    CellExactly(states[i].providers[p], states[i].clock, states[i].clock, "");
  }

  /** A call can be dropped at its awaits: while a role's provider is built, while it waits for a guard of
      the cache, and while its fetch runs. That leaves every cell alone, and frees its write guard. */
  lemma DroppedCallLeavesCells(s: State, t: nat)
    requires t < |s.tasks| && KnownProvider(s, s.tasks[t].pc)
    ensures Enabled(s, Act(t, Cancel)) <==>
            match s.tasks[t].pc
            case Building => s.tasks[t].key != None
            case ReadWait(_, _) | WriteWait(_) | Fetching(_, _) => true
            case _ => false
    ensures Enabled(s, Act(t, Cancel)) ==>
              var s' := Apply(s, Act(t, Cancel));
              && s'.bindings == s.bindings && |s'.providers| == |s.providers|
              && (forall p :: 0 <= p < |s.providers| ==>
                                && s'.providers[p].entry == s.providers[p].entry
                                && s'.providers[p].installs == s.providers[p].installs
                                && s'.providers[p].fetches == s.providers[p].fetches)
              && (s.tasks[t].pc.Fetching? ==> s'.providers[s.tasks[t].pc.p].writer == None)
  {
  }

  /** What holds where a call decides. */
  lemma AtDecision(states: seq<State>, steps: seq<Step>, d: nat, t: nat, pc: Pc)
    requires IsRun(states, steps) && AnswersIn(states, steps, d, t, pc) && pc.Returned?
    ensures Enabled(states[d], steps[d]) && states[d + 1] == Apply(states[d], steps[d])
    ensures steps[d].action.CheckRead? || steps[d].action.Recheck? || steps[d].action.FetchDone?
    ensures pc.p < |states[d].providers| && states[d].tasks[t].pc.HasProvider() && states[d].tasks[t].pc.p == pc.p
    ensures CacheLock(states[d], pc.p) && Entry(states[d].providers[pc.p], states[d].clock)
    ensures SampleOk(states[d], t)
  {
    RunKeepsInv(states, steps, d);
    assert UsesBound(states[d], t);
    assert EntryOk(states[d], states[d].tasks[t].pc.p);
  }

  lemma FirstCheckJustifies(states: seq<State>, steps: seq<Step>, d: nat, t: nat, pc: Pc)
    requires IsRun(states, steps) && AnswersIn(states, steps, d, t, pc) && pc.Returned?
    requires steps[d].action.CheckRead?
    ensures exists k: nat :: Justified(states, steps, k, d, t, pc.p, pc.outcome)
  {
    AtDecision(states, steps, d, t, pc);
    ReadingIsOwn(states, steps, d, t);
    var s, sample := states[d], states[d].tasks[t].pc.sample;
    var k: nat :| k < d && ReadsEarly(states, steps, k, t, pc.p, sample);
    assert ReadsCache(s, t, pc.p);
    CellExactly(s.providers[pc.p], s.clock, sample, "");
    FreshIsLive(s.providers[pc.p].Latest(), sample);
    assert Justified(states, steps, k, d, t, pc.p, pc.outcome);
  }

  lemma SecondCheckJustifies(states: seq<State>, steps: seq<Step>, d: nat, t: nat, pc: Pc)
    requires IsRun(states, steps) && AnswersIn(states, steps, d, t, pc) && pc.Returned?
    requires steps[d].action.Recheck?
    ensures Justified(states, steps, d, d, t, pc.p, pc.outcome)
  {
    AtDecision(states, steps, d, t, pc);
    assert WritesCache(states[d], t, pc.p);
    CellExactly(states[d].providers[pc.p], states[d].clock, states[d].clock, "");
    FreshIsLive(states[d].providers[pc.p].Latest(), states[d].clock);
  }

  lemma FetchJustifies(states: seq<State>, steps: seq<Step>, d: nat, t: nat, pc: Pc)
    requires IsRun(states, steps) && AnswersIn(states, steps, d, t, pc) && pc.Returned?
    requires steps[d].action.FetchDone?
    ensures exists k: nat :: Justified(states, steps, k, d, t, pc.p, pc.outcome)
  {
    AtDecision(states, steps, d, t, pc);
    ReadingIsOwn(states, steps, d, t);
    var s, sample := states[d], states[d].tasks[t].pc.sample;
    var k: nat :| k < d && ReadsGuarded(states, steps, k, t, pc.p, sample);
    AnswerIsSound(s.providers[pc.p], sample, s.clock, steps[d].action.fetched);
    assert Justified(states, steps, k, d, t, pc.p, pc.outcome);
  }

  /** Every answer of every run is justified by two steps of its own call. */
  lemma AnswersAreSound(states: seq<State>, steps: seq<Step>, i: nat, t: nat)
    requires IsRun(states, steps) && i < |states| && t < |states[i].tasks|
    requires states[i].tasks[t].pc.Returned?
    ensures var pc := states[i].tasks[t].pc;
            exists k: nat, d: nat :: d < i && Justified(states, steps, k, d, t, pc.p, pc.outcome)
  {
    var pc := states[i].tasks[t].pc;
    AnswerHasStep(states, steps, i, t);
    var d: nat :| d < i && AnswersIn(states, steps, d, t, pc);
    AtDecision(states, steps, d, t, pc);
    match steps[d].action
    case CheckRead => FirstCheckJustifies(states, steps, d, t, pc);
    case Recheck => SecondCheckJustifies(states, steps, d, t, pc);
    case FetchDone(_) => FetchJustifies(states, steps, d, t, pc);
  }

  // ----- a dead hit of the first check -----

  ghost predicate Reachable(s: State) {
    exists states, steps :: IsRun(states, steps) && states[|steps|] == s
  }

  lemma Reach(s: State, step: Step, next: State)
    requires Reachable(s) && Enabled(s, step) && next == Apply(s, step)
    ensures Reachable(next)
  {
    var states, steps :| IsRun(states, steps) && states[|steps|] == s;
    assert IsRun(states + [next], steps + [step]);
    assert (states + [next])[|steps + [step]|] == next;
  }

  /** One default provider is bound; the locks are free but for the cache guards given. */
  function Bound0(clock: Time, provider: Provider, tasks: seq<Task>): State {
    State(clock, {}, None, map[None := 0], [provider], tasks)
  }

  /** The provider while the first call's fetch runs. */
  function Busy(): Provider {
    Provider(None, None, {}, Some(0), [], 1)
  }

  function Caller(pc: Pc): Task {
    Task(None, 0, pc)
  }

  lemma OneHolder(t: nat)
    ensures var nobody: set<nat> := {}; nobody + {t} == {t}
  {
  }

  /** At time 0 a first call comes and looks for a provider. */
  lemma FirstCallLooks()
    ensures Reachable(INIT.(mapReaders := {0}, tasks := [Caller(MapReading)]))
  {
    var start: seq<State>, steps: seq<Step> := [INIT], [];
    assert IsRun(start, steps) && start[|steps|] == INIT;
    OneHolder(0);
    var s1 := INIT.(tasks := [Caller(MapReadWait)]);
    Reach(INIT, Spawn(None), s1);
    Reach(s1, Act(0, TakeMapRead), INIT.(mapReaders := {0}, tasks := [Caller(MapReading)]));
  }

  /** It finds none and builds one. */
  lemma FirstCallBuilds()
    ensures Reachable(State(0, {}, None, map[], [NewProvider(None)], [Caller(MapWriteWait(0))]))
  {
    FirstCallLooks();
    var s2 := INIT.(mapReaders := {0}, tasks := [Caller(MapReading)]);
    var s3 := INIT.(tasks := [Caller(Building)]);
    Reach(s2, Act(0, LookupMap), s3);
    Reach(s3, Act(0, FinishBuild), State(0, {}, None, map[], [NewProvider(None)], [Caller(MapWriteWait(0))]));
  }

  /** It binds it. */
  lemma FirstCallBinds()
    ensures Reachable(Bound0(0, NewProvider(None), [Caller(Sampling(0))]))
  {
    FirstCallBuilds();
    var s4 := State(0, {}, None, map[], [NewProvider(None)], [Caller(MapWriteWait(0))]);
    var s5 := s4.(mapWriter := Some(0), tasks := [Caller(MapWriting(0))]);
    Reach(s4, Act(0, TakeMapWrite), s5);
    Reach(s5, Act(0, InsertMap), Bound0(0, NewProvider(None), [Caller(Sampling(0))]));
  }

  /** It finds nothing under the read guard. */
  lemma FirstCallMisses()
    ensures Reachable(Bound0(0, NewProvider(None), [Caller(WriteWait(0))]))
  {
    FirstCallBinds();
    OneHolder(0);
    var empty := NewProvider(None);
    var s0 := Bound0(0, empty, [Caller(Sampling(0))]);
    var s1 := Bound0(0, empty, [Caller(ReadWait(0, 0))]);
    Reach(s0, Act(0, SampleClock), s1);
    var s2 := Bound0(0, empty.(readers := {0}), [Caller(Reading(0, 0))]);
    Reach(s1, Act(0, TakeRead), s2);
    Reach(s2, Act(0, CheckRead), Bound0(0, empty, [Caller(WriteWait(0))]));
  }

  /** Nor under the write guard, and it asks the inner provider. */
  lemma FirstCallFetches()
    ensures Reachable(Bound0(0, Busy(), [Caller(Fetching(0, 0))]))
  {
    FirstCallMisses();
    var s3 := Bound0(0, NewProvider(None), [Caller(WriteWait(0))]);
    var s4 := Bound0(0, NewProvider(None).(writer := Some(0)), [Caller(Writing(0))]);
    Reach(s3, Act(0, TakeWrite), s4);
    Reach(s4, Act(0, Recheck), Bound0(0, Busy(), [Caller(Fetching(0, 0))]));
  }

  /** A second call comes and looks for its provider. */
  lemma SecondCallLooks()
    ensures Reachable(Bound0(0, Busy(), [Caller(Fetching(0, 0)), Caller(MapReading)]).(mapReaders := {1}))
  {
    FirstCallFetches();
    OneHolder(1);
    var first := Caller(Fetching(0, 0));
    var s1 := Bound0(0, Busy(), [first, Caller(MapReadWait)]);
    Reach(Bound0(0, Busy(), [first]), Spawn(None), s1);
    Reach(s1, Act(1, TakeMapRead), s1.(mapReaders := {1}, tasks := [first, Caller(MapReading)]));
  }

  /** It finds it, reads the clock at `sample`, and has to wait. */
  lemma SecondCallWaits(sample: Time)
    ensures Reachable(Bound0(sample, Busy(), [Caller(Fetching(0, 0)), Caller(ReadWait(0, sample))]))
  {
    SecondCallLooks();
    var first := Caller(Fetching(0, 0));
    var s2 := Bound0(0, Busy(), [first, Caller(MapReading)]).(mapReaders := {1});
    var s3 := Bound0(0, Busy(), [first, Caller(Sampling(0))]);
    Reach(s2, Act(1, LookupMap), s3);
    var s4 := Bound0(sample, Busy(), [first, Caller(Sampling(0))]);
    Reach(s3, Tick(sample), s4);
    Reach(s4, Act(1, SampleClock), Bound0(sample, Busy(), [first, Caller(ReadWait(0, sample))]));
  }

  /** The provider after one fetch. */
  function Filled(c: Credentials, installed: Time): Provider {
    Provider(None, Some(NewEntry(c, installed)), {}, None, [Install(installed, c)], 1)
  }

  /** The first call's fetch succeeds while the second one waits with its reading. */
  lemma FirstCallInstalls(sample: Time, c: Credentials, installed: Time)
    requires sample <= installed
    ensures Reachable(Bound0(installed, Filled(c, installed),
                             [Caller(Returned(0, Fetched(c))), Caller(ReadWait(0, sample))]))
  {
    SecondCallWaits(sample);
    var busy, waiting := Busy(), Caller(ReadWait(0, sample));
    var s0 := Bound0(sample, busy, [Caller(Fetching(0, 0)), waiting]);
    var s1 := s0.(clock := installed);
    Reach(s0, Tick(installed), s1);
    assert busy.installs + [Install(installed, c)] == [Install(installed, c)];
    assert Refreshed(busy, installed, Success(c)) == Filled(c, installed);
    var s2 := Bound0(installed, Filled(c, installed), [Caller(Returned(0, Fetched(c))), waiting]);
    Reach(s1, Act(0, FetchDone(Success(c))), s2);
  }

  /** The exception `Justified` makes for the first check is needed: whatever credentials the inner
      provider returns only after they have expired, some run answers a call with them by a reading
      at which they are dead. */
  lemma DeadHitReached(c: Credentials, installed: Time)
    requires c.expiry.Some? && c.expiry.value < installed
    ensures exists s :: Reachable(s) && |s.tasks| == 2 && s.tasks[1].pc == Returned(0, ReadHit(c.expiry.value, c))
    ensures !Before(c.expiry.value, c.expiry)
  {
    var sample := c.expiry.value;
    FirstCallInstalls(sample, c, installed);
    OneHolder(1);
    RefreshTimeIsMidpoint(c, installed);
    var full, first := Filled(c, installed), Caller(Returned(0, Fetched(c)));
    var s1 := Bound0(installed, full, [first, Caller(ReadWait(0, sample))]);
    var s2 := Bound0(installed, full.(readers := {1}), [first, Caller(Reading(0, sample))]);
    Reach(s1, Act(1, TakeRead), s2);
    var s3 := Bound0(installed, full, [first, Caller(Returned(0, ReadHit(sample, c)))]);
    Reach(s2, Act(1, CheckRead), s3);
  }
}
