/** The concurrent system refines an atomic cache: one entry per identity, and calls that are
    answered in one indivisible step each. */
module CredentialRefinement {
  import opened Wrappers
  import opened CredentialCache
  import opened CredentialSystem
  import opened CredentialInvariant

  datatype Call = Call(key: Key, arrived: Time, answer: Option<ProviderResult>)

  /** The clock, the latest credentials of each identity with the time of their install, and the calls. */
  datatype Atomic = Atomic(clock: Time, entries: map<Key, Install>, calls: seq<Call>)

  /** How a call is answered: from the entry, by a reading that may be older than the entry or by one
      that is not; by a fetch that brought credentials; or after a failed fetch by the old entry or by
      the error. */
  datatype Decision =
    | EarlyHit
    | Hit
    | FetchAndInstall(credentials: Credentials)
    | ServeStale
    | Refuse(error: string)

  datatype AtomicStep =
    | Idle
    | Advance(to: Time)
    | Arrive(key: Key)
    | Decide(t: nat, sample: Time, how: Decision)

  const ATOMIC_INIT: Atomic := Atomic(0, map[], [])

  function LatestOf(a: Atomic, key: Key): Option<Install> {
    if key in a.entries then Some(a.entries[key]) else None
  }

  predicate AtomicEnabled(a: Atomic, step: AtomicStep) {
    match step
    case Idle => true
    case Advance(to) => a.clock <= to
    case Arrive(_) => true
    case Decide(t, sample, how) =>
      && t < |a.calls| && a.calls[t].answer.None?
      && a.calls[t].arrived <= sample <= a.clock
      && MayDecide(LatestOf(a, a.calls[t].key), sample, how)
  }

  /** A call is answered from the entry of its identity while that needs no refresh at the call's
      reading; by a fetch otherwise; and when the fetch fails, by the entry if that is live at the
      reading. Only an early hit may go by a reading from before the entry's install. */
  predicate MayDecide(latest: Option<Install>, sample: Time, how: Decision) {
    && (how.EarlyHit? || latest.None? || latest.value.at <= sample)
    && match how
       case EarlyHit => Lookup(CellOf(latest), sample).Some?
       case Hit => Lookup(CellOf(latest), sample).Some?
       case FetchAndInstall(_) => Lookup(CellOf(latest), sample).None?
       case ServeStale =>
         && Lookup(CellOf(latest), sample).None?
         && latest.Some? && Before(sample, latest.value.credentials.expiry)
       case Refuse(_) =>
         && Lookup(CellOf(latest), sample).None?
         && (latest.Some? ==> !Before(sample, latest.value.credentials.expiry))
  }

  function Answered(latest: Option<Install>, sample: Time, how: Decision): ProviderResult
    requires MayDecide(latest, sample, how)
  {
    match how
    case EarlyHit => Success(latest.value.credentials)
    case Hit => Success(latest.value.credentials)
    case FetchAndInstall(c) => Success(c)
    case ServeStale => Success(latest.value.credentials)
    case Refuse(error) => Failure(error)
  }

  /** Only a fetch that brought credentials changes an entry. */
  function AtomicApply(a: Atomic, step: AtomicStep): Atomic
    requires AtomicEnabled(a, step)
  {
    match step
    case Idle => a
    case Advance(to) => a.(clock := to)
    case Arrive(key) => a.(calls := a.calls + [Call(key, a.clock, None)])
    case Decide(t, sample, how) =>
      var call := a.calls[t];
      var answer := Answered(LatestOf(a, call.key), sample, how);
      var entries :=
        if how.FetchAndInstall? then a.entries[call.key := Install(a.clock, how.credentials)] else a.entries;
      a.(entries := entries, calls := a.calls[t := call.(answer := Some(answer))])
  }

  predicate IsAtomicRun(states: seq<Atomic>, steps: seq<AtomicStep>) {
    && |states| == |steps| + 1
    && states[0] == ATOMIC_INIT
    && forall i :: 0 <= i < |steps| ==>
                     AtomicEnabled(states[i], steps[i]) && states[i + 1] == AtomicApply(states[i], steps[i])
  }

  /** What the atomic cache shows of a call. */
  function Shown(task: Task): Call {
    Call(task.key, task.arrived, if task.pc.Returned? then Some(task.pc.outcome.Result()) else None)
  }

  /** What it shows of an identity: the latest install of the bound provider. */
  function EntryAt(s: State, key: Key): Option<Install> {
    if key in s.bindings && s.bindings[key] < |s.providers| then s.providers[s.bindings[key]].Latest() else None
  }

  function ShownEntries(s: State): map<Key, Install> {
    map k | k in s.bindings && EntryAt(s, k).Some? :: EntryAt(s, k).value
  }

  function Abstract(s: State): Atomic {
    Atomic(s.clock, ShownEntries(s), seq(|s.tasks|, t requires 0 <= t < |s.tasks| => Shown(s.tasks[t])))
  }

  function Abstracted(states: seq<State>): seq<Atomic> {
    seq(|states|, i requires 0 <= i < |states| => Abstract(states[i]))
  }

  /** Whether an action decides its call's answer, by which reading, and how. */
  function Deciding(s: State, t: nat, action: Action): Option<(Time, Decision)>
    requires Enabled(s, Act(t, action))
  {
    var pc := s.tasks[t].pc;
    match action
    case CheckRead =>
      if Lookup(s.providers[pc.p].entry, pc.sample).Some? then Some((pc.sample, EarlyHit)) else None
    case Recheck =>
      if Lookup(s.providers[pc.p].entry, s.clock).Some? then Some((s.clock, Hit)) else None
    case FetchDone(Success(c)) => Some((pc.sample, FetchAndInstall(c)))
    case FetchDone(Failure(error)) =>
      if Fallback(s.providers[pc.p].entry, pc.sample, error).Success? then Some((pc.sample, ServeStale))
      else Some((pc.sample, Refuse(error)))
    case _ => None
  }

  /** The atomic step a step of the system is. All locking is idle; a call takes effect in the
      step that decides its answer. */
  function Image(s: State, step: Step): AtomicStep
    requires Enabled(s, step)
  {
    match step
    case Tick(to) => Advance(to)
    case Spawn(key) => Arrive(key)
    case Act(t, action) =>
      match Deciding(s, t, action)
      case None => Idle
      case Some((sample, how)) => Decide(t, sample, how)
  }

  /** The entry the atomic cache has for a call is the latest install of the call's provider. */
  lemma CallSeesProvider(s: State, t: nat)
    requires Inv(s) && t < |s.tasks| && s.tasks[t].pc.HasProvider()
    ensures var p := s.tasks[t].pc.p;
            && p < |s.providers| && Entry(s.providers[p], s.clock)
            && LatestOf(Abstract(s), s.tasks[t].key) == s.providers[p].Latest()
  {
    assert UsesBound(s, t);
    assert EntryOk(s, s.tasks[t].pc.p);
  }

  /** An action moves no other call, and its own one to an answer only by deciding. */
  lemma ActMoves(s: State, t: nat, action: Action)
    requires Enabled(s, Act(t, action))
    ensures var s' := Do(s, t, action);
            && s'.clock == s.clock
            && s'.tasks == s.tasks[t := s.tasks[t].(pc := s'.tasks[t].pc)]
            && !s.tasks[t].pc.Returned?
            && (Deciding(s, t, action).None? ==> !s'.tasks[t].pc.Returned?)
            && (Deciding(s, t, action).Some? ==> s.tasks[t].pc.HasProvider())
  {
  }

  /** A deciding action gives the answer of the atomic decision, by a reading that decision allows. */
  lemma ActDecides(s: State, t: nat, action: Action)
    requires Inv(s) && Enabled(s, Act(t, action)) && Deciding(s, t, action).Some?
    ensures s.tasks[t].pc.HasProvider() && s.tasks[t].pc.p < |s.providers|
    ensures var (sample, how) := Deciding(s, t, action).value;
            var latest := s.providers[s.tasks[t].pc.p].Latest();
            && s.tasks[t].arrived <= sample <= s.clock
            && MayDecide(latest, sample, how)
            && Shown(Do(s, t, action).tasks[t]).answer == Some(Answered(latest, sample, how))
  {
    CallSeesProvider(s, t);
    assert SampleOk(s, t);
  }

  /** What the action does to a provider's history: only a fetch that brought credentials adds to it. */
  lemma ActFills(s: State, t: nat, action: Action, p: nat)
    requires Enabled(s, Act(t, action)) && p < |s.providers|
    ensures p < |Do(s, t, action).providers|
    ensures Do(s, t, action).providers[p].Latest() ==
            (match Deciding(s, t, action)
             case Some((_, FetchAndInstall(c))) =>
               if s.tasks[t].pc.p == p then Some(Install(s.clock, c)) else s.providers[p].Latest()
             case _ => s.providers[p].Latest())
  {
  }

  /** What the action does to the bindings: at most it binds a provider that has installed nothing. */
  lemma ActBinds(s: State, t: nat, action: Action)
    requires Inv(s) && Enabled(s, Act(t, action))
    ensures var bindings := Do(s, t, action).bindings;
            bindings == s.bindings
            || (&& s.tasks[t].key !in s.bindings
                && s.tasks[t].pc.HasBuilt() && s.tasks[t].pc.built < |s.providers|
                && s.providers[s.tasks[t].pc.built].Latest() == None
                && Deciding(s, t, action).None?
                && bindings == s.bindings[s.tasks[t].key := s.tasks[t].pc.built])
  {
    assert OwnsBuilt(s, t);
    if s.tasks[t].pc.HasBuilt() {
      assert EntryOk(s, s.tasks[t].pc.built);
    }
  }

  /** The entry each identity is left with. */
  lemma ActEntryAt(s: State, t: nat, action: Action, key: Key)
    requires Inv(s) && Enabled(s, Act(t, action))
    ensures EntryAt(Do(s, t, action), key) ==
            (match Deciding(s, t, action)
             case Some((_, FetchAndInstall(c))) =>
               if key == s.tasks[t].key then Some(Install(s.clock, c)) else EntryAt(s, key)
             case _ => EntryAt(s, key))
  {
    ActBinds(s, t, action);
    assert UsesBound(s, t);
    var bindings := Do(s, t, action).bindings;
    if key in bindings {
      ActFills(s, t, action, bindings[key]);
    }
  }

  lemma ActEntries(s: State, t: nat, action: Action)
    requires Inv(s) && Enabled(s, Act(t, action))
    ensures ShownEntries(Do(s, t, action)) ==
            (match Deciding(s, t, action)
             case Some((_, FetchAndInstall(c))) => ShownEntries(s)[s.tasks[t].key := Install(s.clock, c)]
             case _ => ShownEntries(s))
  {
    forall key: Key
      ensures EntryAt(Do(s, t, action), key) ==
              (match Deciding(s, t, action)
               case Some((_, FetchAndInstall(c))) =>
                 if key == s.tasks[t].key then Some(Install(s.clock, c)) else EntryAt(s, key)
               case _ => EntryAt(s, key))
    {
      ActEntryAt(s, t, action, key);
    }
    ShownKeys(s);
    ShownKeys(Do(s, t, action));
  }

  lemma ShownKeys(s: State)
    ensures forall key :: key in ShownEntries(s) <==> EntryAt(s, key).Some?
    ensures forall key :: key in ShownEntries(s) ==> ShownEntries(s)[key] == EntryAt(s, key).value
  {
  }

  lemma ActCalls(s: State, t: nat, action: Action)
    requires Inv(s) && Enabled(s, Act(t, action))
    ensures |Do(s, t, action).tasks| == |s.tasks|
    ensures match Deciding(s, t, action)
            case None => Abstract(Do(s, t, action)).calls == Abstract(s).calls
            case Some((sample, how)) =>
              && AtomicEnabled(Abstract(s), Decide(t, sample, how))
              && Abstract(Do(s, t, action)).calls == AtomicApply(Abstract(s), Decide(t, sample, how)).calls
  {
    ActMoves(s, t, action);
    if Deciding(s, t, action).Some? {
      ActDecides(s, t, action);
      CallSeesProvider(s, t);
    }
  }

  /** Each step of the system is a step of the atomic cache. */
  lemma StepRefines(s: State, step: Step)
    requires Inv(s) && Enabled(s, step)
    ensures AtomicEnabled(Abstract(s), Image(s, step))
    ensures Abstract(Apply(s, step)) == AtomicApply(Abstract(s), Image(s, step))
  {
    if step.Act? {
      var Act(t, action) := step;
      ActCalls(s, t, action);
      ActEntries(s, t, action);
    } else {
      assert Abstract(Apply(s, step)).calls == AtomicApply(Abstract(s), Image(s, step)).calls;
      assert ShownEntries(Apply(s, step)) == ShownEntries(s);
    }
  }

  /** Every run of the system, with any interleaving, delays and dropped calls, shows a run of
      the atomic cache. */
  lemma RunRefines(states: seq<State>, steps: seq<Step>)
    requires IsRun(states, steps)
    ensures exists images :: IsAtomicRun(Abstracted(states), images)
  {
    var atomic := Abstracted(states);
    var images :=
      seq(|steps|, i requires 0 <= i < |steps| && Enabled(states[i], steps[i]) => Image(states[i], steps[i]));
    forall i | 0 <= i < |steps|
      ensures AtomicEnabled(atomic[i], images[i]) && atomic[i + 1] == AtomicApply(atomic[i], images[i])
    {
      RunKeepsInv(states, steps, i);
      StepRefines(states[i], steps[i]);
    }
    assert ShownEntries(INIT) == map[];
    assert IsAtomicRun(atomic, images);
  }

  /** In the atomic cache, and so in the system, what a call is answered with from an entry had at
      the call's reading not expired, unless it was installed dead and the reading was early. */
  lemma AtomicHitIsLive(a: Atomic, t: nat, sample: Time, how: Decision)
    requires AtomicEnabled(a, Decide(t, sample, how)) && !how.FetchAndInstall? && !how.Refuse?
    ensures var latest := LatestOf(a, a.calls[t].key);
            var answer := Answered(latest, sample, how);
            && latest.Some? && answer == Success(latest.value.credentials)
            && var expiry := latest.value.credentials.expiry;
            Before(sample, expiry) || (how.EarlyHit? && expiry.Some? && expiry.value < latest.value.at)
  {
    var latest := LatestOf(a, a.calls[t].key).value;
    if how.EarlyHit? {
      EveryHitIsLive(latest.credentials, latest.at);
    } else if how.Hit? {
      LateHitIsLive(latest.credentials, latest.at, sample);
    }
  }
}
