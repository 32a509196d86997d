/** The credentials machinery of the whole process as one transition system: any number of
    signing calls, the provider map of src/aws_auth/mod.rs with its readers-writer lock, and
    one cache with its own readers-writer lock per provider (src/aws_auth/cache.rs).

    A step is one atomic action of one task, a clock tick, or the arrival of a new call. Lock
    grants are not ordered: any waiter may be served once the lock allows it, which covers
    every queueing policy. */
module CredentialSystem {
  import opened Wrappers
  import opened CredentialCache

  /** A successful fetch: when it was installed and what it brought. */
  datatype Install = Install(at: Time, credentials: Credentials)

  /** The cell a successful fetch leaves, at first an empty one. */
  function CellOf(latest: Option<Install>): Cell {
    match latest
    case None => None
    case Some(install) => Some(NewEntry(install.credentials, install.at))
  }

  /** A provider object. `entry` is its cell; `installs` and `fetches` are history that no step
      depends on: every entry ever installed, and how often the inner provider was asked. */
  datatype Provider = Provider(key: Key, entry: Cell, readers: set<nat>, writer: Option<nat>,
                               installs: seq<Install>, fetches: nat)
  {
    /** The latest install. */
    function Latest(): Option<Install> {
      if installs == [] then None else Some(installs[|installs| - 1])
    }
  }

  /** How a call that ran to its end answered, with the clock reading it decided by. */
  datatype Outcome =
    | ReadHit(sample: Time, credentials: Credentials)
    | WriteHit(sample: Time, credentials: Credentials)
    | Fetched(credentials: Credentials)
    | Stale(sample: Time, credentials: Credentials)
    | Failed(sample: Time, error: string)
  {
    function Result(): ProviderResult {
      if Failed? then Failure(error) else Success(credentials)
    }
  }

  datatype Pc =
    | MapReadWait
    | MapReading
    | Building
    | MapWriteWait(built: nat)
    | MapWriting(built: nat)
    | Sampling(p: nat)
    | ReadWait(p: nat, sample: Time)
    | Reading(p: nat, sample: Time)
    | WriteWait(p: nat)
    | Writing(p: nat)
    | Fetching(p: nat, sample: Time)
    | Returned(p: nat, outcome: Outcome)
    | Cancelled
  {
    /** The call has been given its provider. */
    predicate HasProvider() {
      Sampling? || ReadWait? || Reading? || WriteWait? || Writing? || Fetching? || Returned?
    }

    predicate HasBuilt() {
      MapWriteWait? || MapWriting?
    }

    predicate Finished() {
      Returned? || Cancelled?
    }
  }

  /** A call: its identity, when it came, and where it is. */
  datatype Task = Task(key: Key, arrived: Time, pc: Pc)

  datatype State = State(clock: Time, mapReaders: set<nat>, mapWriter: Option<nat>,
                         bindings: map<Key, nat>, providers: seq<Provider>, tasks: seq<Task>)

  /** What one task does in one step. */
  datatype Action =
    | TakeMapRead
    | LookupMap
    | FinishBuild
    | TakeMapWrite
    | InsertMap
    | SampleClock
    | TakeRead
    | CheckRead
    | TakeWrite
    | Recheck
    | FetchDone(fetched: ProviderResult)
    | Cancel

  datatype Step = Tick(to: Time) | Spawn(key: Key) | Act(t: nat, action: Action)

  const INIT: State := State(0, {}, None, map[], [], [])

  function NewProvider(key: Key): Provider {
    Provider(key, None, {}, None, [], 0)
  }

  predicate KnownProvider(s: State, pc: Pc) {
    && (pc.HasProvider() ==> pc.p < |s.providers|)
    && (pc.HasBuilt() ==> pc.built < |s.providers|)
  }

  /** Whether a step may be taken. Provider references are always in range in a reachable
      state (`CredentialInvariant.RunKeepsInv`), so `KnownProvider` disables nothing. */
  predicate Enabled(s: State, step: Step) {
    match step
    case Tick(to) => s.clock <= to
    case Spawn(_) => true
    case Act(t, action) => t < |s.tasks| && KnownProvider(s, s.tasks[t].pc) && CanAct(s, s.tasks[t], action)
  }

  predicate CanAct(s: State, task: Task, action: Action)
    requires KnownProvider(s, task.pc)
  {
    var pc := task.pc;
    match action
    case TakeMapRead => pc.MapReadWait? && s.mapWriter.None?
    case LookupMap => pc.MapReading?
    case FinishBuild => pc.Building?
    case TakeMapWrite => pc.MapWriteWait? && s.mapWriter.None? && s.mapReaders == {}
    case InsertMap => pc.MapWriting?
    case SampleClock => pc.Sampling?
    case TakeRead => pc.ReadWait? && s.providers[pc.p].writer.None?
    case CheckRead => pc.Reading?
    case TakeWrite => pc.WriteWait? && s.providers[pc.p].writer.None? && s.providers[pc.p].readers == {}
    case Recheck => pc.Writing?
    case FetchDone(_) => pc.Fetching?
    case Cancel => CancelPoint(task)
  }

  /** A dropped future stops at an await: while the provider is being built (only assuming a
      role awaits), while it waits for a guard of the cache, or while the inner fetch runs. */
  predicate CancelPoint(task: Task) {
    (task.pc.Building? && task.key.Some?) || task.pc.ReadWait? || task.pc.WriteWait? || task.pc.Fetching?
  }

  function Apply(s: State, step: Step): State
    requires Enabled(s, step)
  {
    match step
    case Tick(to) => s.(clock := to)
    case Spawn(key) => s.(tasks := s.tasks + [Task(key, s.clock, MapReadWait)])
    case Act(t, action) => Do(s, t, action)
  }

  /** An action moves its own call, and changes at most the map lock, one binding and the call's
      own provider. */
  function Do(s: State, t: nat, action: Action): State
    requires Enabled(s, Act(t, action))
  {
    var task := s.tasks[t];
    var pc := task.pc;
    State(
      s.clock,
      match action
      case TakeMapRead => s.mapReaders + {t}
      case LookupMap => s.mapReaders - {t}
      case _ => s.mapReaders,
      match action
      case TakeMapWrite => Some(t)
      case InsertMap => None
      case _ => s.mapWriter,
      if action.InsertMap? && task.key !in s.bindings then s.bindings[task.key := pc.built] else s.bindings,
      if action.FinishBuild? then s.providers + [NewProvider(task.key)]
      else if pc.HasProvider() then s.providers[pc.p := NextProvider(s.providers[pc.p], t, pc, action, s.clock)]
      else s.providers,
      s.tasks[t := task.(pc := NextPc(s, task, action))])
  }

  /** Where the action takes its call. */
  function NextPc(s: State, task: Task, action: Action): Pc
    requires KnownProvider(s, task.pc) && CanAct(s, task, action)
  {
    var pc := task.pc;
    match action
    // provider_for
    case TakeMapRead => MapReading
    case LookupMap => if task.key in s.bindings then Sampling(s.bindings[task.key]) else Building
    case FinishBuild => MapWriteWait(|s.providers|)
    case TakeMapWrite => MapWriting(pc.built)
    case InsertMap => Sampling(if task.key in s.bindings then s.bindings[task.key] else pc.built)
    // get_or_refresh
    case SampleClock => ReadWait(pc.p, s.clock)
    case TakeRead => Reading(pc.p, pc.sample)
    case CheckRead =>
      var hit := Lookup(s.providers[pc.p].entry, pc.sample);
      if hit.Some? then Returned(pc.p, ReadHit(pc.sample, hit.value)) else WriteWait(pc.p)
    case TakeWrite => Writing(pc.p)
    case Recheck =>
      var hit := Lookup(s.providers[pc.p].entry, s.clock);
      if hit.Some? then Returned(pc.p, WriteHit(s.clock, hit.value)) else Fetching(pc.p, s.clock)
    case FetchDone(fetched) => Returned(pc.p, Answer(s.providers[pc.p], pc.sample, fetched))
    case Cancel => Cancelled
  }

  /** What the action does to its call's provider: guards are taken and released, fetches counted,
      and a fetch that succeeded is installed. */
  function NextProvider(pr: Provider, t: nat, pc: Pc, action: Action, now: Time): Provider {
    match action
    case TakeRead => pr.(readers := pr.readers + {t})
    case CheckRead => pr.(readers := pr.readers - {t})
    case TakeWrite => pr.(writer := Some(t))
    case Recheck => if Lookup(pr.entry, now).Some? then pr.(writer := None) else pr.(fetches := pr.fetches + 1)
    case FetchDone(fetched) => Refreshed(pr, now, fetched)
    case Cancel => if pc.Fetching? then pr.(writer := None) else pr
    case _ => pr
  }

  /** The provider after its inner fetch answered: the write guard is released, and a success is installed. */
  function Refreshed(pr: Provider, now: Time, fetched: ProviderResult): Provider {
    match fetched
    case Success(c) =>
      pr.(writer := None, entry := Some(NewEntry(c, now)), installs := pr.installs + [Install(now, c)])
    case Failure(_) => pr.(writer := None)
  }

  /** How the call that fetched answers; a failure is judged by the reading it took before the fetch. */
  function Answer(pr: Provider, sample: Time, fetched: ProviderResult): Outcome {
    match fetched
    case Success(c) => Fetched(c)
    case Failure(error) =>
      match Fallback(pr.entry, sample, error)
      case Success(c) => Stale(sample, c)
      case Failure(e) => Failed(sample, e)
  }

  /** A run from the empty process: each state follows from the one before by one step. */
  predicate IsRun(states: seq<State>, steps: seq<Step>) {
    && |states| == |steps| + 1
    && states[0] == INIT
    && forall i :: 0 <= i < |steps| ==> Enabled(states[i], steps[i]) && states[i + 1] == Apply(states[i], steps[i])
  }

  /** The steps of a call under the write guard do together what
      `RefreshingCredentials.Refresh` does: the same answer, and the same cell left behind. */
  lemma StepsAreRefresh(s: State, t: nat, fetched: ProviderResult, done: Time)
    requires Enabled(s, Act(t, Recheck)) && s.clock <= done
    ensures var p := s.tasks[t].pc.p;
            var cell := s.providers[p].entry;
            var hit := Lookup(cell, s.clock);
            var s1 := Apply(s, Act(t, Recheck));
            if hit.Some? then
              && s1.providers[p].entry == cell
              && s1.tasks[t].pc.Returned? && s1.tasks[t].pc.outcome.Result() == Success(hit.value)
            else
              var s2 := Apply(s1, Tick(done));
              && Enabled(s2, Act(t, FetchDone(fetched)))
              && var s3 := Apply(s2, Act(t, FetchDone(fetched)));
              && s3.providers[p].entry == (if fetched.Success? then Some(NewEntry(fetched.value, done)) else cell)
              && s3.tasks[t].pc.Returned?
              && s3.tasks[t].pc.outcome.Result() ==
                 if fetched.Success? then fetched else Fallback(cell, s.clock, fetched.error)
  {
  }
}
