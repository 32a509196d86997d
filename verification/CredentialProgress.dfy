/** Calls on the credentials system come to an end. */
module CredentialProgress {
  import opened Wrappers
  import opened CredentialSystem
  import opened CredentialInvariant

  const CALL_STEPS: nat := 11

  /** How many steps a call has before it at most. */
  function Rank(pc: Pc): nat {
    match pc
    case MapReadWait => CALL_STEPS
    case MapReading => 10
    case Building => 9
    case MapWriteWait(_) => 8
    case MapWriting(_) => 7
    case Sampling(_) => 6
    case ReadWait(_, _) => 5
    case Reading(_, _) => 4
    case WriteWait(_) => 3
    case Writing(_) => 2
    case Fetching(_, _) => 1
    case Returned(_, _) => 0
    case Cancelled => 0
  }

  function RankSum(tasks: seq<Task>): nat {
    if tasks == [] then 0 else RankSum(tasks[..|tasks| - 1]) + Rank(tasks[|tasks| - 1].pc)
  }

  function Acts(steps: seq<Step>): nat {
    if steps == [] then 0 else Acts(steps[..|steps| - 1]) + (if steps[|steps| - 1].Act? then 1 else 0)
  }

  function Spawns(steps: seq<Step>): nat {
    if steps == [] then 0 else Spawns(steps[..|steps| - 1]) + (if steps[|steps| - 1].Spawn? then 1 else 0)
  }

  /** One task changed: the sum changes by that task's part. */
  lemma {:induction false} RankSumUpdate(tasks: seq<Task>, t: nat, task: Task)
    requires t < |tasks|
    ensures RankSum(tasks[t := task]) == RankSum(tasks) - Rank(tasks[t].pc) + Rank(task.pc)
  {
    var n := |tasks| - 1;
    if t < n {
      RankSumUpdate(tasks[..n], t, task);
      assert tasks[t := task][..n] == tasks[..n][t := task];
    } else {
      assert tasks[t := task][..n] == tasks[..n];
    }
  }

  /** A step of a call brings it strictly nearer to its end and moves no other call. */
  lemma ActLowersRank(s: State, t: nat, action: Action)
    requires Enabled(s, Act(t, action))
    ensures |Do(s, t, action).tasks| == |s.tasks|
    ensures Do(s, t, action).tasks == s.tasks[t := Do(s, t, action).tasks[t]]
    ensures Rank(Do(s, t, action).tasks[t].pc) < Rank(s.tasks[t].pc)
  {
  }

  /** How many of the first `i` steps were taken by call `t`. */
  function StepsOf(steps: seq<Step>, i: nat, t: nat): nat
    requires i <= |steps|
  {
    if i == 0 then 0
    else StepsOf(steps, i - 1, t) + (if steps[i - 1].Act? && steps[i - 1].t == t then 1 else 0)
  }

  /** In any run each call takes at most eleven steps, whatever the others do. */
  lemma {:induction false} CallsAreShort(states: seq<State>, steps: seq<Step>, i: nat, t: nat)
    requires IsRun(states, steps) && i < |states|
    ensures t >= |states[i].tasks| ==> StepsOf(steps, i, t) == 0
    ensures t < |states[i].tasks| ==> StepsOf(steps, i, t) + Rank(states[i].tasks[t].pc) <= CALL_STEPS
  {
    if i > 0 {
      var s, step := states[i - 1], steps[i - 1];
      CallsAreShort(states, steps, i - 1, t);
      assert states[i] == Apply(s, step);
      if step.Act? {
        ActLowersRank(s, step.t, step.action);
      }
    }
  }

  /** So all calls of a run together take at most eleven times their number. */
  lemma {:induction false} RunsAreBounded(states: seq<State>, steps: seq<Step>)
    requires IsRun(states, steps)
    ensures Acts(steps) + RankSum(states[|steps|].tasks) <= CALL_STEPS * Spawns(steps)
  {
    if steps != [] {
      var n := |steps| - 1;
      var s, step := states[n], steps[n];
      assert IsRun(states[..n + 1], steps[..n]);
      RunsAreBounded(states[..n + 1], steps[..n]);
      assert states[n + 1] == Apply(s, step);
      match step
      case Tick(_) =>
      case Spawn(key) => assert (s.tasks + [Task(key, s.clock, MapReadWait)])[..|s.tasks|] == s.tasks;
      case Act(t, action) =>
        ActLowersRank(s, t, action);
        RankSumUpdate(s.tasks, t, Do(s, t, action).tasks[t]);
    }
  }

  /** The call `u` can move by something other than being dropped. */
  predicate CanMove(s: State, u: nat, action: Action) {
    Enabled(s, Act(u, action)) && !action.Cancel?
  }

  /** A waiting call never holds the lock it waits for. */
  lemma NoSelfWait(states: seq<State>, steps: seq<Step>, i: nat, t: nat)
    requires IsRun(states, steps) && i < |states| && t < |states[i].tasks|
    ensures states[i].tasks[t].pc.MapReadWait? || states[i].tasks[t].pc.MapWriteWait? ==>
              t !in states[i].mapReaders && states[i].mapWriter != Some(t)
    ensures states[i].tasks[t].pc.ReadWait? || states[i].tasks[t].pc.WriteWait? ==>
              && states[i].tasks[t].pc.p < |states[i].providers|
              && t !in states[i].providers[states[i].tasks[t].pc.p].readers
              && states[i].providers[states[i].tasks[t].pc.p].writer != Some(t)
  {
    var s := states[i];
    RunKeepsInv(states, steps, i);
    assert UsesBound(s, t);
    if s.tasks[t].pc.ReadWait? || s.tasks[t].pc.WriteWait? {
      var p := s.tasks[t].pc.p;
      assert CacheLock(s, p);
      assert t in s.providers[p].readers <==> ReadsCache(s, t, p);
      assert WritesCache(s, t, p) <==> s.providers[p].writer == Some(t);
    }
  }

  /** If the action is the grant of a lock, nobody holds the lock: any policy that serves some waiter
      of a free lock can go on. */
  predicate GrantsFreeLock(s: State, u: nat, action: Action)
    requires CanMove(s, u, action)
  {
    var pc := s.tasks[u].pc;
    && (action.TakeMapRead? || action.TakeMapWrite? ==> s.mapReaders == {} && s.mapWriter.None?)
    && (action.TakeRead? || action.TakeWrite? ==> s.providers[pc.p].readers == {} && s.providers[pc.p].writer.None?)
  }

  /** Some call can move in every reachable state with an unfinished call: the unfinished one,
      or the holder of the lock it waits for. */
  lemma NoDeadlock(states: seq<State>, steps: seq<Step>, i: nat, t: nat) returns (u: nat, action: Action)
    requires IsRun(states, steps) && i < |states| && t < |states[i].tasks|
    requires !states[i].tasks[t].pc.Finished()
    ensures CanMove(states[i], u, action) && GrantsFreeLock(states[i], u, action)
  {
    var s := states[i];
    RunKeepsInv(states, steps, i);
    assert UsesBound(s, t) && OwnsBuilt(s, t);
    u := t;
    match s.tasks[t].pc
    case MapReadWait => u, action := MapHolderMoves(s, t, TakeMapRead);
    case MapReading => action := LookupMap;
    case Building => action := FinishBuild;
    case MapWriteWait(_) => u, action := MapHolderMoves(s, t, TakeMapWrite);
    case MapWriting(_) => action := InsertMap;
    case Sampling(_) => action := SampleClock;
    case ReadWait(p, _) => u, action := CacheHolderMoves(s, t, p, TakeRead);
    case Reading(_, _) => action := CheckRead;
    case WriteWait(p) => u, action := CacheHolderMoves(s, t, p, TakeWrite);
    case Writing(_) => action := Recheck;
    case Fetching(_, _) => action := FetchDone(Failure(""));
  }

  lemma MapHolderMoves(s: State, t: nat, wanted: Action) returns (u: nat, action: Action)
    requires Inv(s) && t < |s.tasks|
    requires (s.tasks[t].pc.MapReadWait? && wanted == TakeMapRead)
             || (s.tasks[t].pc.MapWriteWait? && wanted == TakeMapWrite)
    ensures CanMove(s, u, action) && GrantsFreeLock(s, u, action)
  {
    assert OwnsBuilt(s, t);
    if s.mapWriter.Some? {
      u, action := s.mapWriter.value, InsertMap;
      assert OwnsBuilt(s, u);
    } else if s.mapReaders != {} {
      u :| u in s.mapReaders;
      action := LookupMap;
    } else {
      u, action := t, wanted;
    }
  }

  lemma CacheHolderMoves(s: State, t: nat, p: nat, wanted: Action) returns (u: nat, action: Action)
    requires Inv(s) && t < |s.tasks| && p < |s.providers|
    requires (s.tasks[t].pc.ReadWait? && wanted == TakeRead) || (s.tasks[t].pc.WriteWait? && wanted == TakeWrite)
    requires s.tasks[t].pc.p == p
    ensures CanMove(s, u, action) && GrantsFreeLock(s, u, action)
  {
    assert CacheLock(s, p);
    var pr := s.providers[p];
    if pr.writer.Some? {
      u := pr.writer.value;
      assert WritesCache(s, u, p);
      action := if s.tasks[u].pc.Writing? then Recheck else FetchDone(Failure(""));
    } else if pr.readers != {} {
      u :| u in pr.readers;
      assert ReadsCache(s, u, p);
      action := CheckRead;
    } else {
      u, action := t, wanted;
    }
  }
}
