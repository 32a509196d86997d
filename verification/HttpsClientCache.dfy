/** The process-wide cache of HTTPS clients (src/config/target.rs, `get_https_client`). Unlike the
    credentials map it lets a later writer replace an earlier one, and a caller that has written
    starts over. Creating a client is taken to succeed. */
module HttpsClientCache {
  import opened Config

  datatype HashKey = HashKey(timeout: nat, tls: TlsConfig)

  /** A client, with the pair it was built from and a number telling clients apart. */
  datatype Client = Client(builtFrom: HashKey, serial: nat)

  /** The cache used by one caller at a time. */
  class ClientCache {
    var clients: map<HashKey, Client>
    var created: nat

    constructor ()
      ensures clients == map[]
    {
      clients := map[];
      created := 0;
    }

    ghost predicate Valid()
      reads this
    {
      forall k :: k in clients ==> clients[k].builtFrom == k
    }

    method GetHttpsClient(timeout: nat, tls: TlsConfig) returns (client: Client)
      requires Valid()
      modifies this
      ensures Valid()
      ensures HashKey(timeout, tls) in old(clients) ==>
                && clients == old(clients) && created == old(created)
                && client == clients[HashKey(timeout, tls)]
      ensures HashKey(timeout, tls) !in old(clients) ==>
                && client == Client(HashKey(timeout, tls), old(created)) && created == old(created) + 1
                && clients == old(clients)[HashKey(timeout, tls) := client]
      decreases HashKey(timeout, tls) !in clients
    {
      var key := HashKey(timeout, tls);
      if key in clients {
        client := clients[key];
      } else {
        clients := clients[key := Client(key, created)];
        created := created + 1;
        client := GetHttpsClient(timeout, tls);
      }
    }
  }

  // ----- any number of callers -----

  /** Where a lookup is: before its first read lock, between a successful check and the second
      read lock, or before the write lock. */
  datatype Pc = Checking | Getting | Creating | Returned(client: Client) | Panicked

  /** `depth` counts the recursive calls made. */
  datatype Lookup = Lookup(key: HashKey, depth: nat, pc: Pc)

  datatype State = State(clients: map<HashKey, Client>, created: nat, lookups: seq<Lookup>)

  datatype Step = Arrive(key: HashKey) | Check(t: nat) | Get(t: nat) | Create(t: nat)

  const INIT: State := State(map[], 0, [])

  predicate Enabled(s: State, step: Step) {
    match step
    case Arrive(_) => true
    case Check(t) => t < |s.lookups| && s.lookups[t].pc.Checking?
    case Get(t) => t < |s.lookups| && s.lookups[t].pc.Getting?
    case Create(t) => t < |s.lookups| && s.lookups[t].pc.Creating?
  }

  function Apply(s: State, step: Step): State
    requires Enabled(s, step)
  {
    match step
    case Arrive(key) => s.(lookups := s.lookups + [Lookup(key, 0, Checking)])
    case Check(t) =>
      s.(lookups := s.lookups[t := s.lookups[t].(pc := if s.lookups[t].key in s.clients then Getting else Creating)])
    case Get(t) =>
      var key := s.lookups[t].key;
      var pc := if key in s.clients then Returned(s.clients[key]) else Panicked;
      s.(lookups := s.lookups[t := s.lookups[t].(pc := pc)])
    case Create(t) =>
      var key := s.lookups[t].key;
      State(s.clients[key := Client(key, s.created)], s.created + 1,
            s.lookups[t := Lookup(key, s.lookups[t].depth + 1, Checking)])
  }

  predicate IsRun(states: seq<State>, steps: seq<Step>) {
    && |states| == |steps| + 1
    && states[0] == INIT
    && forall i :: 0 <= i < |steps| ==> Enabled(states[i], steps[i]) && states[i + 1] == Apply(states[i], steps[i])
  }

  predicate LookupOk(s: State, l: Lookup) {
    && l.depth <= 1
    && (l.depth == 1 || l.pc.Getting? || l.pc.Returned? ==> l.key in s.clients)
    && (l.pc.Creating? ==> l.depth == 0)
    && (l.pc.Returned? ==> l.pc.client.builtFrom == l.key)
    && !l.pc.Panicked?
  }

  ghost predicate Inv(s: State) {
    && (forall k :: k in s.clients ==> s.clients[k].builtFrom == k)
    && (forall t :: 0 <= t < |s.lookups| ==> LookupOk(s, s.lookups[t]))
  }

  lemma KeepsInv(s: State, step: Step)
    requires Inv(s) && Enabled(s, step)
    ensures Inv(Apply(s, step))
    ensures s.clients.Keys <= Apply(s, step).clients.Keys
  {
    var s' := Apply(s, step);
    forall t | 0 <= t < |s'.lookups|
      ensures LookupOk(s', s'.lookups[t])
    {
      assert t < |s.lookups| ==> LookupOk(s, s.lookups[t]);
    }
  }

  lemma {:induction false} Reached(states: seq<State>, steps: seq<Step>, i: nat)
    requires IsRun(states, steps) && i < |states|
    ensures Inv(states[i])
  {
    if i > 0 {
      Reached(states, steps, i - 1);
      KeepsInv(states[i - 1], steps[i - 1]);
    }
  }

  /** In every interleaving: the second look never misses, a lookup starts over at most once, what
      it returns was built from the pair it asked for, and that pair is then cached. */
  lemma LookupsAgree(states: seq<State>, steps: seq<Step>, i: nat, t: nat)
    requires IsRun(states, steps) && i < |states| && t < |states[i].lookups|
    ensures var lookup := states[i].lookups[t];
            && !lookup.pc.Panicked? && lookup.depth <= 1
            && (lookup.pc.Getting? ==> lookup.key in states[i].clients)
            && (lookup.pc.Returned? ==>
                  && lookup.pc.client.builtFrom == lookup.key
                  && lookup.key in states[i].clients && states[i].clients[lookup.key].builtFrom == lookup.key)
  {
    Reached(states, steps, i);
    assert LookupOk(states[i], states[i].lookups[t]);
  }

  /** The key set only grows. */
  lemma {:induction false} KeysGrow(states: seq<State>, steps: seq<Step>, i: nat, j: nat)
    requires IsRun(states, steps) && i <= j < |states|
    ensures states[i].clients.Keys <= states[j].clients.Keys
  {
    if i < j {
      KeysGrow(states, steps, i, j - 1);
      Reached(states, steps, j - 1);
      KeepsInv(states[j - 1], steps[j - 1]);
    }
  }

  /** How many of the first `i` steps were taken by lookup `t`. */
  function StepsOf(steps: seq<Step>, i: nat, t: nat): nat
    requires i <= |steps|
  {
    if i == 0 then 0
    else StepsOf(steps, i - 1, t) + (if !steps[i - 1].Arrive? && steps[i - 1].t == t then 1 else 0)
  }

  function StepsTaken(l: Lookup): nat {
    match l.pc
    case Checking => 2 * l.depth
    case Getting => 2 * l.depth + 1
    case Creating => 1
    case _ => 2 * l.depth + 2
  }

  /** A lookup takes at most four steps, however many writers race with it. */
  lemma {:induction false} LookupsAreShort(states: seq<State>, steps: seq<Step>, i: nat, t: nat)
    requires IsRun(states, steps) && i < |states|
    ensures StepsOf(steps, i, t) == (if t < |states[i].lookups| then StepsTaken(states[i].lookups[t]) else 0)
    ensures StepsOf(steps, i, t) <= 4
  {
    Reached(states, steps, i);
    if i > 0 {
      LookupsAreShort(states, steps, i - 1, t);
      Reached(states, steps, i - 1);
      assert states[i] == Apply(states[i - 1], steps[i - 1]);
      assert t < |states[i - 1].lookups| ==> LookupOk(states[i - 1], states[i - 1].lookups[t]);
    }
    assert t < |states[i].lookups| ==> LookupOk(states[i], states[i].lookups[t]);
  }

  // ----- a cached client is used -----

  /** A lookup that checks while its pair is cached goes on to take what is cached, and creates nothing. */
  lemma CachedIsTaken(states: seq<State>, steps: seq<Step>, i: nat, t: nat)
    requires IsRun(states, steps) && i < |steps| && steps[i] == Check(t)
    ensures t < |states[i].lookups| && t < |states[i + 1].lookups|
    ensures states[i + 1].lookups[t].pc.Creating? <==> states[i].lookups[t].key !in states[i].clients
    ensures states[i + 1].lookups[t].pc.Getting? <==> states[i].lookups[t].key in states[i].clients
    ensures states[i + 1].lookups[t].depth == states[i].lookups[t].depth
    ensures states[i + 1].clients == states[i].clients && states[i + 1].created == states[i].created
  {
    assert Enabled(states[i], steps[i]) && states[i + 1] == Apply(states[i], steps[i]);
  }

  /** In step `j` the lookup takes the client cached under its pair. */
  ghost predicate Takes(states: seq<State>, steps: seq<Step>, j: nat, t: nat, client: Client)
    requires |states| == |steps| + 1
  {
    && j < |steps| && steps[j] == Step.Get(t) && t < |states[j].lookups|
    && states[j].lookups[t].key in states[j].clients
    && states[j].clients[states[j].lookups[t].key] == client
  }

  /** What a lookup returns is the client that was cached under its pair when it took it. */
  lemma {:induction false} ReturnedWasCached(states: seq<State>, steps: seq<Step>, i: nat, t: nat)
    requires IsRun(states, steps) && i < |states| && t < |states[i].lookups|
    requires states[i].lookups[t].pc.Returned?
    ensures exists j: nat :: j < i && Takes(states, steps, j, t, states[i].lookups[t].pc.client)
  {
    if i > 0 {
      var s, step := states[i - 1], steps[i - 1];
      assert Enabled(s, step) && states[i] == Apply(s, step);
      if step == Step.Get(t) {
        assert Takes(states, steps, i - 1, t, states[i].lookups[t].pc.client);
      } else {
        ReturnedWasCached(states, steps, i - 1, t);
      }
    }
  }

  /** In step `j` the lookup finds its pair missing. */
  ghost predicate Misses(states: seq<State>, steps: seq<Step>, j: nat, t: nat)
    requires |states| == |steps| + 1
  {
    j < |steps| && steps[j] == Check(t) && t < |states[j].lookups| && states[j].lookups[t].key !in states[j].clients
  }

  lemma {:induction false} CreatingMissed(states: seq<State>, steps: seq<Step>, i: nat, t: nat)
    requires IsRun(states, steps) && i < |states| && t < |states[i].lookups|
    requires states[i].lookups[t].pc.Creating?
    ensures exists j: nat :: j < i && Misses(states, steps, j, t)
  {
    if i > 0 {
      assert Enabled(states[i - 1], steps[i - 1]) && states[i] == Apply(states[i - 1], steps[i - 1]);
      if steps[i - 1] == Check(t) {
        assert Misses(states, steps, i - 1, t);
      } else {
        CreatingMissed(states, steps, i - 1, t);
      }
    }
  }

  /** A client is created, or a cached one replaced, only by a lookup whose own check found nothing. */
  lemma CreatesOnlyAfterMiss(states: seq<State>, steps: seq<Step>, i: nat)
    requires IsRun(states, steps) && i < |steps|
    requires states[i + 1].created != states[i].created || states[i + 1].clients != states[i].clients
    ensures steps[i].Create?
    ensures states[i + 1].created == states[i].created + 1
    ensures exists j: nat :: j < i && Misses(states, steps, j, steps[i].t)
  {
    assert Enabled(states[i], steps[i]) && states[i + 1] == Apply(states[i], steps[i]);
    CreatingMissed(states, steps, i, steps[i].t);
  }

  /** The steps of a lookup that runs alone do what `ClientCache.GetHttpsClient` does. */
  lemma StepsAreGetHttpsClient(s: State, t: nat)
    requires t < |s.lookups| && s.lookups[t].pc.Checking?
    ensures var key := s.lookups[t].key;
            var s1 := Apply(s, Check(t));
            if key in s.clients then
              && Enabled(s1, Step.Get(t))
              && var s2 := Apply(s1, Step.Get(t));
              && s2.lookups[t].pc == Returned(s.clients[key])
              && s2.clients == s.clients && s2.created == s.created
            else
              && Enabled(s1, Create(t))
              && var s2 := Apply(s1, Create(t));
              && Enabled(s2, Check(t))
              && var s3 := Apply(s2, Check(t));
              && Enabled(s3, Step.Get(t))
              && var s4 := Apply(s3, Step.Get(t));
              && s4.lookups[t].pc == Returned(Client(key, s.created))
              && s4.clients == s.clients[key := Client(key, s.created)] && s4.created == s.created + 1
  {
  }
}
