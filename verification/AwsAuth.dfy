/** The process-wide map of credentials providers and its warm-up at start
    (src/aws_auth/mod.rs). Warm-up runs before any request is served, so it is modelled without
    other tasks; concurrent use of the map is `CredentialSystem`. */
module AwsAuth {
  import opened Wrappers
  import opened CredentialCache
  import opened Config

  datatype AwsAuthError = CredentialsError(targetId: string, cause: string)

  function ConfigsOfTargets(ts: seq<TargetConfig>): seq<AwsSigV4Config> {
    if ts == [] then []
    else (if ts[0].awsSigv4.Some? then [ts[0].awsSigv4.value] else []) + ConfigsOfTargets(ts[1..])
  }

  /** All signing configurations of all listeners, in order. */
  function ConfigsOf(ls: seq<ListenerConfig>): seq<AwsSigV4Config> {
    if ls == [] then [] else ConfigsOfTargets(ls[0].targets) + ConfigsOf(ls[1..])
  }

  predicate IsSigningRequired(c: AppConfig) {
    ConfigsOf(c.listeners) != []
  }

  /** The identities that some target of some listener signs with. */
  function Identities(c: AppConfig): set<Key> {
    set l, t | l in c.listeners && t in l.targets && t.awsSigv4.Some? :: t.awsSigv4.value.roleArn
  }

  lemma {:induction false} TargetConfigsFound(ts: seq<TargetConfig>, a: AwsSigV4Config)
    ensures a in ConfigsOfTargets(ts) <==> exists t :: t in ts && t.awsSigv4 == Some(a)
  {
    if ts != [] {
      TargetConfigsFound(ts[1..], a);
      assert forall t :: t in ts <==> t == ts[0] || t in ts[1..];
    }
  }

  lemma {:induction false} ConfigsFound(ls: seq<ListenerConfig>, a: AwsSigV4Config)
    ensures a in ConfigsOf(ls) <==> exists l, t :: l in ls && t in l.targets && t.awsSigv4 == Some(a)
  {
    if ls != [] {
      ConfigsFound(ls[1..], a);
      TargetConfigsFound(ls[0].targets, a);
      assert forall l :: l in ls <==> l == ls[0] || l in ls[1..];
    }
  }

  /** The identities are exactly those of the collected configurations; there is one to warm
      exactly when signing is required. */
  lemma IdentitiesOfConfigs(c: AppConfig)
    ensures Identities(c) == set a | a in ConfigsOf(c.listeners) :: a.roleArn
    ensures IsSigningRequired(c) <==> Identities(c) != {}
  {
    var configs := ConfigsOf(c.listeners);
    forall k | k in Identities(c)
      ensures exists a :: a in configs && a.roleArn == k
    {
      var l, t :| l in c.listeners && t in l.targets && t.awsSigv4.Some? && t.awsSigv4.value.roleArn == k;
      ConfigsFound(c.listeners, t.awsSigv4.value);
      assert t.awsSigv4.value in configs;
    }
    forall a | a in configs
      ensures a.roleArn in Identities(c)
    {
      ConfigsFound(c.listeners, a);
    }
    if configs != [] {
      assert configs[0] in configs;
    }
  }

  predicate Distinct(keys: seq<Key>) {
    forall i, j :: 0 <= i < j < |keys| ==> keys[i] != keys[j]
  }

  /** How the log and the error name an identity. */
  function TargetName(k: Key): string {
    if k.Some? then k.value else "<default>"
  }

  /** For an identity without an entry the inner provider's answer is all there is: it decides, and
      what it brought is cached from the moment it came. */
  lemma FirstWarmUp(seen: Observation)
    ensures AnswerAlone(None, seen) == seen.fetched
    ensures seen.fetched.Failure? ==> CellAlone(None, seen) == None
    ensures seen.fetched.Success? ==>
              var c := seen.fetched.value;
              forall now :: Lookup(CellAlone(None, seen), now) == if FreshAt(c, seen.done, now) then Some(c) else None
  {
    if seen.fetched.Success? {
      forall now
        ensures Lookup(CellAlone(None, seen), now) ==
                if FreshAt(seen.fetched.value, seen.done, now) then Some(seen.fetched.value) else None
      {
        HitExactly(seen.fetched.value, seen.done, now, "");
      }
    }
  }

  function CellIn(cells: map<Key, Cell>, k: Key): Cell {
    if k in cells then cells[k] else None
  }

  /** The cells after warm-up of distinct identities: each of those is as its own call left it, and every
      other one as it was. */
  function CellsAfter(cells: map<Key, Cell>, warmed: seq<Key>, world: Key -> Observation): map<Key, Cell> {
    map k | k in cells.Keys + (set w | w in warmed) ::
      if k in warmed then CellAlone(CellIn(cells, k), world(k)) else cells[k]
  }

  lemma OneMore(cells: map<Key, Cell>, warmed: seq<Key>, k: Key, world: Key -> Observation)
    requires k !in warmed
    ensures CellsAfter(cells, warmed + [k], world) ==
            CellsAfter(cells, warmed, world)[k := CellAlone(CellIn(cells, k), world(k))]
    ensures CellIn(CellsAfter(cells, warmed, world), k) == CellIn(cells, k)
  {
    assert forall w :: w in warmed + [k] <==> w in warmed || w == k;
  }

  lemma OneBefore(cells: map<Key, Cell>, k: Key, warmed: seq<Key>, world: Key -> Observation)
    requires k !in warmed
    ensures var once := cells[k := CellAlone(CellIn(cells, k), world(k))];
            && CellsAfter(cells, [k] + warmed, world) == CellsAfter(once, warmed, world)
            && forall w :: w in warmed ==> CellIn(once, w) == CellIn(cells, w)
  {
    assert forall w :: w in [k] + warmed <==> w in warmed || w == k;
  }

  /** All identities but the last were answered, and the result is the last one's. */
  ghost predicate EndsWith(r: Result<(), AwsAuthError>, cells: map<Key, Cell>, warmed: seq<Key>,
                           world: Key -> Observation)
  {
    && (forall i :: 0 <= i < |warmed| - 1 ==> AnswerAlone(CellIn(cells, warmed[i]), world(warmed[i])).Success?)
    && (warmed == [] ==> r == Success(()))
    && (warmed != [] ==> r == ResultFor(CellIn(cells, warmed[|warmed| - 1]), warmed[|warmed| - 1], world))
  }

  function ResultFor(cell: Cell, k: Key, world: Key -> Observation): Result<(), AwsAuthError> {
    match AnswerAlone(cell, world(k))
    case Success(_) => Success(())
    case Failure(cause) => Failure(CredentialsError(if k.Some? then k.value else "<default>", cause))
  }

  /** What a warm-up of the identities `warmed` ends in. */
  ghost predicate WarmedUp(r: Result<(), AwsAuthError>, before: map<Key, Cell>, after: map<Key, Cell>, warmed: seq<Key>,
                           world: Key -> Observation)
  {
    Distinct(warmed) && after == CellsAfter(before, warmed, world) && EndsWith(r, before, warmed, world)
  }

  lemma WarmedUpNone(before: map<Key, Cell>, world: Key -> Observation)
    ensures WarmedUp(Success(()), before, before, [], world)
  {
  }

  lemma WarmedUpMore(before: map<Key, Cell>, after: map<Key, Cell>, warmed: seq<Key>, k: Key,
                     r: Result<(), AwsAuthError>, world: Key -> Observation)
    requires WarmedUp(Success(()), before, after, warmed, world) && k !in warmed
    requires r == ResultFor(CellIn(after, k), k, world)
    ensures WarmedUp(r, before, after[k := CellAlone(CellIn(after, k), world(k))], warmed + [k], world)
    ensures k in after ==> k in before
  {
    OneMore(before, warmed, k, world);
  }

  lemma EndsBefore(before: map<Key, Cell>, k: Key, warmed: seq<Key>, r: Result<(), AwsAuthError>,
                   world: Key -> Observation)
    requires k !in warmed && ResultFor(CellIn(before, k), k, world) == Success(())
    requires EndsWith(r, before[k := CellAlone(CellIn(before, k), world(k))], warmed, world)
    ensures EndsWith(r, before, [k] + warmed, world)
  {
    var once := before[k := CellAlone(CellIn(before, k), world(k))];
    forall i | 0 <= i < |warmed|
      ensures ([k] + warmed)[i + 1] == warmed[i] && CellIn(once, warmed[i]) == CellIn(before, warmed[i])
    {
      assert warmed[i] in warmed;
    }
  }

  lemma WarmedUpBefore(before: map<Key, Cell>, k: Key, after: map<Key, Cell>, warmed: seq<Key>,
                       r: Result<(), AwsAuthError>, world: Key -> Observation)
    requires k !in warmed && ResultFor(CellIn(before, k), k, world) == Success(())
    requires WarmedUp(r, before[k := CellAlone(CellIn(before, k), world(k))], after, warmed, world)
    ensures WarmedUp(r, before, after, [k] + warmed, world)
  {
    OneBefore(before, k, warmed, world);
    EndsBefore(before, k, warmed, r, world);
    assert forall w :: w in warmed ==> w != k;
  }

  class CredentialsRegistry {
    var credentials: map<Key, RefreshingCredentials>
    ghost var owners: map<RefreshingCredentials, Key>

    /** Every bound provider belongs to one identity. */
    ghost predicate Valid()
      reads this
    {
      forall k :: k in credentials ==> credentials[k] in owners && owners[credentials[k]] == k
    }

    constructor ()
      ensures Valid() && credentials == map[] && owners == map[]
    {
      credentials := map[];
      owners := map[];
    }

    /** The provider bound to an identity; a new, empty one of its own is bound if there is none. */
    method ProviderFor(roleArn: Key) returns (provider: RefreshingCredentials)
      requires Valid()
      modifies this
      ensures Valid() && fresh(owners.Keys - old(owners.Keys)) && old(owners.Keys) <= owners.Keys
      ensures roleArn in old(credentials) ==> credentials == old(credentials) && provider == credentials[roleArn]
      ensures roleArn !in old(credentials) ==>
                && fresh(provider) && provider.cache == None && credentials == old(credentials)[roleArn := provider]
                && provider.name == if roleArn.Some? then roleArn.value else "default"
      ensures roleArn in credentials && credentials[roleArn] == provider
      ensures provider.cache == CellIn(old(Cells()), roleArn)
      ensures Grown() && Cells() == old(Cells())[roleArn := provider.cache]
    {
      if roleArn in credentials {
        return credentials[roleArn];
      }
      provider := new RefreshingCredentials(if roleArn.Some? then roleArn.value else "default");
      credentials := credentials[roleArn := provider];
      owners := owners[provider := roleArn];
    }

    /** Nothing was unbound or rebound. */
    twostate predicate Grown()
      reads this, owners.Keys
      requires Valid()
    {
      && fresh(owners.Keys - old(owners.Keys)) && old(owners.Keys) <= owners.Keys
      && forall k :: k in old(credentials) ==> k in credentials && credentials[k] == old(credentials[k])
    }

    /** The cells of the bound identities. */
    function Cells(): map<Key, Cell>
      reads this, credentials.Values
    {
      map k | k in credentials :: credentials[k].cache
    }

    /** Warming one identity: its call is made as if alone, and no other cell changes. */
    method Warm(roleArn: Key, world: Key -> Observation) returns (r: Result<(), AwsAuthError>, asked: bool)
      requires Valid()
      modifies this, owners.Keys
      ensures Valid() && Grown()
      ensures Cells() == old(Cells())[roleArn := CellAlone(CellIn(old(Cells()), roleArn), world(roleArn))]
      ensures r == ResultFor(CellIn(old(Cells()), roleArn), roleArn, world)
      ensures roleArn !in old(credentials) ==> asked
    {
      var provider := ProviderFor(roleArn);
      var answer;
      answer, asked := Call(roleArn, provider, world(roleArn));
      match answer
      case Success(_) => r := Success(());
      case Failure(cause) =>
        r := Failure(CredentialsError(TargetName(roleArn), cause));
    }

    /** A call to the bound provider leaves all other cells alone. */
    method Call(k: Key, provider: RefreshingCredentials,
                seen: Observation) returns (answer: ProviderResult, asked: bool)
      requires Valid() && k in credentials && credentials[k] == provider
      modifies provider
      ensures answer == AnswerAlone(old(provider.cache), seen) && (old(provider.cache) == None ==> asked)
      ensures Cells() == old(Cells())[k := CellAlone(old(provider.cache), seen)]
    {
      answer, asked := provider.CallAlone(seen);
    }

    /** Warming identities in an order of the set's choosing, up to the first failure. `warmed` are
        the identities tried, in that order; `asks` counts the inner fetches. */
    method WarmAll(keys: set<Key>, world: Key -> Observation)
      returns (r: Result<(), AwsAuthError>, warmed: seq<Key>, asks: nat)
      requires Valid()
      modifies this, owners.Keys
      ensures Valid() && Grown() && WarmedUp(r, old(Cells()), Cells(), warmed, world)
      ensures forall k :: k in warmed ==> k in keys
      ensures r.Success? ==> forall k :: k in keys ==> k in warmed
      ensures keys !! old(Cells()).Keys ==> asks == |warmed|
    {
      r, warmed, asks := Success(()), [], 0;
      ghost var before := Cells();
      WarmedUpNone(before, world);
      var rest := keys;
      while rest != {}
        invariant Valid() && Grown() && r.Success?
        invariant WarmedUp(r, before, Cells(), warmed, world)
        invariant forall k :: k in keys <==> (k in warmed || k in rest)
        invariant forall k :: k in warmed ==> k !in rest
        invariant keys !! before.Keys ==> asks == |warmed|
        decreases rest
      {
        var key :| key in rest;
        ghost var after := Cells();
        var asked;
        r, asked := Warm(key, world);
        WarmedUpMore(before, after, warmed, key, r, world);
        assert key !in before ==> asked;
        asks := if asked then asks + 1 else asks;
        warmed := warmed + [key];
        rest := rest - {key};
        if r.Failure? {
          return;
        }
      }
    }

    /** Warm-up. It leaves every identity tried with what its own call found, the default one first, and
        nothing else bound or changed. It succeeds when all identities of the configuration were answered,
        each warmed exactly once, and fails with the first that was not. When no target signs, nothing
        happens. */
    method Init(c: AppConfig, world: Key -> Observation)
      returns (r: Result<(), AwsAuthError>, warmed: seq<Key>, asks: nat)
      requires Valid()
      modifies this, owners.Keys
      ensures Valid() && Grown() && WarmedUp(r, old(Cells()), Cells(), warmed, world)
      ensures !IsSigningRequired(c) ==> r == Success(()) && warmed == [] && asks == 0
      ensures forall k :: k in warmed ==> k in Identities(c)
      ensures None in Identities(c) ==> warmed != [] && warmed[0] == None
      ensures r.Success? ==> forall k :: k in Identities(c) ==> k in warmed
      ensures old(credentials) == map[] ==> asks == |warmed|
    {
      IdentitiesOfConfigs(c);
      if !IsSigningRequired(c) {
        WarmedUpNone(Cells(), world);
        return Success(()), [], 0;
      }
      var configs := ConfigsOf(c.listeners);
      var roleArns: set<Key> := set a | a in configs && a.roleArn.Some? :: a.roleArn;
      if exists a :: a in configs && a.roleArn.None? {
        assert Identities(c) == {None} + roleArns;
        r, warmed, asks := WarmDefaultAnd(roleArns, world);
      } else {
        assert Identities(c) == roleArns;
        r, warmed, asks := WarmAll(roleArns, world);
      }
    }

    /** Warm-up with the default identity first. */
    method WarmDefaultAnd(roleArns: set<Key>, world: Key -> Observation)
      returns (r: Result<(), AwsAuthError>, warmed: seq<Key>, asks: nat)
      requires Valid() && None !in roleArns
      modifies this, owners.Keys
      ensures Valid() && Grown() && WarmedUp(r, old(Cells()), Cells(), warmed, world)
      ensures warmed != [] && warmed[0] == None && forall k :: k in warmed ==> k == None || k in roleArns
      ensures r.Success? ==> forall k :: k == None || k in roleArns ==> k in warmed
      ensures ({None} + roleArns) !! old(Cells()).Keys ==> asks == |warmed|
    {
      ghost var before := Cells();
      WarmedUpNone(before, world);
      var asked;
      r, asked := Warm(None, world);
      asks := if asked then 1 else 0;
      if r.Failure? {
        WarmedUpMore(before, before, [], None, r, world);
        warmed := [None];
        assert [] + [None] == warmed;
        return;
      }
      var others, more;
      r, others, more := WarmAll(roleArns, world);
      WarmedUpBefore(before, None, Cells(), others, r, world);
      warmed, asks := [None] + others, asks + more;
      assert forall k :: k in warmed <==> k == None || k in others;
    }
  }

  /** From an empty map a warm-up that succeeds leaves exactly the identities tried, each with what its own
      inner provider brought, cached from the moment it came. */
  lemma FirstWarmUps(r: Result<(), AwsAuthError>, warmed: seq<Key>, world: Key -> Observation)
    requires EndsWith(r, map[], warmed, world)
    ensures r.Success? ==>
              && (forall k :: k in CellsAfter(map[], warmed, world) <==> k in warmed)
              && (forall k :: k in warmed ==>
                                && world(k).fetched.Success?
                                && CellsAfter(map[], warmed, world)[k] ==
                                   Some(NewEntry(world(k).fetched.value, world(k).done)))
  {
    forall k | k in warmed
      ensures AnswerAlone(None, world(k)) == world(k).fetched
    {
      FirstWarmUp(world(k));
    }
  }
}
