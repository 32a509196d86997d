/** Which targets of a listener a request goes to (src/handler.rs). */
module Routing {
  import opened Wrappers
  import opened Config

  /** The targets to query, with the id conditional routing has settled on; or two filters that are
      both true; or a panic. */
  datatype Selection = Selected(targets: seq<TargetConfig>, routed: Option<string>) | Ambiguous | Panics

  predicate IsFilter(t: TargetConfig) {
    t.condition.Some? && t.condition.value.Filter?
  }

  predicate AnyFilter(ts: seq<TargetConfig>) {
    exists t :: t in ts && IsFilter(t)
  }

  predicate HoldsFor(t: TargetConfig, holds: string -> bool) {
    IsFilter(t) && holds(t.condition.value.expression)
  }

  /** The targets whose filter is true. */
  function Hits(ts: seq<TargetConfig>, holds: string -> bool): (hits: seq<TargetConfig>)
    ensures forall t :: t in hits ==> t in ts && HoldsFor(t, holds)
  {
    if ts == [] then []
    else Hits(ts[..|ts| - 1], holds) + (if HoldsFor(ts[|ts| - 1], holds) then [ts[|ts| - 1]] else [])
  }

  /** The targets that other strategies query. */
  function Allowed(ts: seq<TargetConfig>, holds: string -> bool): seq<TargetConfig> {
    if ts == [] then []
    else
      var t := ts[|ts| - 1];
      Allowed(ts[..|ts| - 1], holds) + (if t.condition.None? || IsDefault(t) || HoldsFor(t, holds) then [t] else [])
  }

  function FirstDefault(ts: seq<TargetConfig>): (r: Option<TargetConfig>)
    ensures r.Some? ==> r.value in ts && IsDefault(r.value)
  {
    if ts == [] then None
    else if FirstDefault(ts[..|ts| - 1]).Some? then FirstDefault(ts[..|ts| - 1])
    else if IsDefault(ts[|ts| - 1]) then Some(ts[|ts| - 1])
    else None
  }

  /** Conditional routing, stated by the filters that are true. */
  function Route(ts: seq<TargetConfig>, holds: string -> bool): Selection {
    var hits := Hits(ts, holds);
    if |hits| > 1 then Ambiguous
    else if |hits| == 1 then Selected(hits, Some(hits[0].Id()))
    else
      match FirstDefault(ts)
      case Some(t) => Selected([t], Some(t.Id()))
      case None => Selected([], None)
  }

  /** The targets before the first one without a condition. */
  function Conditioned(ts: seq<TargetConfig>): seq<TargetConfig> {
    if ts == [] || ts[0].condition.None? then [] else [ts[0]] + Conditioned(ts[1..])
  }

  /** What the scan decides. `readable` says that all header values of the request are text;
      evaluating a filter panics on any other. Under conditional routing a target without a
      condition panics too, unless two true filters come before it. */
  function Choose(l: ListenerConfig, holds: string -> bool, readable: bool): Selection {
    if !readable && AnyFilter(l.targets) then Panics
    else if !l.strategy.ConditionalRouting? then Selected(Allowed(l.targets, holds), None)
    else if Conditioned(l.targets) == l.targets || |Hits(Conditioned(l.targets), holds)| > 1 then
      Route(Conditioned(l.targets), holds)
    else Panics
  }

  /** A target the scan cannot get past. */
  predicate Trips(l: ListenerConfig, t: TargetConfig, readable: bool) {
    (IsFilter(t) && !readable) || (l.strategy.ConditionalRouting? && t.condition.None?)
  }

  function CheckCondition(expression: string, holds: string -> bool, readable: bool): Option<bool> {
    if readable then Some(holds(expression)) else None
  }

  lemma {:induction false} ConditionedIsPrefix(ts: seq<TargetConfig>, n: nat)
    requires n <= |ts| && forall i :: 0 <= i < n ==> ts[i].condition.Some?
    ensures n <= |Conditioned(ts)| && ts[..n] == Conditioned(ts)[..n]
    ensures n == |ts| || ts[n].condition.None? ==> Conditioned(ts) == ts[..n]
  {
    if n > 0 {
      ConditionedIsPrefix(ts[1..], n - 1);
      assert ts[..n] == [ts[0]] + ts[1..][..n - 1];
    }
  }

  lemma {:induction false} HitsGrow(ts: seq<TargetConfig>, n: nat, holds: string -> bool)
    requires n <= |ts|
    ensures |Hits(ts[..n], holds)| <= |Hits(ts, holds)|
  {
    if n < |ts| {
      HitsGrow(ts[..|ts| - 1], n, holds);
      assert ts[..|ts| - 1][..n] == ts[..n];
    } else {
      assert ts[..n] == ts;
    }
  }

  /** How one more target changes the routing decision. */
  lemma RouteStep(ts: seq<TargetConfig>, t: TargetConfig, holds: string -> bool)
    requires Route(ts, holds).Selected?
    ensures var targets := Route(ts, holds).targets;
            && |targets| <= 1
            && (targets != [] ==> targets[0].condition.Some?)
            && Route(ts, holds).routed == (if targets == [] then None else Some(targets[0].Id()))
            && Route(ts + [t], holds) ==
               if HoldsFor(t, holds) then
                 if targets == [] || IsDefault(targets[0]) then Selected([t], Some(t.Id())) else Ambiguous
               else if IsDefault(t) && targets == [] then Selected([t], Some(t.Id()))
               else Route(ts, holds)
  {
    assert (ts + [t])[..|ts|] == ts;
    var hits := Hits(ts, holds);
    assert hits != [] ==> hits[0] in hits;
  }

  /** The scan's step under conditional routing: a default enters only an empty selection, a true
      filter takes the place of a default, and a second true filter is an error. */
  method ConsiderRouted(ghost seen: seq<TargetConfig>, selected: seq<TargetConfig>, routed: Option<string>,
                        target: TargetConfig, holds: string -> bool, readable: bool)
    returns (s: Selection)
    requires Selected(selected, routed) == Route(seen, holds)
    ensures s == if target.condition.None? || (IsFilter(target) && !readable) then Panics
                 else Route(seen + [target], holds)
  {
    if target.condition.None? {
      return Panics;
    }
    RouteStep(seen, target, holds);
    var targets := selected;
    match target.condition.value {
      case Default =>
        if targets == [] {
          targets := [target];
        }
      case Filter(expression) =>
        var check := CheckCondition(expression, holds, readable);
        if check.None? {
          return Panics;
        }
        if check.value {
          if targets == [] {
            targets := [target];
          } else if targets[0].condition.value.Default? {
            targets := targets[..|targets| - 1];
            targets := targets + [target];
          } else {
            return Ambiguous;
          }
        }
    }
    return Selected(targets, if targets != [] then Some(targets[0].Id()) else routed);
  }

  /** The scan's step under any other strategy; no targets where it panics. */
  method ConsiderAllowed(ghost seen: seq<TargetConfig>, selected: seq<TargetConfig>, target: TargetConfig,
                         holds: string -> bool, readable: bool)
    returns (targets: Option<seq<TargetConfig>>)
    requires selected == Allowed(seen, holds)
    ensures targets == if IsFilter(target) && !readable then None else Some(Allowed(seen + [target], holds))
  {
    AllowedStep(seen, target, holds);
    if target.condition.None? {
      return Some(selected + [target]);
    }
    match target.condition.value
    case Default => return Some(selected + [target]);
    case Filter(expression) =>
      var check := CheckCondition(expression, holds, readable);
      if check.None? {
        return None;
      }
      if check.value {
        return Some(selected + [target]);
      }
      assert selected + [] == selected;
      return Some(selected);
  }

  lemma AllowedStep(ts: seq<TargetConfig>, t: TargetConfig, holds: string -> bool)
    ensures Allowed(ts + [t], holds) ==
            Allowed(ts, holds) + if t.condition.None? || IsDefault(t) || HoldsFor(t, holds) then [t] else []
  {
    assert (ts + [t])[..|ts|] == ts;
  }

  /** What the scan has selected after the targets `ts`. */
  ghost function Scanned(l: ListenerConfig, ts: seq<TargetConfig>, holds: string -> bool): Selection {
    if l.strategy.ConditionalRouting? then Route(ts, holds) else Selected(Allowed(ts, holds), None)
  }

  /** The scan's step. */
  method Consider(l: ListenerConfig, ghost seen: seq<TargetConfig>, selected: seq<TargetConfig>, routed: Option<string>,
                  target: TargetConfig, holds: string -> bool, readable: bool)
    returns (s: Selection)
    requires Selected(selected, routed) == Scanned(l, seen, holds)
    ensures s == if Trips(l, target, readable) then Panics else Scanned(l, seen + [target], holds)
  {
    if l.strategy.ConditionalRouting? {
      s := ConsiderRouted(seen, selected, routed, target, holds, readable);
    } else {
      var targets := ConsiderAllowed(seen, selected, target, holds, readable);
      s := if targets.Some? then Selected(targets.value, routed) else Panics;
    }
  }

  /** Where the scan ends early, it ends as chosen. */
  lemma ScanTrips(l: ListenerConfig, i: nat, holds: string -> bool, readable: bool)
    requires i < |l.targets| && Trips(l, l.targets[i], readable)
    requires forall j :: 0 <= j < i ==> !Trips(l, l.targets[j], readable)
    requires Scanned(l, l.targets[..i], holds).Selected?
    ensures Choose(l, holds, readable) == Panics
  {
    if IsFilter(l.targets[i]) {
      assert AnyFilter(l.targets);
    } else {
      ConditionedIsPrefix(l.targets, i);
    }
  }

  lemma ScanDisagrees(l: ListenerConfig, n: nat, holds: string -> bool, readable: bool)
    requires n <= |l.targets|
    requires forall j :: 0 <= j < n ==> !Trips(l, l.targets[j], readable)
    requires Scanned(l, l.targets[..n], holds) == Ambiguous
    ensures Choose(l, holds, readable) == Ambiguous
  {
    assert readable by {
      assert Hits(l.targets[..n], holds)[0] in Hits(l.targets[..n], holds);
    }
    ConditionedIsPrefix(l.targets, n);
    HitsGrow(Conditioned(l.targets), n, holds);
  }

  /** The scan over a listener's targets. */
  method SelectTargets(l: ListenerConfig, holds: string -> bool, readable: bool) returns (s: Selection)
    ensures s == Choose(l, holds, readable)
  {
    var targets := [];
    var routed := None;
    for i := 0 to |l.targets|
      invariant Selected(targets, routed) == Scanned(l, l.targets[..i], holds)
      invariant forall j :: 0 <= j < i ==> !Trips(l, l.targets[j], readable)
    {
      assert l.targets[..i + 1] == l.targets[..i] + [l.targets[i]];
      var step := Consider(l, l.targets[..i], targets, routed, l.targets[i], holds, readable);
      if !step.Selected? {
        if step.Panics? {
          ScanTrips(l, i, holds, readable);
        } else {
          ScanDisagrees(l, i + 1, holds, readable);
        }
        return step;
      }
      targets, routed := step.targets, step.routed;
    }
    assert l.targets[..|l.targets|] == l.targets;
    if l.strategy.ConditionalRouting? {
      ConditionedIsPrefix(l.targets, |l.targets|);
    }
    return Selected(targets, routed);
  }

  ghost predicate Hit(ts: seq<TargetConfig>, i: int, holds: string -> bool) {
    0 <= i < |ts| && HoldsFor(ts[i], holds)
  }

  lemma {:induction false} NoHits(ts: seq<TargetConfig>, holds: string -> bool)
    ensures Hits(ts, holds) == [] <==> forall i :: !Hit(ts, i, holds)
  {
    if ts != [] {
      NoHits(ts[..|ts| - 1], holds);
      HitInit(ts, holds);
    }
  }

  lemma {:induction false} OneHit(ts: seq<TargetConfig>, holds: string -> bool, i: int)
    requires Hit(ts, i, holds) && |Hits(ts, holds)| == 1
    ensures Hits(ts, holds) == [ts[i]]
  {
    var n := |ts| - 1;
    HitInit(ts, holds);
    NoHits(ts[..n], holds);
    if i < n {
      OneHit(ts[..n], holds, i);
    }
  }

  lemma {:induction false} ManyHits(ts: seq<TargetConfig>, holds: string -> bool)
    ensures |Hits(ts, holds)| > 1 <==> exists i, j :: i < j && Hit(ts, i, holds) && Hit(ts, j, holds)
  {
    if ts != [] {
      var n := |ts| - 1;
      var init := ts[..n];
      ManyHits(init, holds);
      NoHits(init, holds);
      HitInit(ts, holds);
      if |Hits(init, holds)| > 1 {
        var i, j :| i < j && Hit(init, i, holds) && Hit(init, j, holds);
        assert Hit(ts, i, holds) && Hit(ts, j, holds);
      }
      if Hit(ts, n, holds) && Hits(init, holds) != [] {
        var i :| Hit(init, i, holds);
        assert i < n && Hit(ts, i, holds);
      }
      if i, j :| i < j && Hit(ts, i, holds) && Hit(ts, j, holds) {
        assert Hit(init, i, holds) && (j < n ==> Hit(init, j, holds));
      }
    }
  }

  lemma HitInit(ts: seq<TargetConfig>, holds: string -> bool)
    requires ts != []
    ensures var n := |ts| - 1;
            && (forall i :: i != n ==> (Hit(ts, i, holds) <==> Hit(ts[..n], i, holds)))
            && !Hit(ts[..n], n, holds)
            && Hits(ts, holds) == Hits(ts[..n], holds) + if Hit(ts, n, holds) then [ts[n]] else []
  {
  }

  lemma {:induction false} FirstDefaultFound(ts: seq<TargetConfig>, i: nat)
    requires i < |ts| && IsDefault(ts[i])
    ensures FirstDefault(ts).Some?
    ensures AtMostOneDefault(ts) ==> FirstDefault(ts) == Some(ts[i])
  {
    var n := |ts| - 1;
    var init := ts[..n];
    if i < n {
      FirstDefaultFound(init, i);
      if AtMostOneDefault(ts) {
        assert AtMostOneDefault(init);
      }
    }
  }

  lemma RouteTable(ts: seq<TargetConfig>, holds: string -> bool)
    requires AtMostOneDefault(ts)
    ensures (exists i, j :: i < j && Hit(ts, i, holds) && Hit(ts, j, holds)) <==> Route(ts, holds) == Ambiguous
    ensures forall i :: Hit(ts, i, holds) && (forall j :: j != i ==> !Hit(ts, j, holds)) ==>
                          Route(ts, holds) == Selected([ts[i]], Some(ts[i].Id()))
    ensures (forall i :: !Hit(ts, i, holds)) ==>
              forall i :: 0 <= i < |ts| && IsDefault(ts[i]) ==> Route(ts, holds) == Selected([ts[i]], Some(ts[i].Id()))
    ensures (forall i :: 0 <= i < |ts| ==> !Hit(ts, i, holds) && !IsDefault(ts[i])) ==>
              Route(ts, holds) == Selected([], None)
  {
    NoHits(ts, holds);
    ManyHits(ts, holds);
    forall i | Hit(ts, i, holds) && |Hits(ts, holds)| == 1
      ensures Hits(ts, holds) == [ts[i]]
    {
      OneHit(ts, holds, i);
    }
    forall i | 0 <= i < |ts| && IsDefault(ts[i])
      ensures FirstDefault(ts) == Some(ts[i])
    {
      FirstDefaultFound(ts, i);
    }
  }

  /** A validated listener with conditional routing whose request the filters can read. */
  ghost predicate Routes(l: ListenerConfig, isUrl: string -> bool, readable: bool) {
    && ValidateListener(l, isUrl) == Accepted && l.strategy.ConditionalRouting?
    && (readable || !AnyFilter(l.targets))
  }

  lemma RoutedChoice(l: ListenerConfig, isUrl: string -> bool, holds: string -> bool, readable: bool)
    requires Routes(l, isUrl, readable)
    ensures AtMostOneDefault(l.targets) && forall i :: 0 <= i < |l.targets| ==> l.targets[i].condition.Some?
    ensures Choose(l, holds, readable) == Route(l.targets, holds)
  {
    ListenerAccepted(l, isUrl);
    ConditionedIsPrefix(l.targets, |l.targets|);
    assert l.targets[..|l.targets|] == l.targets;
  }

  /** What the scan selects for it: the only true filter; without one the default; without either
      nothing; and no decision between two true filters. */
  lemma RoutingTable(l: ListenerConfig, isUrl: string -> bool, holds: string -> bool, readable: bool)
    requires Routes(l, isUrl, readable)
    ensures var ts, choice := l.targets, Choose(l, holds, readable);
            && ((exists i, j :: i < j && Hit(ts, i, holds) && Hit(ts, j, holds)) <==> choice == Ambiguous)
            && (forall i :: Hit(ts, i, holds) && (forall j :: j != i ==> !Hit(ts, j, holds)) ==>
                              choice == Selected([ts[i]], Some(ts[i].Id())))
            && ((forall i :: !Hit(ts, i, holds)) ==>
                  forall i :: 0 <= i < |ts| && IsDefault(ts[i]) ==> choice == Selected([ts[i]], Some(ts[i].Id())))
            && ((forall i :: 0 <= i < |ts| ==> !Hit(ts, i, holds) && !IsDefault(ts[i])) ==>
                  choice == Selected([], None))
  {
    RoutedChoice(l, isUrl, holds, readable);
    RouteTable(l.targets, holds);
  }

  lemma {:induction false} HitsAsMultiset(ts: seq<TargetConfig>, holds: string -> bool, t: TargetConfig)
    ensures multiset(Hits(ts, holds))[t] == if HoldsFor(t, holds) then multiset(ts)[t] else 0
  {
    if ts != [] {
      var n := |ts| - 1;
      HitsAsMultiset(ts[..n], holds, t);
      assert ts == ts[..n] + [ts[n]];
    }
  }

  lemma HitsIgnoreOrder(ts: seq<TargetConfig>, us: seq<TargetConfig>, holds: string -> bool)
    requires multiset(ts) == multiset(us)
    ensures |Hits(ts, holds)| == |Hits(us, holds)|
    ensures |Hits(ts, holds)| == 1 ==> Hits(ts, holds) == Hits(us, holds)
  {
    var a, b := multiset(Hits(ts, holds)), multiset(Hits(us, holds));
    forall t
      ensures a[t] == b[t]
    {
      HitsAsMultiset(ts, holds, t);
      HitsAsMultiset(us, holds, t);
    }
    SameMultiset(Hits(ts, holds), Hits(us, holds));
  }

  lemma SameMultiset<T>(a: seq<T>, b: seq<T>)
    requires forall t :: multiset(a)[t] == multiset(b)[t]
    ensures |a| == |b| && (|a| == 1 ==> a == b)
  {
    assert multiset(a) == multiset(b);
    assert |multiset(a)| == |a| && |multiset(b)| == |b|;
    if |a| == 1 {
      assert a[0] in multiset(b);
    }
  }

  /** The order in which a validated listener lists its targets does not matter to routing. */
  lemma RoutingIgnoresOrder(l: ListenerConfig, us: seq<TargetConfig>, isUrl: string -> bool, holds: string -> bool,
                            readable: bool)
    requires Routes(l, isUrl, readable)
    requires multiset(us) == multiset(l.targets)
    ensures Choose(l.(targets := us), holds, readable) == Choose(l, holds, readable)
  {
    var ts := l.targets;
    RoutedChoice(l, isUrl, holds, readable);
    HitsIgnoreOrder(ts, us, holds);
    SameDefault(ts, us);
    SameMembers(ts, us);
    forall i | 0 <= i < |us|
      ensures us[i].condition.Some?
    {
      assert us[i] in ts;
    }
    ConditionedIsPrefix(us, |us|);
    assert us[..|us|] == us;
  }

  lemma SameMembers(ts: seq<TargetConfig>, us: seq<TargetConfig>)
    requires multiset(us) == multiset(ts)
    ensures forall t :: t in us <==> t in ts
    ensures AnyFilter(us) <==> AnyFilter(ts)
  {
    forall t
      ensures t in us <==> t in ts
    {
      assert t in us <==> t in multiset(us);
      assert t in ts <==> t in multiset(ts);
    }
  }

  lemma SameDefault(ts: seq<TargetConfig>, us: seq<TargetConfig>)
    requires multiset(ts) == multiset(us) && AtMostOneDefault(ts)
    ensures FirstDefault(ts) == FirstDefault(us)
  {
    if FirstDefault(us).Some? {
      var d := FirstDefault(us).value;
      assert d in multiset(us);
      assert d in ts;
      var i :| 0 <= i < |ts| && ts[i] == d;
      FirstDefaultFound(ts, i);
    } else if FirstDefault(ts).Some? {
      var d := FirstDefault(ts).value;
      assert d in multiset(ts);
      assert d in us;
      var i :| 0 <= i < |us| && us[i] == d;
      FirstDefaultFound(us, i);
    }
  }

  /** The other strategies query a target unless its filter is false. */
  lemma {:induction false} AllowedTargets(ts: seq<TargetConfig>, holds: string -> bool, t: TargetConfig)
    ensures t in Allowed(ts, holds) <==> t in ts && (t.condition.None? || IsDefault(t) || HoldsFor(t, holds))
  {
    if ts != [] {
      var n := |ts| - 1;
      AllowedTargets(ts[..n], holds, t);
      assert ts == ts[..n] + [ts[n]];
    }
  }

  /** A target without a condition, with the condition `default`, or with a filter that is true. */
  predicate IsQueried(t: TargetConfig, holds: string -> bool) {
    match t.condition
    case None => true
    case Some(Default) => true
    case Some(Filter(expression)) => holds(expression)
  }

  /** `us` are the targets of `ts` in the places `places`: all those that are queried, in order and each once. */
  ghost predicate Queries(ts: seq<TargetConfig>, us: seq<TargetConfig>, places: seq<nat>, holds: string -> bool) {
    && |places| == |us|
    && (forall j, k :: 0 <= j < k < |places| ==> places[j] < places[k])
    && (forall j :: 0 <= j < |places| ==> places[j] < |ts| && us[j] == ts[places[j]])
    && (forall i: nat :: i < |ts| ==> (i in places <==> IsQueried(ts[i], holds)))
  }

  lemma QueriesSkip(ts: seq<TargetConfig>, t: TargetConfig, us: seq<TargetConfig>, places: seq<nat>,
                    holds: string -> bool)
    requires Queries(ts, us, places, holds) && !IsQueried(t, holds)
    ensures Queries(ts + [t], us, places, holds)
  {
  }

  lemma QueriesTake(ts: seq<TargetConfig>, t: TargetConfig, us: seq<TargetConfig>, places: seq<nat>,
                    holds: string -> bool)
    requires Queries(ts, us, places, holds) && IsQueried(t, holds)
    ensures Queries(ts + [t], us + [t], places + [|ts|], holds)
  {
    var more := places + [|ts|];
    forall i: nat | i < |ts| + 1
      ensures i in more <==> IsQueried((ts + [t])[i], holds)
    {
      assert i in more <==> i in places || i == |ts|;
      assert i in places ==> i < |ts|;
    }
  }

  lemma {:induction false} AllowedQueries(ts: seq<TargetConfig>, holds: string -> bool) returns (places: seq<nat>)
    ensures Queries(ts, Allowed(ts, holds), places, holds)
  {
    places := [];
    if ts != [] {
      var init, last := ts[..|ts| - 1], ts[|ts| - 1];
      places := AllowedQueries(init, holds);
      assert ts == init + [last];
      AllowedStep(init, last, holds);
      if IsQueried(last, holds) {
        QueriesTake(init, last, Allowed(init, holds), places, holds);
        places := places + [|init|];
      } else {
        QueriesSkip(init, last, Allowed(init, holds), places, holds);
        assert Allowed(init, holds) + [] == Allowed(init, holds);
      }
    }
  }

  /** What the other strategies select: exactly those targets, and no routed id. */
  lemma OthersQueryAllAllowed(l: ListenerConfig, holds: string -> bool, readable: bool)
    requires !l.strategy.ConditionalRouting? && (readable || !AnyFilter(l.targets))
    ensures Choose(l, holds, readable).Selected? && Choose(l, holds, readable).routed == None
    ensures exists places :: Queries(l.targets, Choose(l, holds, readable).targets, places, holds)
  {
    var places := AllowedQueries(l.targets, holds);
  }

  lemma {:induction false} AllowedUnique(ts: seq<TargetConfig>, holds: string -> bool)
    requires UniqueIds(ts)
    ensures UniqueIds(Allowed(ts, holds))
  {
    if ts != [] {
      var n := |ts| - 1;
      var init := Allowed(ts[..n], holds);
      AllowedUnique(ts[..n], holds);
      forall i | 0 <= i < |init|
        ensures init[i].Id() != ts[n].Id()
      {
        AllowedTargets(ts[..n], holds, init[i]);
        var j :| 0 <= j < n && ts[..n][j] == init[i];
        assert ts[j] == init[i];
      }
    }
  }

  /** Of a validated listener a selection of configured targets with distinct ids is made, unless a
      filter meets a header value that is not text. */
  lemma SelectionIsDistinct(l: ListenerConfig, holds: string -> bool, readable: bool)
    requires UniqueIds(l.targets)
    requires l.strategy.ConditionalRouting? ==> forall i :: 0 <= i < |l.targets| ==> l.targets[i].condition.Some?
    ensures Choose(l, holds, readable).Panics? <==> !readable && AnyFilter(l.targets)
    ensures Choose(l, holds, readable).Selected? ==>
              && UniqueIds(Choose(l, holds, readable).targets)
              && forall t :: t in Choose(l, holds, readable).targets ==> t in l.targets
  {
    if l.strategy.ConditionalRouting? {
      ConditionedIsPrefix(l.targets, |l.targets|);
      assert l.targets[..|l.targets|] == l.targets;
    } else {
      AllowedUnique(l.targets, holds);
      forall t | t in Allowed(l.targets, holds)
        ensures t in l.targets
      {
        AllowedTargets(l.targets, holds, t);
      }
    }
  }
}
