/** The application's configuration and its validators (src/config.rs, src/config/listener.rs,
    src/config/target.rs, src/config/aws_sigv4.rs). */
module Config {
  import opened Wrappers
  import opened Headers
  import Text

  datatype OnError = Propagate | Status | Drop

  /** `default`, or a filter expression; evaluating one is outside the model. */
  datatype Condition = Default | Filter(expression: string)

  datatype TlsConfig = TlsConfig(verify: bool, ca: Option<string>)

  datatype AwsSigV4Config = AwsSigV4Config(service: string, region: Option<string>, roleArn: Option<string>)

  datatype TargetConfig = TargetConfig(
    id: Option<string>, url: string, headers: Option<seq<HeaderTransform>>, body: Option<string>, timeout: nat,
    onError: OnError, errorStatus: Option<nat>, condition: Option<Condition>, tls: Option<TlsConfig>,
    awsSigv4: Option<AwsSigV4Config>)
  {
    function Id(): string {
      if id.Some? then id.value else "TARGET-" + url
    }
  }

  datatype OverrideConfig =
    OverrideConfig(status: Option<nat>, body: Option<string>, headers: Option<seq<HeaderTransform>>)

  datatype ResponseConfig =
    ResponseConfig(targetSelector: Option<string>, noTargetsStatus: nat, overrides: Option<OverrideConfig>)

  datatype Strategy =
    | AlwaysOverride
    | AlwaysTargetId
    | OkThenFailed
    | OkThenTargetId
    | OkThenOverride
    | FailedThenOk
    | FailedThenTargetId
    | FailedThenOverride
    | ConditionalRouting

  datatype HttpMethod = Get | Post | Put | Patch | Delete | Options | Head

  datatype ListenerConfig = ListenerConfig(
    strategy: Strategy, headers: Option<seq<HeaderTransform>>, methods: Option<set<HttpMethod>>,
    targets: seq<TargetConfig>, response: ResponseConfig, tls: TlsConfig)

  datatype AppConfig = AppConfig(listeners: seq<ListenerConfig>)

  datatype ConfigError =
    | InvalidUrl(url: string)
    | UnexpectedErrorStatus(id: string)
    | MissingErrorStatus(id: string)
    | EmptyService
    | InvalidRoleArn(arn: string)
    | NoTargets
    | DuplicateIds
    | MissingCondition
    | ManyDefaults
    | UnknownSelector(id: string)
    | MissingSelector
    | NoListeners

  datatype Verdict = Accepted | Rejected(error: ConfigError)
  {
    function AndThen(next: Verdict): Verdict {
      if Accepted? then next else this
    }
  }

  function MethodFromName(name: string): Option<HttpMethod> {
    match Lower(name)
    case "get" => Some(Get)
    case "post" => Some(Post)
    case "put" => Some(Put)
    case "patch" => Some(Patch)
    case "delete" => Some(Delete)
    case "options" => Some(Options)
    case "head" => Some(Head)
    case _ => None
  }

  predicate IsMethodAllowed(l: ListenerConfig, name: string) {
    match l.methods
    case None => true
    case Some(methods) => MethodFromName(name).Some? && MethodFromName(name).value in methods
  }

  predicate Contains(s: string, part: string) {
    part <= s || (s != "" && Contains(s[1..], part))
  }

  function ValidateAws(c: AwsSigV4Config): Verdict {
    if Text.Trim(c.service) == "" then Rejected(EmptyService)
    else if c.roleArn.Some? && (!("arn:" <= c.roleArn.value) || !Contains(c.roleArn.value, ":role/")) then
      Rejected(InvalidRoleArn(c.roleArn.value))
    else Accepted
  }

  function ValidateTarget(t: TargetConfig, isUrl: string -> bool): Verdict {
    if !isUrl(t.url) then Rejected(InvalidUrl(t.url))
    else if !t.onError.Status? && t.errorStatus.Some? then Rejected(UnexpectedErrorStatus(t.Id()))
    else if t.onError.Status? && t.errorStatus.None? then Rejected(MissingErrorStatus(t.Id()))
    else if t.awsSigv4.Some? then ValidateAws(t.awsSigv4.value)
    else Accepted
  }

  function ValidateEach(ts: seq<TargetConfig>, isUrl: string -> bool): Verdict {
    if ts == [] then Accepted else ValidateTarget(ts[0], isUrl).AndThen(ValidateEach(ts[1..], isUrl))
  }

  function Ids(ts: seq<TargetConfig>): seq<string> {
    seq(|ts|, i requires 0 <= i < |ts| => ts[i].Id())
  }

  function ToSet<T(==)>(s: seq<T>): set<T> {
    set x | x in s
  }

  function ValidateTargets(ts: seq<TargetConfig>, isUrl: string -> bool): Verdict {
    if ts == [] then Rejected(NoTargets)
    else
      ValidateEach(ts, isUrl).AndThen(
        if |ToSet(Ids(ts))| != |ts| then Rejected(DuplicateIds) else Accepted)
  }

  predicate IsDefault(t: TargetConfig) {
    t.condition == Some(Default)
  }

  function Defaults(ts: seq<TargetConfig>): seq<TargetConfig> {
    if ts == [] then [] else (if IsDefault(ts[0]) then [ts[0]] else []) + Defaults(ts[1..])
  }

  function ValidateStrategy(l: ListenerConfig): Verdict {
    match l.strategy
    case ConditionalRouting =>
      if exists t :: t in l.targets && t.condition.None? then Rejected(MissingCondition)
      else if |Defaults(l.targets)| > 1 then Rejected(ManyDefaults)
      else Accepted
    case AlwaysTargetId | FailedThenTargetId | OkThenTargetId =>
      (match l.response.targetSelector
       case None => Rejected(MissingSelector)
       case Some(id) => if id in Ids(l.targets) then Accepted else Rejected(UnknownSelector(id)))
    case _ => Accepted
  }

  /** A listener's response section has nothing to validate. */
  function ValidateListener(l: ListenerConfig, isUrl: string -> bool): Verdict {
    ValidateTargets(l.targets, isUrl).AndThen(ValidateStrategy(l))
  }

  function ValidateListeners(ls: seq<ListenerConfig>, isUrl: string -> bool): Verdict {
    if ls == [] then Accepted else ValidateListener(ls[0], isUrl).AndThen(ValidateListeners(ls[1..], isUrl))
  }

  function ValidateApp(c: AppConfig, isUrl: string -> bool): Verdict {
    if c.listeners == [] then Rejected(NoListeners) else ValidateListeners(c.listeners, isUrl)
  }

  // ----- what an accepted configuration guarantees -----

  ghost predicate UniqueIds(ts: seq<TargetConfig>) {
    forall i, j :: 0 <= i < j < |ts| ==> ts[i].Id() != ts[j].Id()
  }

  ghost predicate AtMostOneDefault(ts: seq<TargetConfig>) {
    forall i, j :: 0 <= i < j < |ts| ==> !(IsDefault(ts[i]) && IsDefault(ts[j]))
  }

  ghost predicate TargetOk(t: TargetConfig, isUrl: string -> bool) {
    && isUrl(t.url)
    && (t.errorStatus.Some? <==> t.onError == Status)
    && (t.awsSigv4.Some? ==> AwsOk(t.awsSigv4.value))
  }

  /** A service with something in its name, and a role that looks like one. */
  ghost predicate AwsOk(c: AwsSigV4Config) {
    && !Text.Blank(c.service)
    && match c.roleArn
       case None => true
       case Some(arn) => "arn:" <= arn && exists i :: OccursAt(arn, ":role/", i)
  }

  ghost predicate OccursAt(s: string, part: string, i: nat) {
    i + |part| <= |s| && s[i..i + |part|] == part
  }

  lemma SliceOfTail(s: string, i: nat, n: nat)
    requires i + 1 + n <= |s|
    ensures s[i + 1..i + 1 + n] == s[1..][i..i + n]
  {
    var a, b := s[i + 1..i + 1 + n], s[1..][i..i + n];
    forall j | 0 <= j < n
      ensures a[j] == b[j]
    {
      assert a[j] == s[i + 1 + j] && b[j] == s[1..][i + j];
    }
  }

  lemma {:induction false} ContainsExactly(s: string, part: string)
    ensures Contains(s, part) <==> exists i :: OccursAt(s, part, i)
  {
    if part <= s {
      assert OccursAt(s, part, 0);
    } else if s != "" {
      ContainsExactly(s[1..], part);
      forall i: nat
        ensures OccursAt(s, part, i + 1) <==> OccursAt(s[1..], part, i)
      {
        if i + 1 + |part| <= |s| {
          SliceOfTail(s, i, |part|);
        }
      }
      assert !OccursAt(s, part, 0);
      if i: nat :| OccursAt(s, part, i) {
        assert OccursAt(s[1..], part, i - 1);
      }
      if i: nat :| OccursAt(s[1..], part, i) {
        assert OccursAt(s, part, i + 1);
      }
    }
  }

  lemma AwsAccepted(c: AwsSigV4Config)
    ensures ValidateAws(c) == Accepted <==> AwsOk(c)
  {
    Text.TrimsToNothing(c.service);
    if c.roleArn.Some? {
      ContainsExactly(c.roleArn.value, ":role/");
    }
  }

  /** The name a method is configured by, in lower case. */
  function MethodName(m: HttpMethod): string {
    match m
    case Get => "get"
    case Post => "post"
    case Put => "put"
    case Patch => "patch"
    case Delete => "delete"
    case Options => "options"
    case Head => "head"
  }

  /** Without a list every method is allowed; with one, those it names, in whatever case. */
  lemma MethodAllowedExactly(l: ListenerConfig, name: string)
    ensures IsMethodAllowed(l, name) <==>
            match l.methods
            case None => true
            case Some(methods) => exists m :: m in methods && Lower(name) == MethodName(m)
  {
    forall m: HttpMethod
      ensures MethodFromName(name) == Some(m) <==> Lower(name) == MethodName(m)
    {
    }
  }

  ghost predicate StrategyOk(l: ListenerConfig) {
    && (l.strategy == ConditionalRouting ==>
          && (forall i :: 0 <= i < |l.targets| ==> l.targets[i].condition.Some?)
          && AtMostOneDefault(l.targets))
    && (l.strategy in {AlwaysTargetId, FailedThenTargetId, OkThenTargetId} ==>
          exists i :: 0 <= i < |l.targets| && l.response.targetSelector == Some(l.targets[i].Id()))
  }

  ghost predicate ListenerOk(l: ListenerConfig, isUrl: string -> bool) {
    && l.targets != []
    && (forall i :: 0 <= i < |l.targets| ==> TargetOk(l.targets[i], isUrl))
    && UniqueIds(l.targets)
    && StrategyOk(l)
  }

  lemma {:induction false} SetOfNoLargerThanSeq<T>(s: seq<T>)
    ensures |ToSet(s)| <= |s|
    ensures |ToSet(s)| == |s| <==> forall i, j :: 0 <= i < j < |s| ==> s[i] != s[j]
  {
    if s != [] {
      var init, last := s[..|s| - 1], s[|s| - 1];
      SetOfNoLargerThanSeq(init);
      assert ToSet(s) == ToSet(init) + {last};
      if last in init {
        assert ToSet(s) == ToSet(init);
        var i :| 0 <= i < |init| && init[i] == last;
        assert s[i] == s[|s| - 1];
      } else {
        assert |ToSet(s)| == |ToSet(init)| + 1;
        if forall i, j :: 0 <= i < j < |init| ==> init[i] != init[j] {
          forall i, j | 0 <= i < j < |s|
            ensures s[i] != s[j]
          {
            assert s[i] == init[i] && (j < |init| ==> s[j] == init[j]);
          }
        } else {
          var i, j :| 0 <= i < j < |init| && init[i] == init[j];
          assert s[i] == s[j];
        }
      }
    }
  }

  lemma {:induction false} EachAccepted(ts: seq<TargetConfig>, isUrl: string -> bool)
    ensures ValidateEach(ts, isUrl) == Accepted <==> forall i :: 0 <= i < |ts| ==> TargetOk(ts[i], isUrl)
  {
    if ts != [] {
      EachAccepted(ts[1..], isUrl);
      OneAccepted(ts[0], isUrl);
      assert forall i :: 0 < i < |ts| ==> ts[i] == ts[1..][i - 1];
      assert forall i :: 0 <= i < |ts| - 1 ==> ts[1..][i] == ts[i + 1];
    }
  }

  lemma {:induction false} DefaultsFound(ts: seq<TargetConfig>)
    ensures Defaults(ts) == [] <==> forall i :: 0 <= i < |ts| ==> !IsDefault(ts[i])
    ensures |Defaults(ts)| <= 1 <==> AtMostOneDefault(ts)
  {
    if ts != [] {
      var rest := ts[1..];
      DefaultsFound(rest);
      assert forall i :: 0 < i < |ts| ==> ts[i] == rest[i - 1];
      assert forall i :: 0 <= i < |rest| ==> rest[i] == ts[i + 1];
      if IsDefault(ts[0]) {
        if Defaults(rest) != [] {
          var i :| 0 <= i < |rest| && IsDefault(rest[i]);
          assert IsDefault(ts[0]) && IsDefault(ts[i + 1]);
        }
      } else {
        assert [] + Defaults(rest) == Defaults(rest);
        if !AtMostOneDefault(rest) {
          var i, j :| 0 <= i < j < |rest| && IsDefault(rest[i]) && IsDefault(rest[j]);
          assert IsDefault(ts[i + 1]) && IsDefault(ts[j + 1]);
        }
      }
    }
  }

  lemma TargetsAccepted(ts: seq<TargetConfig>, isUrl: string -> bool)
    ensures ValidateTargets(ts, isUrl) == Accepted
       <==> ts != [] && (forall i :: 0 <= i < |ts| ==> TargetOk(ts[i], isUrl)) && UniqueIds(ts)
  {
    EachAccepted(ts, isUrl);
    SetOfNoLargerThanSeq(Ids(ts));
    if forall i, j :: 0 <= i < j < |ts| ==> Ids(ts)[i] != Ids(ts)[j] {
      forall i, j | 0 <= i < j < |ts|
        ensures ts[i].Id() != ts[j].Id()
      {
        assert Ids(ts)[i] != Ids(ts)[j];
      }
    }
  }

  lemma StrategyAccepted(l: ListenerConfig)
    ensures ValidateStrategy(l) == Accepted <==> StrategyOk(l)
  {
    if l.strategy == ConditionalRouting {
      DefaultsFound(l.targets);
      assert forall i :: 0 <= i < |l.targets| ==> l.targets[i] in l.targets;
    } else {
      assert forall i :: 0 <= i < |l.targets| ==> Ids(l.targets)[i] == l.targets[i].Id();
    }
  }

  /** The validators accept exactly the listeners that meet the documented requirements. */
  lemma ListenerAccepted(l: ListenerConfig, isUrl: string -> bool)
    ensures ValidateListener(l, isUrl) == Accepted <==> ListenerOk(l, isUrl)
  {
    TargetsAccepted(l.targets, isUrl);
    StrategyAccepted(l);
  }

  lemma {:induction false} ListenersAccepted(ls: seq<ListenerConfig>, isUrl: string -> bool)
    ensures ValidateListeners(ls, isUrl) == Accepted <==> forall i :: 0 <= i < |ls| ==> ListenerOk(ls[i], isUrl)
  {
    if ls != [] {
      ListenersAccepted(ls[1..], isUrl);
      ListenerAccepted(ls[0], isUrl);
      assert forall i :: 0 < i < |ls| ==> ls[i] == ls[1..][i - 1];
      assert forall i :: 0 <= i < |ls| - 1 ==> ls[1..][i] == ls[i + 1];
    }
  }

  /** So for the whole configuration. */
  lemma ConfigAccepted(c: AppConfig, isUrl: string -> bool)
    ensures ValidateApp(c, isUrl) == Accepted <==>
            c.listeners != [] && forall i :: 0 <= i < |c.listeners| ==> ListenerOk(c.listeners[i], isUrl)
  {
    ListenersAccepted(c.listeners, isUrl);
  }

  // ----- what a rejected one is told -----

  /** The first target that is not in order is reported, with its own error. */
  ghost predicate FirstRejected(ts: seq<TargetConfig>, i: nat, isUrl: string -> bool, e: ConfigError) {
    && i < |ts| && ValidateTarget(ts[i], isUrl) == Rejected(e)
    && forall j :: 0 <= j < i ==> TargetOk(ts[j], isUrl)
  }

  lemma OneAccepted(t: TargetConfig, isUrl: string -> bool)
    ensures ValidateTarget(t, isUrl) == Accepted <==> TargetOk(t, isUrl)
  {
    if t.awsSigv4.Some? {
      AwsAccepted(t.awsSigv4.value);
    }
  }

  lemma FirstRejectedLater(ts: seq<TargetConfig>, i: nat, isUrl: string -> bool, e: ConfigError)
    requires ts != [] && TargetOk(ts[0], isUrl)
    ensures FirstRejected(ts, i + 1, isUrl, e) <==> FirstRejected(ts[1..], i, isUrl, e)
  {
    assert forall j :: 0 <= j < |ts| - 1 ==> ts[1..][j] == ts[j + 1];
    assert forall j :: 0 < j < |ts| ==> ts[j] == ts[1..][j - 1];
  }

  lemma {:induction false} EachRejected(ts: seq<TargetConfig>, isUrl: string -> bool, e: ConfigError)
    ensures ValidateEach(ts, isUrl) == Rejected(e) <==> exists i :: FirstRejected(ts, i, isUrl, e)
  {
    if ts != [] {
      EachRejected(ts[1..], isUrl, e);
      OneAccepted(ts[0], isUrl);
      if TargetOk(ts[0], isUrl) {
        forall i: nat
          ensures FirstRejected(ts, i + 1, isUrl, e) <==> FirstRejected(ts[1..], i, isUrl, e)
        {
          FirstRejectedLater(ts, i, isUrl, e);
        }
        if i: nat :| FirstRejected(ts, i, isUrl, e) {
          assert FirstRejected(ts[1..], i - 1, isUrl, e);
        }
        if i: nat :| FirstRejected(ts[1..], i, isUrl, e) {
          assert FirstRejected(ts, i + 1, isUrl, e);
        }
      } else if ValidateTarget(ts[0], isUrl) == Rejected(e) {
        assert FirstRejected(ts, 0, isUrl, e);
      }
    }
  }

  /** A list of targets is rejected as empty, for its first target that is not in order, or, when all
      are, for an id used twice. */
  lemma TargetsRejected(ts: seq<TargetConfig>, isUrl: string -> bool, e: ConfigError)
    ensures ValidateTargets(ts, isUrl) == Rejected(e) <==>
            || (ts == [] && e == NoTargets)
            || (exists i :: FirstRejected(ts, i, isUrl, e))
            || (&& ts != [] && (forall i :: 0 <= i < |ts| ==> TargetOk(ts[i], isUrl))
                && !UniqueIds(ts) && e == DuplicateIds)
  {
    EachRejected(ts, isUrl, e);
    EachAccepted(ts, isUrl);
    TargetsAccepted(ts, isUrl);
  }

  /** A strategy is rejected for the first of its demands that is not met. */
  lemma StrategyRejected(l: ListenerConfig, e: ConfigError)
    ensures ValidateStrategy(l) == Rejected(e) <==>
            match l.strategy
            case ConditionalRouting =>
              if exists i :: 0 <= i < |l.targets| && l.targets[i].condition.None? then e == MissingCondition
              else !AtMostOneDefault(l.targets) && e == ManyDefaults
            case AlwaysTargetId | OkThenTargetId | FailedThenTargetId =>
              (match l.response.targetSelector
               case None => e == MissingSelector
               case Some(id) =>
                 && (forall i :: 0 <= i < |l.targets| ==> l.targets[i].Id() != id)
                 && e == UnknownSelector(id))
            case _ => false
  {
    if l.strategy == ConditionalRouting {
      DefaultsFound(l.targets);
      assert forall i :: 0 <= i < |l.targets| ==> l.targets[i] in l.targets;
    } else {
      assert forall i :: 0 <= i < |l.targets| ==> Ids(l.targets)[i] == l.targets[i].Id();
    }
  }
}
