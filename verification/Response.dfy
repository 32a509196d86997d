/** Choosing and building the response of a listener (src/config/response.rs). */
module Response {
  import opened Wrappers
  import opened Config
  import opened Context
  import opened Headers

  datatype HttpResponse = HttpResponse(status: nat, headers: HeaderValues, body: string)

  /** What became of the request to one target. */
  datatype ResponseResult =
    | Ok(response: HttpResponse)
    | HyperError(connect: bool)
    | Timeout
    | SigningError(cause: string)

  /** For each queried target its response, if one survived, and its context. */
  type ResponsesMap = map<string, (Option<HttpResponse>, Context)>

  /** How handling a request ends: with a reply, with an HTTP error, or with a panic. */
  datatype Outcome = Replied(response: HttpResponse) | Errored | Panicked

  /** What the model does not look into: the expansion of variables in a text, the regular
      expression for failed statuses, and the frame of variables a response gives. */
  datatype World = World(
    expand: (string, Context) -> string,
    isFailed: nat -> bool,
    responseFrame: HttpResponse -> ContextMap)

  const STATUS_OK: nat := 200
  const STATUS_METHOD_NOT_ALLOWED: nat := 405
  const STATUS_INTERNAL_SERVER_ERROR: nat := 500
  const STATUS_BAD_GATEWAY: nat := 502
  const STATUS_GATEWAY_TIMEOUT: nat := 504

  const CONTENT_LENGTH: string := "content-length"

  /** The codes from which a response can be built. */
  predicate ValidStatus(status: nat) {
    100 <= status <= 999
  }

  function EmptyResponse(status: nat): Option<HttpResponse> {
    if ValidStatus(status) then Some(HttpResponse(status, map[], "")) else None
  }

  /** The response to report for a target that gave none; None where the program panics. */
  function ErrorResponse(e: ResponseResult, status: Option<nat>): Option<HttpResponse> {
    match status
    case Some(code) => EmptyResponse(code)
    case None =>
      match e
      case HyperError(connect) => EmptyResponse(if connect then STATUS_BAD_GATEWAY else STATUS_INTERNAL_SERVER_ERROR)
      case Timeout => EmptyResponse(STATUS_GATEWAY_TIMEOUT)
      case SigningError(_) => EmptyResponse(STATUS_INTERNAL_SERVER_ERROR)
      case Ok(_) => None
  }

  // ----- the override section -----

  function Transforms(headers: Option<seq<HeaderTransform>>): seq<HeaderTransform> {
    if headers.Some? then headers.value else []
  }

  /** The expansion of variables in one context. */
  function Expand(ctx: Context, w: World): string -> string {
    text => w.expand(text, ctx)
  }

  /** A response after the override section: its own status and body unless they are replaced,
      its headers transformed. */
  function Overridden(cfg: ResponseConfig, resp: HttpResponse, ctx: Context, w: World): Outcome {
    match cfg.overrides
    case None => Replied(resp)
    case Some(o) =>
      match ApplyAll(Transforms(o.headers), resp.headers, Expand(ctx, w))
      case None => Panicked
      case Some(headers) =>
        if o.status.Some? && !ValidStatus(o.status.value) then Panicked
        else
          Replied(HttpResponse(if o.status.Some? then o.status.value else resp.status, headers,
                               if o.body.Some? then w.expand(o.body.value, ctx) else resp.body))
  }

  /** Copying headers into a builder, one pair at a time, in the map's order of names. */
  method CopyHeaders(headers: HeaderValues) returns (built: HeaderValues)
    ensures built == headers
  {
    built := map[];
    var names := headers.Keys;
    while names != {}
      invariant names <= headers.Keys
      invariant built == map name | name in headers && name !in names :: headers[name]
      decreases names
    {
      var name :| name in names;
      ghost var before := built;
      assert name !in before;
      for i := 0 to |headers[name]|
        invariant built == if i == 0 then before else before[name := headers[name][..i]]
      {
        assert headers[name][..i + 1] == headers[name][..i] + [headers[name][i]];
        built := built[name := (if name in built then built[name] else []) + [headers[name][i]]];
      }
      assert headers[name][..|headers[name]|] == headers[name];
      names := names - {name};
    }
  }

  /** Building the overridden response. The removal of the content length comes after the headers
      were copied, so it does not reach the response. */
  method OverrideResponse(cfg: ResponseConfig, resp: HttpResponse, ctx: Context, w: World) returns (r: Outcome)
    ensures r == Overridden(cfg, resp, ctx, w)
  {
    if cfg.overrides.None? {
      return Replied(resp);
    }
    var o := cfg.overrides.value;
    var status := if o.status.Some? then o.status.value else resp.status;
    var headers := new HeaderMap(resp.headers);
    if o.headers.Some? {
      var completed := Transform(o.headers.value, headers, Expand(ctx, w));
      if !completed {
        return Panicked;
      }
    }
    var built := CopyHeaders(headers.values);
    var body := resp.body;
    if o.body.Some? {
      headers.Remove(CONTENT_LENGTH);
      body := w.expand(o.body.value, ctx);
    }
    if o.status.Some? && !ValidStatus(status) {
      return Panicked;
    }
    return Replied(HttpResponse(status, built, body));
  }

  // ----- the answers a strategy can give -----

  /** The override of an empty response; None where it cannot be built. */
  function OverriddenEmpty(cfg: ResponseConfig, status: nat, ctx: Context, w: World): Option<Outcome> {
    match EmptyResponse(status)
    case None => None
    case Some(empty) => Some(Overridden(cfg, empty, ctx, w))
  }

  /** What a reply is made from: a target's response, the no-target response on behalf of a target
      whose failure was dropped, an empty 200, or the no-target response on nobody's behalf. */
  datatype Source = TargetResponse(id: string) | DroppedTarget(id: string) | EmptyOk | NoTarget

  predicate HasResponse(responses: ResponsesMap, id: string) {
    id in responses && responses[id].0.Some?
  }

  /** The source's target is in the map as the source says. */
  predicate Present(responses: ResponsesMap, source: Source) {
    match source
    case TargetResponse(id) => HasResponse(responses, id)
    case DroppedTarget(id) => id in responses && responses[id].0.None?
    case _ => true
  }

  /** The context a target's response is overridden in. */
  function ResponseContext(responses: ResponsesMap, id: string, w: World): Context
    requires HasResponse(responses, id)
  {
    responses[id].1.With(w.responseFrame(responses[id].0.value))
  }

  /** The override of the no-target response; an impossible status panics. */
  function NoTargetReply(cfg: ResponseConfig, ctx: Context, w: World): Outcome {
    match OverriddenEmpty(cfg, cfg.noTargetsStatus, ctx, w)
    case None => Panicked
    case Some(outcome) => outcome
  }

  /** The override of what the reply is made from. For a dropped target it is expanded in that target's
      context, so that it can name the target. */
  function ReplyFrom(cfg: ResponseConfig, source: Source, responses: ResponsesMap, ctx: Context, w: World): Outcome
    requires Present(responses, source)
  {
    match source
    case TargetResponse(id) => Overridden(cfg, responses[id].0.value, ResponseContext(responses, id, w), w)
    case DroppedTarget(id) => NoTargetReply(cfg, responses[id].1, w)
    case EmptyOk => Overridden(cfg, HttpResponse(STATUS_OK, map[], ""), ctx, w)
    case NoTarget => NoTargetReply(cfg, ctx, w)
  }

  /** One given target's response, or the no-target response on its behalf, or on nobody's if it was
      not queried. */
  function TargetOrNone(id: Option<string>, responses: ResponsesMap): (source: Source)
    ensures Present(responses, source)
  {
    if id.None? || id.value !in responses then NoTarget
    else if HasResponse(responses, id.value) then TargetResponse(id.value)
    else DroppedTarget(id.value)
  }

  /** A target whose surviving response is failed, or is not. */
  predicate HasKind(responses: ResponsesMap, id: string, failed: bool, w: World) {
    HasResponse(responses, id) && w.isFailed(responses[id].0.value.status) == failed
  }

  ghost predicate AnyOfKind(responses: ResponsesMap, failed: bool, w: World) {
    exists id :: HasKind(responses, id, failed, w)
  }

  predicate IsOfKind(source: Source, responses: ResponsesMap, failed: bool, w: World) {
    source.TargetResponse? && HasKind(responses, source.id, failed, w)
  }

  /** What the strategy table of the documentation allows the reply to be made from. */
  ghost predicate Fits(strategy: Strategy, cfg: ResponseConfig, routed: Option<string>, responses: ResponsesMap,
                       w: World, source: Source)
    ensures Fits(strategy, cfg, routed, responses, w, source) ==> Present(responses, source)
  {
    match strategy
    case AlwaysOverride => source == EmptyOk
    case AlwaysTargetId => source == TargetOrNone(cfg.targetSelector, responses)
    case ConditionalRouting => source == TargetOrNone(routed, responses)
    case OkThenOverride =>
      if AnyOfKind(responses, false, w) then IsOfKind(source, responses, false, w) else source == EmptyOk
    case FailedThenOverride =>
      if AnyOfKind(responses, true, w) then IsOfKind(source, responses, true, w) else source == EmptyOk
    case OkThenTargetId =>
      if AnyOfKind(responses, false, w) then IsOfKind(source, responses, false, w)
      else source == TargetOrNone(cfg.targetSelector, responses)
    case FailedThenTargetId =>
      if AnyOfKind(responses, true, w) then IsOfKind(source, responses, true, w)
      else source == TargetOrNone(cfg.targetSelector, responses)
    case OkThenFailed =>
      if AnyOfKind(responses, false, w) then IsOfKind(source, responses, false, w)
      else if AnyOfKind(responses, true, w) then IsOfKind(source, responses, true, w)
      else source == NoTarget
    case FailedThenOk =>
      if AnyOfKind(responses, true, w) then IsOfKind(source, responses, true, w)
      else if AnyOfKind(responses, false, w) then IsOfKind(source, responses, false, w)
      else source == NoTarget
  }

  /** The reply is the override of something the strategy table allows. */
  ghost predicate Meets(strategy: Strategy, cfg: ResponseConfig, routed: Option<string>, responses: ResponsesMap,
                        ctx: Context, w: World, reply: Outcome)
  {
    exists source ::
      && Fits(strategy, cfg, routed, responses, w, source)
      && reply == ReplyFrom(cfg, source, responses, ctx, w)
  }

  // ----- the selection code -----

  /** The order in which a hash map meets its keys: each once. */
  ghost predicate Lists(order: seq<string>, keys: set<string>) {
    && (forall i, j :: 0 <= i < j < |order| ==> order[i] != order[j])
    && forall key :: key in order <==> key in keys
  }

  /** The first target of a kind in an order of the keys. */
  function FirstOfKind(order: seq<string>, responses: ResponsesMap, failed: bool, w: World): (id: Option<string>)
    ensures id.Some? ==> HasKind(responses, id.value, failed, w)
  {
    if order == [] then None
    else if HasKind(responses, order[0], failed, w) then Some(order[0])
    else FirstOfKind(order[1..], responses, failed, w)
  }

  /** Whatever else is of the kind comes later in the order. */
  lemma {:induction false} FirstIsFirst(order: seq<string>, responses: ResponsesMap, failed: bool, w: World)
    requires FirstOfKind(order, responses, failed, w).Some?
    ensures exists i ::
              && 0 <= i < |order| && FirstOfKind(order, responses, failed, w) == Some(order[i])
              && forall j :: 0 <= j < i ==> !HasKind(responses, order[j], failed, w)
  {
    if HasKind(responses, order[0], failed, w) {
      assert FirstOfKind(order, responses, failed, w) == Some(order[0]);
    } else {
      FirstIsFirst(order[1..], responses, failed, w);
      var i :| && 0 <= i < |order[1..]| && FirstOfKind(order[1..], responses, failed, w) == Some(order[1..][i])
               && forall j :: 0 <= j < i ==> !HasKind(responses, order[1..][j], failed, w);
      assert order[i + 1] == order[1..][i];
      forall j | 0 <= j < i + 1
        ensures !HasKind(responses, order[j], failed, w)
      {
        assert j > 0 ==> order[j] == order[1..][j - 1];
      }
    }
  }

  lemma {:induction false} NoneOfKind(order: seq<string>, responses: ResponsesMap, failed: bool, w: World)
    ensures FirstOfKind(order, responses, failed, w).None? <==>
            forall key :: key in order ==> !HasKind(responses, key, failed, w)
  {
    if order != [] {
      NoneOfKind(order[1..], responses, failed, w);
      assert forall key :: key in order <==> key == order[0] || key in order[1..];
    }
  }

  /** Looking through the responses in the map's order for one of a kind. */
  method FindFirstResponse(responses: ResponsesMap, order: seq<string>, failed: bool, w: World)
    returns (id: Option<string>)
    requires Lists(order, responses.Keys)
    ensures id == FirstOfKind(order, responses, failed, w)
    ensures id.Some? ==> HasKind(responses, id.value, failed, w)
    ensures id.None? ==> !AnyOfKind(responses, failed, w)
  {
    for i := 0 to |order|
      invariant FirstOfKind(order[i..], responses, failed, w) == FirstOfKind(order, responses, failed, w)
    {
      assert order[i..][0] == order[i] && order[i..][1..] == order[i + 1..];
      assert order[i] in responses;
      var (resp, _) := responses[order[i]];
      if resp.Some? {
        if w.isFailed(resp.value.status) == failed {
          return Some(order[i]);
        }
      }
    }
    NoneOfKind(order, responses, failed, w);
    return None;
  }

  function OrElse(id: Option<string>, source: Source): Source {
    if id.Some? then TargetResponse(id.value) else source
  }

  /** What a strategy makes its reply from when the map has the given order. */
  function Found(strategy: Strategy, cfg: ResponseConfig, routed: Option<string>, responses: ResponsesMap,
                 order: seq<string>, w: World): (source: Source)
    ensures Present(responses, source)
  {
    var ok := FirstOfKind(order, responses, false, w);
    var failed := FirstOfKind(order, responses, true, w);
    match strategy
    case AlwaysOverride => EmptyOk
    case AlwaysTargetId => TargetOrNone(cfg.targetSelector, responses)
    case ConditionalRouting => TargetOrNone(routed, responses)
    case OkThenOverride => OrElse(ok, EmptyOk)
    case FailedThenOverride => OrElse(failed, EmptyOk)
    case OkThenTargetId => OrElse(ok, TargetOrNone(cfg.targetSelector, responses))
    case FailedThenTargetId => OrElse(failed, TargetOrNone(cfg.targetSelector, responses))
    case OkThenFailed => OrElse(ok, OrElse(failed, NoTarget))
    case FailedThenOk => OrElse(failed, OrElse(ok, NoTarget))
  }

  method EmptyOrPanic(cfg: ResponseConfig, status: nat, ctx: Context, w: World) returns (r: Outcome)
    ensures r == (match OverriddenEmpty(cfg, status, ctx, w) case None => Panicked case Some(outcome) => outcome)
  {
    var empty := EmptyResponse(status);
    if empty.None? {
      return Panicked;
    }
    r := OverrideResponse(cfg, empty.value, ctx, w);
  }

  /** Takes the first target's entry out and answers with its response, which must be there; if
      the first target is not given or not in the map, the second one's if it has one. */
  method SelectFromTwoTargets(cfg: ResponseConfig, first: Option<string>, second: Option<string>,
                              responses: ResponsesMap, ctx: Context, w: World)
    returns (r: Outcome, rest: ResponsesMap)
    ensures first.Some? && first.value in responses ==>
              && r == (if HasResponse(responses, first.value) then
                         ReplyFrom(cfg, TargetResponse(first.value), responses, ctx, w)
                       else Panicked)
              && rest == responses - {first.value}
    ensures !(first.Some? && first.value in responses) ==>
              && r == ReplyFrom(cfg, TargetOrNone(second, responses), responses, ctx, w)
              && rest == responses - (if second.Some? then {second.value} else {})
    decreases first.Some?
  {
    if first.Some? {
      if first.value in responses {
        var (resp, own) := responses[first.value];
        rest := responses - {first.value};
        if resp.None? {
          return Panicked, rest;
        }
        r := OverrideResponse(cfg, resp.value, own.With(w.responseFrame(resp.value)), w);
      } else {
        r, rest := SelectFromTwoTargets(cfg, None, second, responses, ctx, w);
      }
    } else {
      r, rest := SelectTargetOrError(cfg, second, responses, ctx, w);
    }
  }

  method SelectTargetOrOverride(cfg: ResponseConfig, id: Option<string>, responses: ResponsesMap, ctx: Context,
                                w: World)
    returns (r: Outcome, rest: ResponsesMap)
    ensures id.Some? && id.value in responses ==>
              && r == (if HasResponse(responses, id.value) then
                         ReplyFrom(cfg, TargetResponse(id.value), responses, ctx, w)
                       else Panicked)
              && rest == responses - {id.value}
    ensures !(id.Some? && id.value in responses) ==>
              r == ReplyFrom(cfg, EmptyOk, responses, ctx, w) && rest == responses
  {
    if id.Some? && id.value in responses {
      var (resp, own) := responses[id.value];
      rest := responses - {id.value};
      if resp.None? {
        return Panicked, rest;
      }
      r := OverrideResponse(cfg, resp.value, own.With(w.responseFrame(resp.value)), w);
    } else {
      rest := responses;
      r := EmptyOrPanic(cfg, STATUS_OK, ctx, w);
    }
  }

  method SelectTargetOrError(cfg: ResponseConfig, id: Option<string>, responses: ResponsesMap, ctx: Context, w: World)
    returns (r: Outcome, rest: ResponsesMap)
    ensures r == ReplyFrom(cfg, TargetOrNone(id, responses), responses, ctx, w)
    ensures rest == responses - (if id.Some? then {id.value} else {})
  {
    rest := responses;
    if id.Some? && id.value in responses {
      var (resp, own) := responses[id.value];
      rest := responses - {id.value};
      if resp.Some? {
        r := OverrideResponse(cfg, resp.value, own.With(w.responseFrame(resp.value)), w);
      } else {
        r := EmptyOrPanic(cfg, cfg.noTargetsStatus, own, w);
      }
    } else {
      r := EmptyOrPanic(cfg, cfg.noTargetsStatus, ctx, w);
    }
  }

  /** Strategy dispatch. The reply is the one the map's order leads to, and whatever that order, it is
      one the strategy table allows. In particular no selected entry lacks the response the code
      insists on. */
  method SelectResponse(strategy: Strategy, cfg: ResponseConfig, routed: Option<string>, responses: ResponsesMap,
                        order: seq<string>, ctx: Context, w: World)
    returns (r: Outcome)
    requires Lists(order, responses.Keys)
    ensures r == ReplyFrom(cfg, Found(strategy, cfg, routed, responses, order, w), responses, ctx, w)
    ensures Meets(strategy, cfg, routed, responses, ctx, w, r)
  {
    var okId := FindFirstResponse(responses, order, false, w);
    var failedId := FindFirstResponse(responses, order, true, w);
    var selector := cfg.targetSelector;
    var rest;
    match strategy {
      case AlwaysOverride => r := EmptyOrPanic(cfg, STATUS_OK, ctx, w);
      case OkThenOverride => r, rest := SelectTargetOrOverride(cfg, okId, responses, ctx, w);
      case FailedThenOverride => r, rest := SelectTargetOrOverride(cfg, failedId, responses, ctx, w);
      case OkThenTargetId => r, rest := SelectFromTwoTargets(cfg, okId, selector, responses, ctx, w);
      case FailedThenTargetId => r, rest := SelectFromTwoTargets(cfg, failedId, selector, responses, ctx, w);
      case OkThenFailed => r, rest := SelectFromTwoTargets(cfg, okId, failedId, responses, ctx, w);
      case FailedThenOk => r, rest := SelectFromTwoTargets(cfg, failedId, okId, responses, ctx, w);
      case AlwaysTargetId => r, rest := SelectTargetOrError(cfg, selector, responses, ctx, w);
      case ConditionalRouting => r, rest := SelectTargetOrError(cfg, routed, responses, ctx, w);
    }
    FoundFits(strategy, cfg, routed, responses, order, w);
  }

  // ----- the strategy table is met exactly -----

  lemma FoundFits(strategy: Strategy, cfg: ResponseConfig, routed: Option<string>, responses: ResponsesMap,
                  order: seq<string>, w: World)
    requires Lists(order, responses.Keys)
    ensures Fits(strategy, cfg, routed, responses, w, Found(strategy, cfg, routed, responses, order, w))
  {
    NoneOfKind(order, responses, false, w);
    NoneOfKind(order, responses, true, w);
  }

  /** Some order of a set. */
  ghost function ListOf(keys: set<string>): (order: seq<string>)
    ensures Lists(order, keys)
  {
    if keys == {} then []
    else
      var key :| key in keys;
      [key] + ListOf(keys - {key})
  }

  /** One with a given element first. */
  ghost function ListFrom(key: string, keys: set<string>): (order: seq<string>)
    requires key in keys
    ensures Lists(order, keys) && order[0] == key
  {
    [key] + ListOf(keys - {key})
  }

  ghost predicate ListsAll(f: set<string> -> seq<string>) {
    forall keys :: Lists(f(keys), keys)
  }

  /** The order in which the hash maps of one request meet their keys. */
  type Order = f: set<string> -> seq<string> | ListsAll(f) ghost witness (keys => ListOf(keys))

  /** One that meets the given keys in the given order. */
  ghost function OrderWith(keys: set<string>, list: seq<string>): (order: Order)
    requires Lists(list, keys)
    ensures order(keys) == list
  {
    var order := other => if other == keys then list else ListOf(other);
    assert forall other: set<string> :: Lists(order(other), other);
    order
  }

  /** Everything the strategy table allows is what some order of the map leads to. */
  lemma EveryFitIsFound(strategy: Strategy, cfg: ResponseConfig, routed: Option<string>, responses: ResponsesMap,
                        w: World, source: Source)
    requires Fits(strategy, cfg, routed, responses, w, source)
    ensures exists order ::
              && Lists(order, responses.Keys)
              && Found(strategy, cfg, routed, responses, order, w) == source
  {
    var order :=
      if source.TargetResponse? then ListFrom(source.id, responses.Keys) else ListOf(responses.Keys);
    assert Lists(order, responses.Keys);
    NoneOfKind(order, responses, false, w);
    NoneOfKind(order, responses, true, w);
    assert Found(strategy, cfg, routed, responses, order, w) == source;
  }

  // ----- what the client sees -----

  /** The two strategies that know only the targets' own responses answer with one of them as
      long as any target has one, and with the no-target response otherwise. */
  lemma PairedStrategies(strategy: Strategy, cfg: ResponseConfig, routed: Option<string>, responses: ResponsesMap,
                         w: World, source: Source)
    requires strategy.OkThenFailed? || strategy.FailedThenOk?
    requires Fits(strategy, cfg, routed, responses, w, source)
    ensures source.TargetResponse? <==> exists id :: HasResponse(responses, id)
    ensures source.NoTarget? <==> !exists id :: HasResponse(responses, id)
  {
    if id :| HasResponse(responses, id) {
      assert HasKind(responses, id, w.isFailed(responses[id].0.value.status), w);
    }
  }

  predicate SetsStatus(cfg: ResponseConfig) {
    cfg.overrides.Some? && cfg.overrides.value.status.Some?
  }

  /** A strategy that names a kind of response first gives the client a status of that kind whenever
      some target has one, unless the override section sets the status. */
  lemma FirstKindReachesClient(strategy: Strategy, cfg: ResponseConfig, routed: Option<string>, responses: ResponsesMap,
                               ctx: Context, w: World, reply: Outcome, failed: bool)
    requires Meets(strategy, cfg, routed, responses, ctx, w, reply) && reply.Replied? && !SetsStatus(cfg)
    requires failed ==> strategy in {FailedThenOk, FailedThenTargetId, FailedThenOverride}
    requires !failed ==> strategy in {OkThenFailed, OkThenTargetId, OkThenOverride}
    requires AnyOfKind(responses, failed, w)
    ensures w.isFailed(reply.response.status) == failed
  {
  }

  const NAMING: HeaderTransform := HeaderTransform(Add("x-target-id"), Some("${CTX_TARGET_ID}"))

  /** A response section that puts the target's id into a header. */
  const NAMING_CONFIG: ResponseConfig := ResponseConfig(None, 500, Some(OverrideConfig(None, None, Some([NAMING]))))

  /** Its no-target reply carries what the id's variable is expanded to in the reply's context. */
  lemma NamingReply(ctx: Context, w: World)
    requires ValidValue(w.expand("${CTX_TARGET_ID}", ctx))
    ensures NoTargetReply(NAMING_CONFIG, ctx, w) ==
            Replied(HttpResponse(500, map["x-target-id" := [w.expand("${CTX_TARGET_ID}", ctx)]], ""))
  {
    var none: HeaderValues := map[];
    assert Lower("x-target-id") == "x-target-id" && ValidName("x-target-id");
    assert ApplyOne(NAMING, none, Expand(ctx, w)) == SetHeader(none, "x-target-id", NAMING.value, Expand(ctx, w));
    assert [NAMING][1..] == [];
    assert ApplyAll([NAMING], none, Expand(ctx, w)) == ApplyOne(NAMING, none, Expand(ctx, w));
  }

  /** Without an override section a response goes out as it is; with one, with the status and the body it
      sets, and the response's own where it sets none. */
  lemma OverrideSets(cfg: ResponseConfig, resp: HttpResponse, ctx: Context, w: World)
    ensures cfg.overrides == None ==> Overridden(cfg, resp, ctx, w) == Replied(resp)
    ensures cfg.overrides.Some? && Overridden(cfg, resp, ctx, w).Replied? ==>
              var OverrideConfig(status, body, _) := cfg.overrides.value;
              var reply := Overridden(cfg, resp, ctx, w).response;
              && reply.status == (match status case Some(code) => code case None => resp.status)
              && reply.body == (match body case Some(text) => w.expand(text, ctx) case None => resp.body)
    ensures !Overridden(cfg, resp, ctx, w).Errored?
  {
  }

  /** The status and the body each kind of reply starts from, to which the override section is applied. */
  lemma RepliesStartFrom(cfg: ResponseConfig, source: Source, responses: ResponsesMap, ctx: Context, w: World)
    requires Present(responses, source) && ReplyFrom(cfg, source, responses, ctx, w).Replied?
    ensures var reply := ReplyFrom(cfg, source, responses, ctx, w).response;
            && (!SetsStatus(cfg) ==>
                  reply.status == match source
                                  case TargetResponse(id) => responses[id].0.value.status
                                  case DroppedTarget(_) | NoTarget => cfg.noTargetsStatus
                                  case EmptyOk => 200)
            && ((cfg.overrides.None? || cfg.overrides.value.body.None?) ==>
                  reply.body == match source
                                case TargetResponse(id) => responses[id].0.value.body
                                case _ => "")
  {
  }

  /** The values a header has after the override: its own transformations played on what it was. */
  lemma OverriddenHeader(cfg: ResponseConfig, resp: HttpResponse, ctx: Context, w: World, n: string)
    requires cfg.overrides.Some? && Overridden(cfg, resp, ctx, w).Replied?
    ensures ValuesOf(Overridden(cfg, resp, ctx, w).response.headers, n) ==
            Play(Concerning(Transforms(cfg.overrides.value.headers), n), ValuesOf(resp.headers, n), Expand(ctx, w))
  {
    HeadersAreIndependent(Transforms(cfg.overrides.value.headers), resp.headers, Expand(ctx, w), n);
  }

  /** A reply whose body was replaced still has a content length exactly if the transformations leave
      it one: without any about it, exactly if the response had one, and then of the old body. */
  lemma ContentLengthStays(cfg: ResponseConfig, resp: HttpResponse, ctx: Context, w: World)
    requires cfg.overrides.Some? && cfg.overrides.value.body.Some? && Overridden(cfg, resp, ctx, w).Replied?
    ensures var concerning := Concerning(Transforms(cfg.overrides.value.headers), CONTENT_LENGTH);
            var after := Overridden(cfg, resp, ctx, w).response.headers;
            && (CONTENT_LENGTH in after <==>
                Play(concerning, ValuesOf(resp.headers, CONTENT_LENGTH), Expand(ctx, w)).Some?)
            && (concerning == [] ==> ValuesOf(after, CONTENT_LENGTH) == ValuesOf(resp.headers, CONTENT_LENGTH))
  {
    OverriddenHeader(cfg, resp, ctx, w, CONTENT_LENGTH);
  }

  /** A body of three characters replaced by the empty one: the client is told to expect three. */
  lemma ContentLengthMisleads(ctx: Context, w: World)
    requires w.expand("", ctx) == ""
    ensures var cfg := ResponseConfig(None, 500, Some(OverrideConfig(None, Some(""), None)));
            Overridden(cfg, HttpResponse(STATUS_OK, map[CONTENT_LENGTH := ["3"]], "abc"), ctx, w)
            == Replied(HttpResponse(STATUS_OK, map[CONTENT_LENGTH := ["3"]], ""))
  {
  }
}
