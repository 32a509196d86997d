/** The reply of a strategy that insists on one target, or falls back on it, and what becomes of it when
    the target's failure was dropped (src/handler.rs, src/config/response.rs). */
module DroppedTargets {
  import opened Wrappers
  import opened Config
  import opened Context
  import opened Handler
  import opened Headers
  import opened Response
  import opened Routing

  /** The responses a strategy chooses from are those of the selected targets. */
  lemma ChoosingFrom(l: ListenerConfig, req: Request, ctx: Context, out: Outside)
    requires Reached(l, req, ctx, out).Choosing?
    ensures Chosen(l, req, out).Selected? && ListenerHeaders(l, req, ctx, out).Some?
    ensures var Selected(targets, routed) := Chosen(l, req, out);
            var requests := BuildAll(targets, req, ListenerHeaders(l, req, ctx, out).value, ctx, out);
            && requests.Done?
            && var responses := FoldAll(targets, Results(targets, requests.value, out), ctx, out);
            responses.Done? && Reached(l, req, ctx, out) == Choosing(routed, responses.value)
  {
  }

  /** What became of the request to the selected target in position `i`. */
  ghost function ResultAt(l: ListenerConfig, req: Request, ctx: Context, out: Outside, i: nat): ResponseResult
    requires Reached(l, req, ctx, out).Choosing? && Chosen(l, req, out).Selected?
    requires i < |Chosen(l, req, out).targets|
  {
    ChoosingFrom(l, req, ctx, out);
    var targets := Chosen(l, req, out).targets;
    var requests := BuildAll(targets, req, ListenerHeaders(l, req, ctx, out).value, ctx, out).value;
    ResultOf(targets[i], requests[i], out)
  }

  lemma ChoosingAt(l: ListenerConfig, req: Request, ctx: Context, out: Outside, i: nat)
    requires ValidateListener(l, out.isUrl) == Accepted
    requires Reached(l, req, ctx, out).Choosing?
    requires Chosen(l, req, out).Selected? && i < |Chosen(l, req, out).targets|
    ensures var t := Chosen(l, req, out).targets[i];
            var result := ResultAt(l, req, ctx, out, i);
            var responses := Reached(l, req, ctx, out).responses;
            && t.Id() in responses
            && LeavesEntry(t, result, responses[t.Id()].0)
            && responses[t.Id()].1 == TargetContext(ctx, t, out)
            && (responses[t.Id()].0.None? <==> !result.Ok? && t.onError.Drop?)
  {
    ListenerAccepted(l, out.isUrl);
    SelectionIsDistinct(l, out.holds, AreText(req.headers));
    ChoosingFrom(l, req, ctx, out);
    var targets := Chosen(l, req, out).targets;
    var headers := ListenerHeaders(l, req, ctx, out).value;
    FoldedEntry(targets, Results(targets, BuildAll(targets, req, headers, ctx, out).value, out), ctx, out, i);
  }

  /** Where a strategy insists on one target and that target failed and drops failures, the client gets
      the no-target reply made in the target's own context. */
  lemma DroppedTargetAnswers(l: ListenerConfig, req: Request, ctx: Context, out: Outside, order: Order, i: nat)
    requires ValidateListener(l, out.isUrl) == Accepted
    requires Reached(l, req, ctx, out).Choosing?
    requires Chosen(l, req, out).Selected? && i < |Chosen(l, req, out).targets|
    requires var Choosing(routed, responses) := Reached(l, req, ctx, out);
             Insists(l, routed, responses, Chosen(l, req, out).targets[i].Id(), out.world)
    requires !ResultAt(l, req, ctx, out, i).Ok? && Chosen(l, req, out).targets[i].onError.Drop?
    ensures OutcomeOf(l, req, ctx, out, order) ==
            NoTargetReply(l.response, TargetContext(ctx, Chosen(l, req, out).targets[i], out), out.world)
  {
    var Choosing(routed, responses) := Reached(l, req, ctx, out);
    ChoosingFrom(l, req, ctx, out);
    ChoosingAt(l, req, ctx, out, i);
    InsistsOnDropped(l, routed, responses, order(responses.Keys), ctx, out.world, Chosen(l, req, out).targets[i].Id());
  }

  /** The strategy insists on the target with the id, or falls back on it because no target has a response
      of the kind the strategy prefers. */
  ghost predicate Insists(l: ListenerConfig, routed: Option<string>, responses: ResponsesMap, id: string, w: World) {
    match l.strategy
    case AlwaysTargetId => l.response.targetSelector == Some(id)
    case ConditionalRouting => routed == Some(id)
    case OkThenTargetId => l.response.targetSelector == Some(id) && !AnyOfKind(responses, false, w)
    case FailedThenTargetId => l.response.targetSelector == Some(id) && !AnyOfKind(responses, true, w)
    case _ => false
  }

  /** Then, for a selected target that was answered, or whose failure is not dropped, the client gets just
      what it left, overridden in that target's context with what its response says. */
  lemma InsistedTargetAnswers(l: ListenerConfig, req: Request, ctx: Context, out: Outside, order: Order, i: nat,
                              resp: HttpResponse)
    requires ValidateListener(l, out.isUrl) == Accepted
    requires Reached(l, req, ctx, out).Choosing?
    requires Chosen(l, req, out).Selected? && i < |Chosen(l, req, out).targets|
    requires var Choosing(routed, responses) := Reached(l, req, ctx, out);
             Insists(l, routed, responses, Chosen(l, req, out).targets[i].Id(), out.world)
    requires LeavesEntry(Chosen(l, req, out).targets[i], ResultAt(l, req, ctx, out, i), Some(resp))
    ensures var own := TargetContext(ctx, Chosen(l, req, out).targets[i], out);
            OutcomeOf(l, req, ctx, out, order) ==
            Overridden(l.response, resp, own.With(out.world.responseFrame(resp)), out.world)
  {
    var Choosing(routed, responses) := Reached(l, req, ctx, out);
    var id := Chosen(l, req, out).targets[i].Id();
    ChoosingFrom(l, req, ctx, out);
    ChoosingAt(l, req, ctx, out, i);
    assert responses[id].0 == Some(resp);
    InsistsOnAnswered(l, routed, responses, order(responses.Keys), ctx, out.world, id);
  }

  lemma InsistsOnAnswered(l: ListenerConfig, routed: Option<string>, responses: ResponsesMap, order: seq<string>,
                          ctx: Context, w: World, id: string)
    requires Lists(order, responses.Keys) && Insists(l, routed, responses, id, w)
    requires HasResponse(responses, id)
    ensures var (resp, own) := responses[id];
            ReplyFrom(l.response, Found(l.strategy, l.response, routed, responses, order, w), responses, ctx, w) ==
            Overridden(l.response, resp.value, own.With(w.responseFrame(resp.value)), w)
  {
    NoneOfKind(order, responses, false, w);
    NoneOfKind(order, responses, true, w);
  }

  /** A selector whose target was not selected is answered with the no-target reply, made in the request's
      own context. */
  lemma UnqueriedTargetAnswers(l: ListenerConfig, req: Request, ctx: Context, out: Outside, order: Order, id: string)
    requires Reached(l, req, ctx, out).Choosing?
    requires Chosen(l, req, out).Selected?
    requires var Choosing(routed, responses) := Reached(l, req, ctx, out);
             Insists(l, routed, responses, id, out.world)
    requires forall i :: 0 <= i < |Chosen(l, req, out).targets| ==> Chosen(l, req, out).targets[i].Id() != id
    ensures OutcomeOf(l, req, ctx, out, order) == NoTargetReply(l.response, ctx, out.world)
  {
    var Choosing(routed, responses) := Reached(l, req, ctx, out);
    ChoosingFrom(l, req, ctx, out);
    var targets := Chosen(l, req, out).targets;
    var requests := BuildAll(targets, req, ListenerHeaders(l, req, ctx, out).value, ctx, out).value;
    FoldedKeys(targets, Results(targets, requests, out), ctx, out, id);
    InsistsOnUnqueried(l, routed, responses, order(responses.Keys), ctx, out.world, id);
  }

  lemma InsistsOnDropped(l: ListenerConfig, routed: Option<string>, responses: ResponsesMap, order: seq<string>,
                         ctx: Context, w: World, id: string)
    requires Lists(order, responses.Keys) && Insists(l, routed, responses, id, w)
    requires id in responses && responses[id].0.None?
    ensures ReplyFrom(l.response, Found(l.strategy, l.response, routed, responses, order, w), responses, ctx, w) ==
            NoTargetReply(l.response, responses[id].1, w)
  {
    NoneOfKind(order, responses, false, w);
    NoneOfKind(order, responses, true, w);
  }

  lemma InsistsOnUnqueried(l: ListenerConfig, routed: Option<string>, responses: ResponsesMap, order: seq<string>,
                           ctx: Context, w: World, id: string)
    requires Lists(order, responses.Keys) && Insists(l, routed, responses, id, w)
    requires id !in responses
    ensures ReplyFrom(l.response, Found(l.strategy, l.response, routed, responses, order, w), responses, ctx, w) ==
            NoTargetReply(l.response, ctx, w)
  {
    NoneOfKind(order, responses, false, w);
    NoneOfKind(order, responses, true, w);
  }

  /** So a response section can name the dropped target of a routed request. */
  lemma DroppedTargetIsNamed(l: ListenerConfig, req: Request, ctx: Context, out: Outside, order: Order)
    requires ValidateListener(l, out.isUrl) == Accepted
    requires l.strategy.ConditionalRouting? && l.response == NAMING_CONFIG
    requires Reached(l, req, ctx, out).Choosing?
    requires Chosen(l, req, out).Selected? && |Chosen(l, req, out).targets| == 1
    requires !ResultAt(l, req, ctx, out, 0).Ok?
    requires var t := Chosen(l, req, out).targets[0];
             && t.onError.Drop? && ValidValue(t.Id())
             && out.world.expand("${CTX_TARGET_ID}", TargetContext(ctx, t, out)) == t.Id()
    ensures OutcomeOf(l, req, ctx, out, order) ==
            Replied(HttpResponse(500, map["x-target-id" := [Chosen(l, req, out).targets[0].Id()]], ""))
  {
    var t := Chosen(l, req, out).targets[0];
    ChoosingFrom(l, req, ctx, out);
    assert Chosen(l, req, out).routed == Some(t.Id());
    DroppedTargetAnswers(l, req, ctx, out, order, 0);
    NamingReply(TargetContext(ctx, t, out), out.world);
  }

  /** The selected target can be sent the request, and its failure is dropped. */
  ghost predicate SendsAndDrops(t: TargetConfig, ctx: Context, out: Outside) {
    var own := TargetContext(ctx, t, out);
    && t.headers.None? && t.onError.Drop?
    && out.isUrl(out.world.expand(t.url, own))
    && out.hostOf(out.world.expand(t.url, own)) == Some("localhost")
    && forall request :: out.sign(t, request).None? && !out.respond(t, request).Ok?
  }

  lemma BuildsOne(t: TargetConfig, req: Request, headers: HeaderValues, ctx: Context, out: Outside)
    requires SendsAndDrops(t, ctx, out) && HOST !in headers
    ensures BuildRequest(t, req, headers, ctx, out).Done?
  {
    assert ValidValue("localhost");
  }

  /** It is the only target selected, and the strategy has its empty entry to choose from. */
  lemma OnlyDropped(l: ListenerConfig, t: TargetConfig, req: Request, ctx: Context, out: Outside)
    requires IsMethodAllowed(l, req.httpMethod) && !out.clientBreaksOff
    requires ListenerHeaders(l, req, ctx, out).Some? && HOST !in ListenerHeaders(l, req, ctx, out).value
    requires Chosen(l, req, out).Selected? && Chosen(l, req, out).targets == [t]
    requires SendsAndDrops(t, ctx, out)
    ensures Reached(l, req, ctx, out) ==
            Choosing(Chosen(l, req, out).routed, map[t.Id() := (None, TargetContext(ctx, t, out))])
    ensures !ResultAt(l, req, ctx, out, 0).Ok?
  {
    var headers := ListenerHeaders(l, req, ctx, out).value;
    BuildsOne(t, req, headers, ctx, out);
    assert [t][..0] == [] && [t][..1] == [t];
    BuildStep([t], 0, req, headers, ctx, out);
    var requests := BuildAll([t], req, headers, ctx, out);
    assert requests.Done?;
    var results := Results([t], requests.value, out);
    assert results[..0] == [];
    assert EntryOf(t, results[0]) == Done(None);
    assert FoldAll([t], results, ctx, out) == Done(map[t.Id() := (None, TargetContext(ctx, t, out))]);
    assert !AnyBreaksOff([t], requests.value, out);
  }

  /** The request can be answered in the name of the only selected target, whose failure is dropped. */
  ghost predicate NamesDropped(l: ListenerConfig, t: TargetConfig, req: Request, ctx: Context, out: Outside) {
    && ValidateListener(l, out.isUrl) == Accepted && IsMethodAllowed(l, req.httpMethod) && !out.clientBreaksOff
    && l.strategy.ConditionalRouting? && l.response == NAMING_CONFIG
    && ListenerHeaders(l, req, ctx, out).Some? && HOST !in ListenerHeaders(l, req, ctx, out).value
    && Chosen(l, req, out) == Selected([t], Some(t.Id()))
    && SendsAndDrops(t, ctx, out) && ValidValue(t.Id())
    && out.world.expand("${CTX_TARGET_ID}", TargetContext(ctx, t, out)) == t.Id()
  }

  lemma OnlyDroppedIsNamed(l: ListenerConfig, t: TargetConfig, req: Request, ctx: Context, out: Outside, order: Order)
    requires NamesDropped(l, t, req, ctx, out)
    ensures OutcomeOf(l, req, ctx, out, order) == Replied(HttpResponse(500, map["x-target-id" := [t.Id()]], ""))
  {
    OnlyDropped(l, t, req, ctx, out);
    DroppedTargetIsNamed(l, req, ctx, out, order);
  }

  const DROPPED_ID: string := "wrong_port_with_dropped_status"
  const TIMEOUT_FILTER: string := ".request.headers[\"x-include-timeout\"] == \"yes\""
  const WRONG_PORT_FILTER: string := ".request.headers[\"x-include-wrong-port\"] == \"yes\""

  const TIMEOUT_TARGET: TargetConfig :=
    TargetConfig(Some("timeout_with_555_status"), "http://localhost:3000/2", None, Some("timeout_with_555_status"), 1,
                 Status, Some(555), Some(Filter(TIMEOUT_FILTER)), None, None)
  const WRONG_PORT_TARGET: TargetConfig :=
    TargetConfig(Some(DROPPED_ID), "http://localhost:65535/", None, Some(DROPPED_ID), 1,
                 OnError.Drop, None, Some(Filter(WRONG_PORT_FILTER)), None, None)
  const DEFAULT_TARGET: TargetConfig :=
    TargetConfig(Some("default"), "http://localhost:3000/", None, Some("default"), 60,
                 Propagate, None, Some(Default), None, None)

  /** A listener of the integration tests' configuration. */
  const CONDITIONAL_8010: ListenerConfig :=
    ListenerConfig(ConditionalRouting, Some([HeaderTransform(HeaderAction.Drop("content-length"), None)]), None,
                   [TIMEOUT_TARGET, WRONG_PORT_TARGET, DEFAULT_TARGET], NAMING_CONFIG, TlsConfig(true, None))

  lemma Conditional8010Accepted(isUrl: string -> bool)
    requires forall t :: t in CONDITIONAL_8010.targets ==> isUrl(t.url)
    ensures ValidateListener(CONDITIONAL_8010, isUrl) == Accepted
  {
    var ts := CONDITIONAL_8010.targets;
    assert |ts[0].Id()| == 23 && |ts[1].Id()| == 30 && |ts[2].Id()| == 7;
    ListenerAccepted(CONDITIONAL_8010, isUrl);
  }

  lemma Conditional8010Chosen(req: Request, out: Outside)
    requires ValidateListener(CONDITIONAL_8010, out.isUrl) == Accepted
    requires AreText(req.headers) && !out.holds(TIMEOUT_FILTER) && out.holds(WRONG_PORT_FILTER)
    ensures Chosen(CONDITIONAL_8010, req, out) == Selected([WRONG_PORT_TARGET], Some(DROPPED_ID))
  {
    var ts := CONDITIONAL_8010.targets;
    RoutingTable(CONDITIONAL_8010, out.isUrl, out.holds, true);
    assert Hit(ts, 1, out.holds);
    assert forall j :: j != 1 ==> !Hit(ts, j, out.holds);
  }

  lemma DropsOne(name: string, h: HeaderValues, expand: string -> string)
    requires name != "*"
    ensures ApplyAll([HeaderTransform(HeaderAction.Drop(name), None)], h, expand) == Some(h - {Lower(name)})
  {
    var drop := HeaderTransform(HeaderAction.Drop(name), None);
    assert [drop][1..] == [];
  }

  lemma Conditional8010Headers(req: Request, ctx: Context, out: Outside)
    ensures ListenerHeaders(CONDITIONAL_8010, req, ctx, out).Some?
    ensures HOST !in ListenerHeaders(CONDITIONAL_8010, req, ctx, out).value
  {
    DropsOne("content-length", req.headers - {HOST}, Expand(ctx, out.world));
  }

  lemma DroppedIdIsValue()
    ensures ValidValue(WRONG_PORT_TARGET.Id())
  {
  }

  lemma Conditional8010Names(req: Request, ctx: Context, out: Outside)
    requires ValidateListener(CONDITIONAL_8010, out.isUrl) == Accepted && !out.clientBreaksOff
    requires Chosen(CONDITIONAL_8010, req, out) == Selected([WRONG_PORT_TARGET], Some(DROPPED_ID))
    requires SendsAndDrops(WRONG_PORT_TARGET, ctx, out)
    requires out.world.expand("${CTX_TARGET_ID}", TargetContext(ctx, WRONG_PORT_TARGET, out)) == DROPPED_ID
    ensures NamesDropped(CONDITIONAL_8010, WRONG_PORT_TARGET, req, ctx, out)
  {
    DroppedIdIsValue();
    Conditional8010Headers(req, ctx, out);
  }

  /** A request to it that only the target on the wrong port is true for is answered with status 500 and
      that target's id. */
  lemma WrongPortIsNamed(req: Request, ctx: Context, out: Outside, order: Order)
    requires (forall t :: t in CONDITIONAL_8010.targets ==> out.isUrl(t.url)) && !out.clientBreaksOff
    requires AreText(req.headers) && !out.holds(TIMEOUT_FILTER) && out.holds(WRONG_PORT_FILTER)
    requires SendsAndDrops(WRONG_PORT_TARGET, ctx, out)
    requires out.world.expand("${CTX_TARGET_ID}", TargetContext(ctx, WRONG_PORT_TARGET, out)) == DROPPED_ID
    ensures OutcomeOf(CONDITIONAL_8010, req, ctx, out, order) ==
            Replied(HttpResponse(500, map["x-target-id" := [DROPPED_ID]], ""))
  {
    Conditional8010Accepted(out.isUrl);
    Conditional8010Chosen(req, out);
    Conditional8010Names(req, ctx, out);
    OnlyDroppedIsNamed(CONDITIONAL_8010, WRONG_PORT_TARGET, req, ctx, out, order);
  }
}
