/** Handling one request: fan-out to the selected targets, folding of their results, and the
    choice of the response (src/handler.rs). */
module Handler {
  import opened Wrappers
  import opened Config
  import opened Context
  import opened Headers
  import opened Response
  import opened Routing

  const HOST: string := "host"

  datatype Request = Request(httpMethod: string, headers: HeaderValues, body: string)

  datatype TargetRequest = TargetRequest(httpMethod: string, url: string, headers: HeaderValues, body: string)

  /** What one request meets outside: the condition filters evaluated on it, whether a URL parses
      and which host it names, the signing of a target's request (an error or none), what the
      target answers to it, and whether a body breaks off while it is read: the client's own, or
      that of a target's answer. */
  datatype Outside = Outside(
    world: World,
    holds: string -> bool,
    isUrl: string -> bool,
    hostOf: string -> Option<string>,
    sign: (TargetConfig, TargetRequest) -> Option<string>,
    respond: (TargetConfig, TargetRequest) -> ResponseResult,
    clientBreaksOff: bool,
    targetBreaksOff: (TargetConfig, TargetRequest) -> bool)

  // ----- one target -----

  /** The context of one target's request. */
  function TargetContext(ctx: Context, t: TargetConfig, out: Outside): Context {
    var host := if out.isUrl(t.url) && out.hostOf(t.url).Some? then Lower(out.hostOf(t.url).value) else "";
    ctx.With(map["CTX_TARGET_ID" := t.Id(), "CTX_TARGET_HOST" := host])
  }

  /** A result that may be cut short by an HTTP error or a panic. */
  datatype Attempt<+T> = Done(value: T) | HttpError | Panic

  /** The request to one target. */
  function BuildRequest(t: TargetConfig, req: Request, headers: HeaderValues, ctx: Context,
                        out: Outside): Attempt<TargetRequest>
  {
    var own := TargetContext(ctx, t, out);
    var expand := Expand(own, out.world);
    var url := expand(t.url);
    var body := if t.body.Some? then expand(t.body.value) else req.body;
    if !out.isUrl(url) then HttpError
    else
      match ApplyAll(Transforms(t.headers), headers, expand)
      case None => Panic
      case Some(h) =>
        if HOST in h then Done(TargetRequest(req.httpMethod, url, h, body))
        else
          match out.hostOf(url)
          case None => Panic
          case Some(host) =>
            if ValidValue(host) then Done(TargetRequest(req.httpMethod, url, h[HOST := [host]], body)) else HttpError
  }

  /** What becomes of one target's request. */
  function ResultOf(t: TargetConfig, request: TargetRequest, out: Outside): ResponseResult {
    match out.sign(t, request)
    case Some(cause) => SigningError(cause)
    case None => out.respond(t, request)
  }

  /** The target answers, and its answer's body cannot be read to the end. */
  predicate BreaksOff(t: TargetConfig, request: TargetRequest, out: Outside) {
    out.sign(t, request).None? && out.respond(t, request).Ok? && out.targetBreaksOff(t, request)
  }

  ghost predicate AnyBreaksOff(ts: seq<TargetConfig>, requests: seq<TargetRequest>, out: Outside)
    requires |ts| == |requests|
  {
    exists i :: 0 <= i < |ts| && BreaksOff(ts[i], requests[i], out)
  }

  /** The entry of one target: its response, or what its `on_error` makes of a failure. */
  function EntryOf(t: TargetConfig, result: ResponseResult): Attempt<Option<HttpResponse>> {
    match result
    case Ok(response) => Done(Some(response))
    case _ =>
      if t.onError.Drop? then Done(None)
      else
        match ErrorResponse(result, if t.onError.Status? then t.errorStatus else None)
        case None => Panic
        case Some(response) => Done(Some(response))
  }

  // ----- all selected targets -----

  function BuildAll(ts: seq<TargetConfig>, req: Request, headers: HeaderValues, ctx: Context,
                    out: Outside): (r: Attempt<seq<TargetRequest>>)
    ensures r.Done? ==> |r.value| == |ts|
  {
    if ts == [] then Done([])
    else
      match BuildAll(ts[..|ts| - 1], req, headers, ctx, out)
      case HttpError => HttpError
      case Panic => Panic
      case Done(requests) =>
        match BuildRequest(ts[|ts| - 1], req, headers, ctx, out)
        case HttpError => HttpError
        case Panic => Panic
        case Done(request) => Done(requests + [request])
  }

  /** The responses map: each target's entry and context under its id, in target order. */
  function FoldAll(ts: seq<TargetConfig>, results: seq<ResponseResult>, ctx: Context,
                   out: Outside): Attempt<ResponsesMap>
    requires |ts| == |results|
  {
    if ts == [] then Done(map[])
    else
      var n := |ts| - 1;
      match FoldAll(ts[..n], results[..n], ctx, out)
      case HttpError => HttpError
      case Panic => Panic
      case Done(responses) =>
        match EntryOf(ts[n], results[n])
        case HttpError => HttpError
        case Panic => Panic
        case Done(entry) => Done(responses[ts[n].Id() := (entry, TargetContext(ctx, ts[n], out))])
  }

  function Results(ts: seq<TargetConfig>, requests: seq<TargetRequest>, out: Outside): seq<ResponseResult>
    requires |ts| == |requests|
  {
    seq(|ts|, i requires 0 <= i < |ts| => ResultOf(ts[i], requests[i], out))
  }

  /** A request in flight, or one that could not be signed. */
  datatype Dispatch = Spawned(target: TargetConfig, request: TargetRequest) | SigningFailed(cause: string)

  function Awaited(d: Dispatch, out: Outside): ResponseResult {
    match d
    case Spawned(t, request) => out.respond(t, request)
    case SigningFailed(cause) => SigningError(cause)
  }

  predicate Lost(d: Dispatch, out: Outside) {
    match d
    case Spawned(t, request) => out.respond(t, request).Ok? && out.targetBreaksOff(t, request)
    case SigningFailed(_) => false
  }

  /** What the vectors hold in one position belongs to that position's target. */
  ghost predicate AlignedAt(target: TargetConfig, built: TargetRequest, dispatch: Dispatch, context: Context,
                            id: string, ctx: Context, out: Outside)
  {
    && Awaited(dispatch, out) == ResultOf(target, built, out)
    && (Lost(dispatch, out) <==> BreaksOff(target, built, out))
    && context == TargetContext(ctx, target, out)
    && id == target.Id()
  }

  ghost predicate Aligned(targets: seq<TargetConfig>, built: seq<TargetRequest>, requests: seq<Dispatch>,
                          contexts: seq<Context>, ids: seq<string>, ctx: Context, out: Outside)
  {
    && |built| == |requests| == |contexts| == |ids| == |targets|
    && forall i :: 0 <= i < |targets| ==> AlignedAt(targets[i], built[i], requests[i], contexts[i], ids[i], ctx, out)
  }

  lemma AlignedGrows(targets: seq<TargetConfig>, built: seq<TargetRequest>, requests: seq<Dispatch>,
                     contexts: seq<Context>, ids: seq<string>, target: TargetConfig, request: TargetRequest,
                     dispatch: Dispatch, ctx: Context, out: Outside)
    requires Aligned(targets, built, requests, contexts, ids, ctx, out)
    requires AlignedAt(target, request, dispatch, TargetContext(ctx, target, out), target.Id(), ctx, out)
    ensures Aligned(targets + [target], built + [request], requests + [dispatch],
                    contexts + [TargetContext(ctx, target, out)],
                    ids + [target.Id()], ctx, out)
  {
  }

  /** Building the request to one target: the listener's headers are copied and the copy is
      transformed in place. */
  method BuildOne(target: TargetConfig, req: Request, listenerHeaders: HeaderValues, ctx: Context, out: Outside)
    returns (request: Attempt<TargetRequest>)
    ensures request == BuildRequest(target, req, listenerHeaders, ctx, out)
  {
    var own := TargetContext(ctx, target, out);
    var expand := Expand(own, out.world);
    var url := expand(target.url);
    if !out.isUrl(url) {
      return HttpError;
    }
    var headers := new HeaderMap(listenerHeaders);
    if target.headers.Some? {
      var completed := Transform(target.headers.value, headers, expand);
      if !completed {
        return Panic;
      }
    }
    assert Lower(HOST) == HOST;
    var named := headers.Contains(HOST);
    if !named {
      match out.hostOf(url) {
        case None => return Panic;
        case Some(host) =>
          if !ValidValue(host) {
            return HttpError;
          }
          headers.Insert(HOST, host);
      }
    }
    var built := CopyHeaders(headers.values);
    var body := if target.body.Some? then expand(target.body.value) else req.body;
    return Done(TargetRequest(req.httpMethod, url, built, body));
  }

  method DispatchOne(target: TargetConfig, request: TargetRequest, out: Outside) returns (d: Dispatch)
    ensures Awaited(d, out) == ResultOf(target, request, out)
    ensures Lost(d, out) <==> BreaksOff(target, request, out)
  {
    var signing := out.sign(target, request);
    d := if signing.None? then Spawned(target, request) else SigningFailed(signing.value);
  }

  /** The dispatch loop. The three vectors it fills stay aligned with the targets by position. */
  method DispatchAll(targets: seq<TargetConfig>, req: Request, headers: HeaderValues, ctx: Context, out: Outside)
    returns (outcome: Attempt<()>, requests: seq<Dispatch>, contexts: seq<Context>, ids: seq<string>)
    ensures match BuildAll(targets, req, headers, ctx, out)
            case HttpError => outcome == HttpError
            case Panic => outcome == Panic
            case Done(built) =>
              outcome == Done(()) && Aligned(targets, built, requests, contexts, ids, ctx, out)
  {
    requests, contexts, ids := [], [], [];
    ghost var built: seq<TargetRequest> := [];
    assert targets[..|targets|] == targets;
    for n := 0 to |targets|
      invariant BuildAll(targets[..n], req, headers, ctx, out) == Done(built)
      invariant Aligned(targets[..n], built, requests, contexts, ids, ctx, out)
    {
      var request := BuildOne(targets[n], req, headers, ctx, out);
      if !request.Done? {
        BuildStep(targets, n, req, headers, ctx, out);
        StoppedStaysStopped(targets, n + 1, req, headers, ctx, out);
        return if request.HttpError? then HttpError else Panic, requests, contexts, ids;
      }
      var dispatch := DispatchOne(targets[n], request.value, out);
      DispatchGrows(targets, n, built, requests, contexts, ids, request.value, dispatch, req, headers, ctx, out);
      requests := requests + [dispatch];
      contexts := contexts + [TargetContext(ctx, targets[n], out)];
      ids := ids + [targets[n].Id()];
      built := built + [request.value];
    }
    return Done(()), requests, contexts, ids;
  }

  lemma DispatchGrows(ts: seq<TargetConfig>, n: nat, built: seq<TargetRequest>, requests: seq<Dispatch>,
                      contexts: seq<Context>, ids: seq<string>, request: TargetRequest, dispatch: Dispatch,
                      req: Request, headers: HeaderValues, ctx: Context, out: Outside)
    requires n < |ts| && BuildAll(ts[..n], req, headers, ctx, out) == Done(built)
    requires Aligned(ts[..n], built, requests, contexts, ids, ctx, out)
    requires BuildRequest(ts[n], req, headers, ctx, out) == Done(request)
    requires AlignedAt(ts[n], request, dispatch, TargetContext(ctx, ts[n], out), ts[n].Id(), ctx, out)
    ensures BuildAll(ts[..n + 1], req, headers, ctx, out) == Done(built + [request])
    ensures Aligned(ts[..n + 1], built + [request], requests + [dispatch], contexts + [TargetContext(ctx, ts[n], out)],
                    ids + [ts[n].Id()], ctx, out)
  {
    assert ts[..n + 1] == ts[..n] + [ts[n]];
    BuildStep(ts, n, req, headers, ctx, out);
    AlignedGrows(ts[..n], built, requests, contexts, ids, ts[n], request, dispatch, ctx, out);
  }

  lemma BuildStep(ts: seq<TargetConfig>, n: nat, req: Request, headers: HeaderValues, ctx: Context, out: Outside)
    requires n < |ts| && BuildAll(ts[..n], req, headers, ctx, out).Done?
    ensures BuildAll(ts[..n + 1], req, headers, ctx, out) ==
            match BuildRequest(ts[n], req, headers, ctx, out)
            case HttpError => HttpError
            case Panic => Panic
            case Done(request) => Done(BuildAll(ts[..n], req, headers, ctx, out).value + [request])
  {
    assert ts[..n + 1][..n] == ts[..n];
  }

  lemma {:induction false} StoppedStaysStopped(ts: seq<TargetConfig>, n: nat, req: Request, headers: HeaderValues,
                                               ctx: Context, out: Outside)
    requires n <= |ts| && !BuildAll(ts[..n], req, headers, ctx, out).Done?
    ensures BuildAll(ts, req, headers, ctx, out) == BuildAll(ts[..n], req, headers, ctx, out)
  {
    if n < |ts| {
      assert ts[..|ts| - 1][..n] == ts[..n];
      StoppedStaysStopped(ts[..|ts| - 1], n, req, headers, ctx, out);
    } else {
      assert ts[..n] == ts;
    }
  }

  /** Awaiting the requests in order, while the spawned tasks complete in any order whatever: the
      task that completes next is chosen freely, and its result is kept until it is asked for.
      The results do not depend on the choices. A body that breaks off is a panic. */
  method AwaitAll(requests: seq<Dispatch>, out: Outside) returns (results: Attempt<seq<ResponseResult>>)
    ensures match results
            case Done(rs) =>
              |rs| == |requests| && forall i :: 0 <= i < |requests| ==>
                                                  rs[i] == Awaited(requests[i], out) && !Lost(requests[i], out)
            case Panic => exists i :: 0 <= i < |requests| && Lost(requests[i], out)
            case HttpError => false
  {
    var rs := [];
    var completed: map<nat, ResponseResult> := map[];
    var running: set<nat> := set i: nat | i < |requests| && requests[i].Spawned?;
    for pos := 0 to |requests|
      invariant |rs| == pos
      invariant forall i :: 0 <= i < pos ==> rs[i] == Awaited(requests[i], out) && !Lost(requests[i], out)
      invariant Tracked(requests, completed, running, out)
    {
      match requests[pos]
      case SigningFailed(cause) => rs := rs + [SigningError(cause)];
      case Spawned(target, request) =>
        while pos !in completed
          invariant Tracked(requests, completed, running, out)
          decreases running
        {
          var next :| next in running;
          completed := completed[next := out.respond(requests[next].target, requests[next].request)];
          running := running - {next};
        }
        if completed[pos].Ok? && out.targetBreaksOff(target, request) {
          assert Lost(requests[pos], out);
          return Panic;
        }
        rs := rs + [completed[pos]];
    }
    return Done(rs);
  }

  /** Every spawned task is running, or has completed with its own result. */
  ghost predicate Tracked(requests: seq<Dispatch>, completed: map<nat, ResponseResult>, running: set<nat>,
                          out: Outside)
  {
    && (forall i :: i in running ==> i < |requests| && requests[i].Spawned?)
    && (forall i :: i in completed ==> i < |requests| && completed[i] == Awaited(requests[i], out))
    && (forall i :: 0 <= i < |requests| && requests[i].Spawned? ==> i in running || i in completed)
  }

  /** What `on_error` makes of one result. */
  method EntryFor(target: TargetConfig, result: ResponseResult) returns (entry: Attempt<Option<HttpResponse>>)
    ensures entry == EntryOf(target, result) && !entry.HttpError?
  {
    if result.Ok? {
      return Done(Some(result.response));
    }
    var resp;
    match target.onError
    case Propagate =>
      resp := ErrorResponse(result, None);
      entry := if resp.Some? then Done(resp) else Panic;
    case Status =>
      resp := ErrorResponse(result, target.errorStatus);
      entry := if resp.Some? then Done(resp) else Panic;
    case Drop => entry := Done(None);
  }

  /** Folding the results into the responses map. */
  method FoldResults(targets: seq<TargetConfig>, ids: seq<string>, contexts: seq<Context>, results: seq<ResponseResult>,
                     ctx: Context, out: Outside)
    returns (r: Attempt<ResponsesMap>)
    requires |targets| == |ids| == |contexts| == |results|
    requires forall i :: 0 <= i < |targets| ==>
                           ids[i] == targets[i].Id() && contexts[i] == TargetContext(ctx, targets[i], out)
    ensures r == FoldAll(targets, results, ctx, out)
  {
    var responses: ResponsesMap := map[];
    assert targets[..|targets|] == targets && results[..|results|] == results;
    for pos := 0 to |results|
      invariant FoldAll(targets[..pos], results[..pos], ctx, out) == Done(responses)
    {
      FoldStep(targets, results, pos, ctx, out);
      var entry := EntryFor(targets[pos], results[pos]);
      if !entry.Done? {
        FoldStaysStopped(targets, results, pos + 1, ctx, out);
        return Panic;
      }
      responses := responses[ids[pos] := (entry.value, contexts[pos])];
    }
    return Done(responses);
  }

  lemma FoldStep(ts: seq<TargetConfig>, results: seq<ResponseResult>, n: nat, ctx: Context, out: Outside)
    requires n < |ts| == |results|
    requires FoldAll(ts[..n], results[..n], ctx, out).Done?
    ensures FoldAll(ts[..n + 1], results[..n + 1], ctx, out) ==
            match EntryOf(ts[n], results[n])
            case HttpError => HttpError
            case Panic => Panic
            case Done(entry) =>
              Done(FoldAll(ts[..n], results[..n], ctx, out).value[
                   ts[n].Id() := (entry, TargetContext(ctx, ts[n], out))])
  {
    assert ts[..n + 1][..n] == ts[..n] && results[..n + 1][..n] == results[..n];
  }

  lemma {:induction false} FoldStaysStopped(ts: seq<TargetConfig>, results: seq<ResponseResult>, n: nat, ctx: Context,
                                            out: Outside)
    requires |ts| == |results| && n <= |ts|
    requires FoldAll(ts[..n], results[..n], ctx, out).Panic?
    ensures FoldAll(ts, results, ctx, out).Panic?
  {
    if n < |ts| {
      var m := |ts| - 1;
      assert ts[..m][..n] == ts[..n] && results[..m][..n] == results[..n];
      FoldStaysStopped(ts[..m], results[..m], n, ctx, out);
    } else {
      assert ts[..n] == ts && results[..n] == results;
    }
  }

  // ----- what the fan-out conserves -----

  /** What a target leaves in the map: its own response as it came; nothing for a failure that it drops;
      for any other failure an empty response whose status is the configured one under `on_error: status`,
      and else says what failed. */
  predicate LeavesEntry(t: TargetConfig, result: ResponseResult, entry: Option<HttpResponse>) {
    match result
    case Ok(resp) => entry == Some(resp)
    case HyperError(connect) => LeavesFailure(t, if connect then 502 else 500, entry)
    case Timeout => LeavesFailure(t, 504, entry)
    case SigningError(_) => LeavesFailure(t, 500, entry)
  }

  predicate LeavesFailure(t: TargetConfig, status: nat, entry: Option<HttpResponse>) {
    match t.onError
    case Drop => entry == None
    case Propagate => entry == Some(HttpResponse(status, map[], ""))
    case Status =>
      entry == Some(HttpResponse(if t.errorStatus.Some? then t.errorStatus.value else status, map[], ""))
  }

  lemma EntryIsLeft(t: TargetConfig, result: ResponseResult, entry: Option<HttpResponse>)
    ensures EntryOf(t, result) == Done(entry) ==> LeavesEntry(t, result, entry)
    ensures LeavesEntry(t, result, entry) && !EntryOf(t, result).Panic? ==> EntryOf(t, result) == Done(entry)
    ensures !EntryOf(t, result).HttpError?
  {
  }

  /** The map's keys are exactly the queried ids. */
  lemma {:induction false} FoldedKeys(ts: seq<TargetConfig>, results: seq<ResponseResult>, ctx: Context, out: Outside,
                                      id: string)
    requires |ts| == |results| && FoldAll(ts, results, ctx, out).Done?
    ensures id in FoldAll(ts, results, ctx, out).value <==> exists i :: 0 <= i < |ts| && ts[i].Id() == id
  {
    if ts != [] {
      var n := |ts| - 1;
      FoldedKeys(ts[..n], results[..n], ctx, out, id);
      assert forall i :: 0 <= i < n ==> ts[..n][i] == ts[i];
    }
  }

  /** For distinct targets each id is bound to its own target's entry and context; the entry is
      empty exactly when that target failed and drops failures. */
  lemma {:induction false} FoldedEntry(ts: seq<TargetConfig>, results: seq<ResponseResult>, ctx: Context, out: Outside,
                                       i: nat)
    requires |ts| == |results| && i < |ts| && UniqueIds(ts)
    requires FoldAll(ts, results, ctx, out).Done?
    ensures var responses := FoldAll(ts, results, ctx, out).value;
            && ts[i].Id() in responses
            && EntryOf(ts[i], results[i]) == Done(responses[ts[i].Id()].0)
            && LeavesEntry(ts[i], results[i], responses[ts[i].Id()].0)
            && responses[ts[i].Id()].1 == TargetContext(ctx, ts[i], out)
            && (responses[ts[i].Id()].0.None? <==> !results[i].Ok? && ts[i].onError.Drop?)
  {
    var n := |ts| - 1;
    if i < n {
      FoldedEntry(ts[..n], results[..n], ctx, out, i);
    }
    EntryIsLeft(ts[i], results[i], FoldAll(ts, results, ctx, out).value[ts[i].Id()].0);
  }

  /** Folding panics exactly on a configured error status no response can be built from. */
  lemma {:induction false} FoldPanics(ts: seq<TargetConfig>, results: seq<ResponseResult>, ctx: Context, out: Outside)
    requires |ts| == |results|
    ensures !FoldAll(ts, results, ctx, out).HttpError?
    ensures FoldAll(ts, results, ctx, out).Panic? <==>
            exists i :: 0 <= i < |ts| && !results[i].Ok? && ImpossibleStatus(ts[i])
  {
    if ts != [] {
      var n := |ts| - 1;
      FoldPanics(ts[..n], results[..n], ctx, out);
      assert forall i :: 0 <= i < n ==> ts[..n][i] == ts[i] && results[..n][i] == results[i];
    }
  }

  predicate ImpossibleStatus(t: TargetConfig) {
    t.onError.Status? && t.errorStatus.Some? && !ValidStatus(t.errorStatus.value)
  }

  // ----- the whole request -----

  /** Header values as they arrive need not be text. */
  predicate AreText(h: HeaderValues) {
    forall name, i :: name in h && 0 <= i < |h[name]| ==> IsText(h[name][i])
  }

  /** The request's headers as the listener's list leaves them; None where it cannot be carried out. */
  function ListenerHeaders(l: ListenerConfig, req: Request, ctx: Context, out: Outside): Option<HeaderValues> {
    ApplyAll(Transforms(l.headers), req.headers - {HOST}, Expand(ctx, out.world))
  }

  function Chosen(l: ListenerConfig, req: Request, out: Outside): Selection {
    Choose(l, out.holds, AreText(req.headers))
  }

  /** How far handling gets before the strategy: to its end, or to the choice of a reply. */
  datatype Stage = Ended(outcome: Outcome) | Choosing(routed: Option<string>, responses: ResponsesMap)

  ghost function Reached(l: ListenerConfig, req: Request, ctx: Context, out: Outside): Stage {
    if !IsMethodAllowed(l, req.httpMethod) then Ended(Replied(HttpResponse(STATUS_METHOD_NOT_ALLOWED, map[], "")))
    else if out.clientBreaksOff then Ended(Panicked)
    else
      match ListenerHeaders(l, req, ctx, out)
      case None => Ended(Panicked)
      case Some(headers) =>
        match Chosen(l, req, out)
        case Panics => Ended(Panicked)
        case Ambiguous => Ended(OverriddenEmptyOrError(l.response, ctx, out))
        case Selected(targets, routed) => QueryReached(targets, routed, req, headers, ctx, out)
  }

  /** How far querying the selected targets gets. */
  ghost function QueryReached(targets: seq<TargetConfig>, routed: Option<string>, req: Request, headers: HeaderValues,
                              ctx: Context, out: Outside): Stage
  {
    match BuildAll(targets, req, headers, ctx, out)
    case HttpError => Ended(Errored)
    case Panic => Ended(Panicked)
    case Done(requests) =>
      if AnyBreaksOff(targets, requests, out) then Ended(Panicked)
      else
        match FoldAll(targets, Results(targets, requests, out), ctx, out)
        case Done(responses) => Choosing(routed, responses)
        case _ => Ended(Panicked)
  }

  /** The outcome that one order of the responses map leads to. */
  function Concluded(l: ListenerConfig, stage: Stage, ctx: Context, out: Outside, order: Order): Outcome {
    match stage
    case Ended(outcome) => outcome
    case Choosing(routed, responses) =>
      var source := Found(l.strategy, l.response, routed, responses, order(responses.Keys), out.world);
      ReplyFrom(l.response, source, responses, ctx, out.world)
  }

  /** An outcome that the strategy table allows. */
  ghost predicate Concludes(l: ListenerConfig, stage: Stage, ctx: Context, out: Outside, outcome: Outcome) {
    match stage
    case Ended(only) => outcome == only
    case Choosing(routed, responses) => Meets(l.strategy, l.response, routed, responses, ctx, out.world, outcome)
  }

  /** What handling ends in. */
  ghost function OutcomeOf(l: ListenerConfig, req: Request, ctx: Context, out: Outside, order: Order): Outcome {
    Concluded(l, Reached(l, req, ctx, out), ctx, out, order)
  }

  /** What handling may end in, stated by the strategy table. */
  ghost predicate Handled(l: ListenerConfig, req: Request, ctx: Context, out: Outside, outcome: Outcome) {
    Concludes(l, Reached(l, req, ctx, out), ctx, out, outcome)
  }

  /** The orders of the responses map lead to exactly the outcomes that the strategy table allows. */
  lemma OutcomesExactly(l: ListenerConfig, req: Request, ctx: Context, out: Outside, outcome: Outcome)
    ensures Handled(l, req, ctx, out, outcome) <==>
            exists order: Order :: OutcomeOf(l, req, ctx, out, order) == outcome
  {
    forall order: Order
      ensures Handled(l, req, ctx, out, OutcomeOf(l, req, ctx, out, order))
    {
      OutcomeIsHandled(l, req, ctx, out, order);
    }
    if Handled(l, req, ctx, out, outcome) {
      var order := OrderFor(l, Reached(l, req, ctx, out), ctx, out, outcome);
      assert OutcomeOf(l, req, ctx, out, order) == outcome;
    }
  }

  lemma OutcomeIsHandled(l: ListenerConfig, req: Request, ctx: Context, out: Outside, order: Order)
    ensures Handled(l, req, ctx, out, OutcomeOf(l, req, ctx, out, order))
  {
    match Reached(l, req, ctx, out)
    case Ended(_) =>
    case Choosing(routed, responses) =>
      assert Lists(order(responses.Keys), responses.Keys);
      FoundFits(l.strategy, l.response, routed, responses, order(responses.Keys), out.world);
  }

  lemma OrderFor(l: ListenerConfig, stage: Stage, ctx: Context, out: Outside, outcome: Outcome) returns (order: Order)
    requires Concludes(l, stage, ctx, out, outcome)
    ensures Concluded(l, stage, ctx, out, order) == outcome
  {
    order := OrderWith({}, []);
    if stage.Choosing? {
      var Choosing(routed, responses) := stage;
      var source :| && Fits(l.strategy, l.response, routed, responses, out.world, source)
                    && outcome == ReplyFrom(l.response, source, responses, ctx, out.world);
      EveryFitIsFound(l.strategy, l.response, routed, responses, out.world, source);
      var found :| && Lists(found, responses.Keys)
                   && Found(l.strategy, l.response, routed, responses, found, out.world) == source;
      order := OrderWith(responses.Keys, found);
    }
  }

  /** The no-target answer given before any target is queried; an impossible status is an HTTP
      error here. */
  function OverriddenEmptyOrError(cfg: ResponseConfig, ctx: Context, out: Outside): Outcome {
    match OverriddenEmpty(cfg, cfg.noTargetsStatus, ctx, out.world)
    case None => Errored
    case Some(outcome) => outcome
  }

  /** Handling a request, whatever order the spawned tasks complete in. */
  method Handle(l: ListenerConfig, req: Request, ctx: Context, out: Outside, order: Order) returns (outcome: Outcome)
    ensures outcome == OutcomeOf(l, req, ctx, out, order)
    ensures Handled(l, req, ctx, out, outcome)
  {
    OutcomeIsHandled(l, req, ctx, out, order);
    if !IsMethodAllowed(l, req.httpMethod) {
      return Replied(EmptyResponse(STATUS_METHOD_NOT_ALLOWED).value);
    }
    if out.clientBreaksOff {
      return Panicked;
    }
    var headers := new HeaderMap(req.headers);
    headers.Remove(HOST);
    assert Lower(HOST) == HOST;
    if l.headers.Some? {
      var completed := Transform(l.headers.value, headers, Expand(ctx, out.world));
      if !completed {
        return Panicked;
      }
    }
    var selection := SelectTargets(l, out.holds, AreText(req.headers));
    match selection
    case Panics => return Panicked;
    case Ambiguous =>
      var empty := EmptyResponse(l.response.noTargetsStatus);
      if empty.None? {
        return Errored;
      }
      outcome := OverrideResponse(l.response, empty.value, ctx, out.world);
    case Selected(targets, routed) =>
      outcome := Query(l, targets, routed, req, headers.values, ctx, out, order);
  }

  /** Querying the selected targets and choosing the reply. */
  method Query(l: ListenerConfig, targets: seq<TargetConfig>, routed: Option<string>, req: Request,
               headers: HeaderValues, ctx: Context, out: Outside, order: Order)
    returns (outcome: Outcome)
    ensures outcome == Concluded(l, QueryReached(targets, routed, req, headers, ctx, out), ctx, out, order)
  {
    var dispatched, requests, contexts, ids := DispatchAll(targets, req, headers, ctx, out);
    match dispatched {
      case HttpError => return Errored;
      case Panic => return Panicked;
      case Done(_) =>
    }
    var awaited := AwaitAll(requests, out);
    ghost var built := BuildAll(targets, req, headers, ctx, out).value;
    assert forall i :: 0 <= i < |targets| ==>
                         AlignedAt(targets[i], built[i], requests[i], contexts[i], ids[i], ctx, out);
    if awaited.Panic? {
      return Panicked;
    }
    var results := awaited.value;
    assert results == Results(targets, built, out);
    var responses := FoldResults(targets, ids, contexts, results, ctx, out);
    FoldPanics(targets, results, ctx, out);
    if !responses.Done? {
      return Panicked;
    }
    assert Lists(order(responses.value.Keys), responses.value.Keys);
    outcome := SelectResponse(l.strategy, l.response, routed, responses.value, order(responses.value.Keys),
                              ctx, out.world);
  }

  // ----- requests that no reply is chosen for -----

  /** A method that is not allowed is answered before anything else. */
  lemma MethodRejected(l: ListenerConfig, req: Request, ctx: Context, out: Outside, order: Order)
    requires !IsMethodAllowed(l, req.httpMethod)
    ensures OutcomeOf(l, req, ctx, out, order) == Replied(HttpResponse(405, map[], ""))
  {
  }

  /** Two true filters: nothing is queried, and the no-target status is reported, an impossible one as an
      HTTP error. */
  lemma ConflictReported(l: ListenerConfig, req: Request, ctx: Context, out: Outside, order: Order)
    requires IsMethodAllowed(l, req.httpMethod) && !out.clientBreaksOff && ListenerHeaders(l, req, ctx, out).Some?
    requires Chosen(l, req, out).Ambiguous?
    ensures var outcome := OutcomeOf(l, req, ctx, out, order);
            && (outcome == Errored <==> !(100 <= l.response.noTargetsStatus <= 999))
            && (outcome != Errored && l.response.overrides == None ==>
                  outcome == Replied(HttpResponse(l.response.noTargetsStatus, map[], "")))
            && (outcome.Replied? && !SetsStatus(l.response) ==> outcome.response.status == l.response.noTargetsStatus)
  {
    OverrideSets(l.response, HttpResponse(l.response.noTargetsStatus, map[], ""), ctx, out.world);
  }

  // ----- what a target is sent -----

  /** A target's context binds its id and its host, in lower case and empty if there is none, and leaves
      every other name as it was. */
  lemma TargetContextBinds(ctx: Context, t: TargetConfig, out: Outside, name: string)
    ensures var own := TargetContext(ctx, t, out);
            && own.Get("CTX_TARGET_ID") == Some(match t.id case Some(id) => id case None => "TARGET-" + t.url)
            && own.Get("CTX_TARGET_HOST") ==
               (if out.isUrl(t.url) && out.hostOf(t.url).Some? then Some(Lower(out.hostOf(t.url).value)) else Some(""))
            && (name !in {"CTX_TARGET_ID", "CTX_TARGET_HOST"} ==> own.Get(name) == ctx.Get(name))
  {
  }

  /** A request has the client's method, the target's URL with its variables expanded for the target, and
      the target's body expanded likewise, or else the client's. It cannot be made exactly if the URL does
      not parse, or has a host that is needed and cannot be a header value; the rest panics. */
  lemma RequestIs(t: TargetConfig, req: Request, headers: HeaderValues, ctx: Context, out: Outside)
    ensures var own := TargetContext(ctx, t, out);
            var request := BuildRequest(t, req, headers, ctx, out);
            request.Done? ==>
              && request.value.httpMethod == req.httpMethod
              && request.value.url == out.world.expand(t.url, own) && out.isUrl(request.value.url)
              && request.value.body == (match t.body
                                        case Some(text) => out.world.expand(text, own)
                                        case None => req.body)
    ensures var own := TargetContext(ctx, t, out);
            var url := out.world.expand(t.url, own);
            var sent := ApplyAll(Transforms(t.headers), headers, Expand(own, out.world));
            BuildRequest(t, req, headers, ctx, out).HttpError? <==>
            || !out.isUrl(url)
            || (&& sent.Some? && HOST !in sent.value
                && out.hostOf(url).Some? && !ValidValue(out.hostOf(url).value))
  {
  }

  /** The headers a target is sent. Any but the host are those of the client's request with the part
      of the listener's list that concerns them played on them, and then that of the target's list.
      The host is played from nothing, whatever the client named; if that leaves none, it is the host
      of the target's URL. */
  lemma TargetHeaders(l: ListenerConfig, t: TargetConfig, req: Request, headers: HeaderValues, ctx: Context,
                      out: Outside, request: TargetRequest, n: string)
    requires ListenerHeaders(l, req, ctx, out) == Some(headers)
    requires BuildRequest(t, req, headers, ctx, out) == Done(request)
    ensures var own := TargetContext(ctx, t, out);
            var sent := if n == HOST then None else ValuesOf(req.headers, n);
            var once := Play(Concerning(Transforms(l.headers), n), sent, Expand(ctx, out.world));
            var played := Play(Concerning(Transforms(t.headers), n), once, Expand(own, out.world));
            if n == HOST && played.None? then
              out.hostOf(request.url).Some? && ValuesOf(request.headers, n) == Some([out.hostOf(request.url).value])
            else ValuesOf(request.headers, n) == played
  {
    var own := TargetContext(ctx, t, out);
    HeadersAreIndependent(Transforms(l.headers), req.headers - {HOST}, Expand(ctx, out.world), n);
    HeadersAreIndependent(Transforms(t.headers), headers, Expand(own, out.world), n);
  }

  // ----- validated listeners -----

  /** For an accepted listener the fold conserves what was queried: one entry per selected target. */
  lemma AcceptedListenerFansOut(l: ListenerConfig, req: Request, headers: HeaderValues, ctx: Context, out: Outside)
    requires ValidateListener(l, out.isUrl) == Accepted
    requires Chosen(l, req, out).Selected?
    requires BuildAll(Chosen(l, req, out).targets, req, headers, ctx, out).Done?
    requires var targets := Chosen(l, req, out).targets;
             FoldAll(targets, Results(targets, BuildAll(targets, req, headers, ctx, out).value, out), ctx, out).Done?
    ensures var targets := Chosen(l, req, out).targets;
            var requests := BuildAll(targets, req, headers, ctx, out).value;
            var responses := FoldAll(targets, Results(targets, requests, out), ctx, out).value;
            && (forall id :: id in responses <==> exists i :: 0 <= i < |targets| && targets[i].Id() == id)
            && (forall i :: 0 <= i < |targets| ==>
                              && targets[i].Id() in responses
                              && var (entry, own) := responses[targets[i].Id()];
                              && own == TargetContext(ctx, targets[i], out)
                              && match out.sign(targets[i], requests[i])
                                 case None => LeavesEntry(targets[i], out.respond(targets[i], requests[i]), entry)
                                 case Some(cause) => LeavesEntry(targets[i], SigningError(cause), entry))
  {
    ListenerAccepted(l, out.isUrl);
    SelectionIsDistinct(l, out.holds, AreText(req.headers));
    var targets := Chosen(l, req, out).targets;
    var results := Results(targets, BuildAll(targets, req, headers, ctx, out).value, out);
    forall id {:trigger id in FoldAll(targets, results, ctx, out).value}
      ensures id in FoldAll(targets, results, ctx, out).value <==>
              exists i :: 0 <= i < |targets| && targets[i].Id() == id
    {
      FoldedKeys(targets, results, ctx, out, id);
    }
    forall i | 0 <= i < |targets|
      ensures var responses := FoldAll(targets, results, ctx, out).value;
              && targets[i].Id() in responses
              && LeavesEntry(targets[i], results[i], responses[targets[i].Id()].0)
              && responses[targets[i].Id()].1 == TargetContext(ctx, targets[i], out)
    {
      FoldedEntry(targets, results, ctx, out, i);
    }
  }

  /** A validated listener whose strategy names a kind of response first: if what some selected target
      answers is of that kind, so is the status the client gets, unless the override section sets it. */
  lemma ClientGetsFirstKind(l: ListenerConfig, req: Request, ctx: Context, out: Outside, headers: HeaderValues,
                            i: nat, resp: HttpResponse, outcome: Outcome, failed: bool)
    requires ValidateListener(l, out.isUrl) == Accepted
    requires failed ==> l.strategy in {FailedThenOk, FailedThenTargetId, FailedThenOverride}
    requires !failed ==> l.strategy in {OkThenFailed, OkThenTargetId, OkThenOverride}
    requires !SetsStatus(l.response)
    requires IsMethodAllowed(l, req.httpMethod) && ListenerHeaders(l, req, ctx, out) == Some(headers)
    requires Handled(l, req, ctx, out, outcome) && outcome.Replied?
    requires Chosen(l, req, out).Selected? && i < |Chosen(l, req, out).targets|
    requires var targets := Chosen(l, req, out).targets;
             var requests := BuildAll(targets, req, headers, ctx, out);
             && requests.Done?
             && LeavesEntry(targets[i], ResultOf(targets[i], requests.value[i], out), Some(resp))
    requires out.world.isFailed(resp.status) == failed
    ensures out.world.isFailed(outcome.response.status) == failed
  {
    ListenerAccepted(l, out.isUrl);
    SelectionIsDistinct(l, out.holds, AreText(req.headers));
    var Selected(targets, routed) := Chosen(l, req, out);
    var results := Results(targets, BuildAll(targets, req, headers, ctx, out).value, out);
    FoldPanics(targets, results, ctx, out);
    FoldedEntry(targets, results, ctx, out, i);
    var responses := FoldAll(targets, results, ctx, out).value;
    assert responses[targets[i].Id()].0 == Some(resp);
    assert HasKind(responses, targets[i].Id(), failed, out.world);
    FirstKindReachesClient(l.strategy, l.response, routed, responses, ctx, out.world, outcome, failed);
  }
}
