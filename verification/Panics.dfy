/** When handling a request panics: the exact causes for a validated listener, and conditions on the
    configuration and the request that exclude them all (src/handler.rs, src/config/response.rs). */
module Panics {
  import opened Wrappers
  import opened Config
  import opened Context
  import opened DroppedTargets
  import opened Handler
  import opened Headers
  import opened Response
  import opened Routing

  /** What a panic comes from. Targets are named by their position among the selected ones. */
  datatype Cause =
    | ClientBody
    | ListenerList
    | UnreadableHeader
    | UndecidedOverride
    | UnbuildableRequest(n: nat)
    | TargetBody(n: nat)
    | ErrorStatus(n: nat)
    | ReplyOverride(source: Source)

  /** The override section cannot be applied: an impossible status, or a list that cannot be carried
      out on the response's headers in the context it is given. */
  predicate OverrideFails(cfg: ResponseConfig, resp: HttpResponse, ctx: Context, w: World) {
    cfg.overrides.Some?
    && var o := cfg.overrides.value;
    || (o.status.Some? && !ValidStatus(o.status.value))
    || ApplyAll(Transforms(o.headers), resp.headers, Expand(ctx, w)).None?
  }

  /** The target's URL parses, and its list cannot be carried out, or leaves no host where the URL has
      none either. */
  predicate RequestFails(t: TargetConfig, headers: HeaderValues, ctx: Context, out: Outside) {
    var expand := Expand(TargetContext(ctx, t, out), out.world);
    var url := expand(t.url);
    && out.isUrl(url)
    && match ApplyAll(Transforms(t.headers), headers, expand)
       case None => true
       case Some(h) => HOST !in h && out.hostOf(url).None?
  }

  /** The no-target response cannot be built, or cannot be overridden in the context. */
  predicate NoTargetFails(cfg: ResponseConfig, ctx: Context, w: World) {
    || !ValidStatus(cfg.noTargetsStatus)
    || OverrideFails(cfg, HttpResponse(cfg.noTargetsStatus, map[], ""), ctx, w)
  }

  predicate SourceFails(cfg: ResponseConfig, source: Source, responses: ResponsesMap, ctx: Context, w: World)
    requires Present(responses, source)
  {
    match source
    case TargetResponse(id) => OverrideFails(cfg, responses[id].0.value, ResponseContext(responses, id, w), w)
    case DroppedTarget(id) => NoTargetFails(cfg, responses[id].1, w)
    case EmptyOk => OverrideFails(cfg, HttpResponse(STATUS_OK, map[], ""), ctx, w)
    case NoTarget => NoTargetFails(cfg, ctx, w)
  }

  /** The cause is present and is one that handling gets to, whatever else panics before it. */
  ghost predicate Causes(l: ListenerConfig, req: Request, ctx: Context, out: Outside, cause: Cause) {
    && IsMethodAllowed(l, req.httpMethod)
    && var headers := ListenerHeaders(l, req, ctx, out);
    var chosen := Chosen(l, req, out);
    match cause
    case ClientBody => out.clientBreaksOff
    case ListenerList => headers.None?
    case UnreadableHeader =>
      && (exists name, i :: name in req.headers && 0 <= i < |req.headers[name]| && !IsText(req.headers[name][i]))
      && exists t :: t in l.targets && t.condition.Some? && t.condition.value.Filter?
    case UndecidedOverride =>
      && chosen.Ambiguous? && ValidStatus(l.response.noTargetsStatus)
      && OverrideFails(l.response, HttpResponse(l.response.noTargetsStatus, map[], ""), ctx, out.world)
    case UnbuildableRequest(n) =>
      && chosen.Selected? && headers.Some?
      && FirstToFail(chosen.targets, n, req, headers.value, ctx, out)
    case _ =>
      && chosen.Selected? && headers.Some?
      && CausesLater(l, chosen, req, headers.value, ctx, out, cause)
  }

  ghost predicate FirstToFail(ts: seq<TargetConfig>, n: nat, req: Request, headers: HeaderValues, ctx: Context,
                              out: Outside)
  {
    && n < |ts| && RequestFails(ts[n], headers, ctx, out)
    && forall m :: 0 <= m < n ==> BuildRequest(ts[m], req, headers, ctx, out).Done?
  }

  /** Causes that need all requests to have been sent. */
  ghost predicate CausesLater(l: ListenerConfig, chosen: Selection, req: Request, headers: HeaderValues, ctx: Context,
                              out: Outside, cause: Cause)
    requires chosen.Selected?
  {
    var ts := chosen.targets;
    var requests := BuildAll(ts, req, headers, ctx, out);
    && requests.Done?
    && match cause
       case TargetBody(n) =>
         && n < |ts| && ResultOf(ts[n], requests.value[n], out).Ok?
         && out.targetBreaksOff(ts[n], requests.value[n])
       case ErrorStatus(n) =>
         && n < |ts| && !ResultOf(ts[n], requests.value[n], out).Ok?
         && ts[n].onError == OnError.Status && ts[n].errorStatus.Some?
         && !(100 <= ts[n].errorStatus.value <= 999)
       case ReplyOverride(source) =>
         var responses := FoldAll(ts, Results(ts, requests.value, out), ctx, out);
         && responses.Done?
         && Fits(l.strategy, l.response, chosen.routed, responses.value, out.world, source)
         && SourceFails(l.response, source, responses.value, ctx, out.world)
       case _ => false
  }

  // ----- each stage -----

  lemma OverridePanics(cfg: ResponseConfig, resp: HttpResponse, ctx: Context, w: World)
    ensures Overridden(cfg, resp, ctx, w).Panicked? <==> OverrideFails(cfg, resp, ctx, w)
    ensures !Overridden(cfg, resp, ctx, w).Errored?
  {
  }

  lemma ReplyPanics(cfg: ResponseConfig, source: Source, responses: ResponsesMap, ctx: Context, w: World)
    requires Present(responses, source)
    ensures ReplyFrom(cfg, source, responses, ctx, w).Panicked? <==> SourceFails(cfg, source, responses, ctx, w)
  {
  }

  lemma RequestPanics(t: TargetConfig, req: Request, headers: HeaderValues, ctx: Context, out: Outside)
    ensures BuildRequest(t, req, headers, ctx, out).Panic? <==> RequestFails(t, headers, ctx, out)
  {
  }

  /** The request in position `n` is the first that cannot be built: it panics, or is an HTTP error. */
  ghost predicate StopsAt(ts: seq<TargetConfig>, n: nat, panic: bool, req: Request, headers: HeaderValues, ctx: Context,
                          out: Outside)
  {
    && n < |ts| && Fails(BuildRequest(ts[n], req, headers, ctx, out), panic)
    && forall m :: 0 <= m < n ==> BuildRequest(ts[m], req, headers, ctx, out).Done?
  }

  predicate Fails<T>(a: Attempt<T>, panic: bool) {
    if panic then a.Panic? else a.HttpError?
  }

  lemma {:induction false} BuildAllDone(ts: seq<TargetConfig>, req: Request, headers: HeaderValues, ctx: Context,
                                        out: Outside)
    ensures BuildAll(ts, req, headers, ctx, out).Done? <==>
            forall m :: 0 <= m < |ts| ==> BuildRequest(ts[m], req, headers, ctx, out).Done?
  {
    if ts != [] {
      BuildAllDone(ts[..|ts| - 1], req, headers, ctx, out);
      assert forall m :: 0 <= m < |ts| - 1 ==> ts[..|ts| - 1][m] == ts[m];
    }
  }

  lemma StopsInPrefix(ts: seq<TargetConfig>, n: nat, panic: bool, req: Request, headers: HeaderValues, ctx: Context,
                      out: Outside)
    requires n < |ts| - 1
    ensures StopsAt(ts[..|ts| - 1], n, panic, req, headers, ctx, out) <==> StopsAt(ts, n, panic, req, headers, ctx, out)
  {
    assert forall m :: 0 <= m < |ts| - 1 ==> ts[..|ts| - 1][m] == ts[m];
  }

  lemma StopsLast(ts: seq<TargetConfig>, panic: bool, req: Request, headers: HeaderValues, ctx: Context, out: Outside)
    requires ts != []
    ensures StopsAt(ts, |ts| - 1, panic, req, headers, ctx, out) <==>
            && BuildAll(ts[..|ts| - 1], req, headers, ctx, out).Done?
            && Fails(BuildRequest(ts[|ts| - 1], req, headers, ctx, out), panic)
  {
    BuildAllDone(ts[..|ts| - 1], req, headers, ctx, out);
    assert forall m :: 0 <= m < |ts| - 1 ==> ts[..|ts| - 1][m] == ts[m];
  }

  lemma {:induction false} BuildAllStops(ts: seq<TargetConfig>, panic: bool, req: Request, headers: HeaderValues,
                                         ctx: Context, out: Outside)
    ensures Fails(BuildAll(ts, req, headers, ctx, out), panic) <==>
            exists n :: StopsAt(ts, n, panic, req, headers, ctx, out)
  {
    if ts != [] {
      var init := ts[..|ts| - 1];
      BuildAllStops(init, panic, req, headers, ctx, out);
      StopsLast(ts, panic, req, headers, ctx, out);
      forall n: nat | n < |ts| - 1
        ensures StopsAt(init, n, panic, req, headers, ctx, out) <==> StopsAt(ts, n, panic, req, headers, ctx, out)
      {
        StopsInPrefix(ts, n, panic, req, headers, ctx, out);
      }
    }
  }

  lemma BuildAllPanics(ts: seq<TargetConfig>, req: Request, headers: HeaderValues, ctx: Context, out: Outside)
    ensures BuildAll(ts, req, headers, ctx, out).Panic? <==> exists n :: FirstToFail(ts, n, req, headers, ctx, out)
  {
    BuildAllStops(ts, true, req, headers, ctx, out);
    forall n: nat
      ensures StopsAt(ts, n, true, req, headers, ctx, out) <==> FirstToFail(ts, n, req, headers, ctx, out)
    {
      if n < |ts| {
        RequestPanics(ts[n], req, headers, ctx, out);
      }
    }
  }

  lemma MeetsPanics(l: ListenerConfig, routed: Option<string>, responses: ResponsesMap, ctx: Context, w: World)
    ensures Meets(l.strategy, l.response, routed, responses, ctx, w, Panicked) <==>
            exists source :: && Fits(l.strategy, l.response, routed, responses, w, source)
                             && SourceFails(l.response, source, responses, ctx, w)
  {
    forall source | Fits(l.strategy, l.response, routed, responses, w, source)
      ensures ReplyFrom(l.response, source, responses, ctx, w).Panicked? <==>
              SourceFails(l.response, source, responses, ctx, w)
    {
      ReplyPanics(l.response, source, responses, ctx, w);
    }
  }

  ghost predicate Queried(l: ListenerConfig, chosen: Selection, req: Request, headers: HeaderValues, ctx: Context,
                          out: Outside, outcome: Outcome)
    requires chosen.Selected?
  {
    Concludes(l, QueryReached(chosen.targets, chosen.routed, req, headers, ctx, out), ctx, out, outcome)
  }

  /** The stages after the requests were sent. */
  lemma SentPanics(l: ListenerConfig, chosen: Selection, req: Request, headers: HeaderValues, ctx: Context,
                   out: Outside, requests: seq<TargetRequest>)
    requires chosen.Selected? && BuildAll(chosen.targets, req, headers, ctx, out) == Done(requests)
    ensures Queried(l, chosen, req, headers, ctx, out, Panicked) <==>
            exists cause :: CausesLater(l, chosen, req, headers, ctx, out, cause)
  {
    var ts := chosen.targets;
    var results := Results(ts, requests, out);
    var folded := FoldAll(ts, results, ctx, out);
    FoldPanics(ts, results, ctx, out);
    if n: nat :| n < |ts| && BreaksOff(ts[n], requests[n], out) {
      assert CausesLater(l, chosen, req, headers, ctx, out, TargetBody(n));
      assert AnyBreaksOff(ts, requests, out);
    } else if n: nat :| n < |ts| && !results[n].Ok? && ImpossibleStatus(ts[n]) {
      assert CausesLater(l, chosen, req, headers, ctx, out, ErrorStatus(n));
    } else {
      assert folded.Done?;
      MeetsPanics(l, chosen.routed, folded.value, ctx, out.world);
      forall source
        ensures CausesLater(l, chosen, req, headers, ctx, out, ReplyOverride(source)) <==>
                && Fits(l.strategy, l.response, chosen.routed, folded.value, out.world, source)
                && SourceFails(l.response, source, folded.value, ctx, out.world)
      {
      }
      forall cause | CausesLater(l, chosen, req, headers, ctx, out, cause)
        ensures cause.ReplyOverride?
      {
      }
    }
  }

  /** All stages after the selection. */
  lemma QueryPanics(l: ListenerConfig, chosen: Selection, req: Request, headers: HeaderValues, ctx: Context,
                    out: Outside)
    requires chosen.Selected?
    ensures Queried(l, chosen, req, headers, ctx, out, Panicked) <==>
            || (exists n :: FirstToFail(chosen.targets, n, req, headers, ctx, out))
            || (exists cause :: CausesLater(l, chosen, req, headers, ctx, out, cause))
  {
    BuildAllPanics(chosen.targets, req, headers, ctx, out);
    var requests := BuildAll(chosen.targets, req, headers, ctx, out);
    if requests.Done? {
      SentPanics(l, chosen, req, headers, ctx, out, requests.value);
    }
  }

  // ----- the exact causes -----

  /** A validated listener panics on a request under some order of the responses map if and only if some
      cause is present. */
  lemma ListenerPanicsExactly(l: ListenerConfig, req: Request, ctx: Context, out: Outside)
    requires ValidateListener(l, out.isUrl) == Accepted
    ensures (exists order: Order :: OutcomeOf(l, req, ctx, out, order) == Panicked) <==>
            exists cause :: Causes(l, req, ctx, out, cause)
  {
    OutcomesExactly(l, req, ctx, out, Panicked);
    HandledPanics(l, req, ctx, out);
  }

  lemma HandledPanics(l: ListenerConfig, req: Request, ctx: Context, out: Outside)
    requires ValidateListener(l, out.isUrl) == Accepted
    ensures Handled(l, req, ctx, out, Panicked) <==> exists cause :: Causes(l, req, ctx, out, cause)
  {
    if IsMethodAllowed(l, req.httpMethod) {
      if out.clientBreaksOff {
        assert Causes(l, req, ctx, out, ClientBody);
      } else if ListenerHeaders(l, req, ctx, out).None? {
        assert Causes(l, req, ctx, out, ListenerList);
      } else {
        ChoicePanics(l, req, ctx, out, ListenerHeaders(l, req, ctx, out).value);
      }
    }
  }

  lemma ChoicePanics(l: ListenerConfig, req: Request, ctx: Context, out: Outside, headers: HeaderValues)
    requires ValidateListener(l, out.isUrl) == Accepted
    requires IsMethodAllowed(l, req.httpMethod) && !out.clientBreaksOff
    requires ListenerHeaders(l, req, ctx, out) == Some(headers)
    ensures Handled(l, req, ctx, out, Panicked) <==> exists cause :: Causes(l, req, ctx, out, cause)
  {
    ListenerAccepted(l, out.isUrl);
    SelectionIsDistinct(l, out.holds, AreText(req.headers));
    match Chosen(l, req, out)
    case Panics => assert Causes(l, req, ctx, out, UnreadableHeader);
    case Ambiguous =>
      OverridePanics(l.response, HttpResponse(l.response.noTargetsStatus, map[], ""), ctx, out.world);
      assert Handled(l, req, ctx, out, Panicked) <==> Causes(l, req, ctx, out, UndecidedOverride);
    case Selected(_, _) =>
      SelectedPanics(l, req, ctx, out, headers);
  }

  lemma SelectedPanics(l: ListenerConfig, req: Request, ctx: Context, out: Outside, headers: HeaderValues)
    requires IsMethodAllowed(l, req.httpMethod) && !out.clientBreaksOff
    requires ListenerHeaders(l, req, ctx, out) == Some(headers)
    requires Chosen(l, req, out).Selected? && (AreText(req.headers) || !AnyFilter(l.targets))
    ensures Handled(l, req, ctx, out, Panicked) <==> exists cause :: Causes(l, req, ctx, out, cause)
  {
    var chosen := Chosen(l, req, out);
    QueryPanics(l, chosen, req, headers, ctx, out);
    forall n: nat | FirstToFail(chosen.targets, n, req, headers, ctx, out)
      ensures Causes(l, req, ctx, out, UnbuildableRequest(n))
    {
    }
    forall cause | CausesLater(l, chosen, req, headers, ctx, out, cause)
      ensures Causes(l, req, ctx, out, cause)
    {
    }
    forall cause | Causes(l, req, ctx, out, cause)
      ensures || CausesLater(l, chosen, req, headers, ctx, out, cause)
              || (cause.UnbuildableRequest? && FirstToFail(chosen.targets, cause.n, req, headers, ctx, out))
    {
    }
  }

  /** No reply the strategy table allows can be made. */
  ghost predicate EveryReplyFails(l: ListenerConfig, chosen: Selection, req: Request, headers: HeaderValues,
                                  ctx: Context, out: Outside)
    requires chosen.Selected?
  {
    var requests := BuildAll(chosen.targets, req, headers, ctx, out);
    requests.Done?
    && var responses := FoldAll(chosen.targets, Results(chosen.targets, requests.value, out), ctx, out);
    responses.Done?
    && forall source :: Fits(l.strategy, l.response, chosen.routed, responses.value, out.world, source) ==>
                          SourceFails(l.response, source, responses.value, ctx, out.world)
  }

  /** The cause does not depend on which of several fitting responses is answered. */
  ghost predicate IsCertain(l: ListenerConfig, req: Request, ctx: Context, out: Outside, cause: Cause) {
    && Causes(l, req, ctx, out, cause)
    && (cause.ReplyOverride? ==>
          EveryReplyFails(l, Chosen(l, req, out), req, ListenerHeaders(l, req, ctx, out).value, ctx, out))
  }

  /** A validated listener panics on a request under every order of the responses map if and only if
      some cause is present that does not depend on it. */
  lemma PanicIsCertain(l: ListenerConfig, req: Request, ctx: Context, out: Outside)
    requires ValidateListener(l, out.isUrl) == Accepted
    ensures (forall order: Order :: OutcomeOf(l, req, ctx, out, order) == Panicked) <==>
            exists cause :: IsCertain(l, req, ctx, out, cause)
  {
    if cause :| IsCertain(l, req, ctx, out, cause) {
      forall order: Order
        ensures OutcomeOf(l, req, ctx, out, order) == Panicked
      {
        OutcomeIsHandled(l, req, ctx, out, order);
        CertainForces(l, req, ctx, out, cause, OutcomeOf(l, req, ctx, out, order));
      }
    } else {
      var order := Survives(l, req, ctx, out);
    }
  }

  lemma CertainForces(l: ListenerConfig, req: Request, ctx: Context, out: Outside, cause: Cause, outcome: Outcome)
    requires ValidateListener(l, out.isUrl) == Accepted
    requires IsCertain(l, req, ctx, out, cause) && Handled(l, req, ctx, out, outcome)
    ensures outcome.Panicked?
  {
    if !out.clientBreaksOff && ListenerHeaders(l, req, ctx, out).Some? {
      ListenerAccepted(l, out.isUrl);
      SelectionIsDistinct(l, out.holds, AreText(req.headers));
      var headers := ListenerHeaders(l, req, ctx, out).value;
      match Chosen(l, req, out)
      case Panics =>
      case Ambiguous =>
        OverridePanics(l.response, HttpResponse(l.response.noTargetsStatus, map[], ""), ctx, out.world);
      case Selected(targets, routed) =>
        BuildAllPanics(targets, req, headers, ctx, out);
        if !cause.UnbuildableRequest? {
          CertainForcesReply(l, req, ctx, out, headers, cause, outcome);
        }
    }
  }

  lemma CertainForcesReply(l: ListenerConfig, req: Request, ctx: Context, out: Outside, headers: HeaderValues,
                           cause: Cause, outcome: Outcome)
    requires Chosen(l, req, out).Selected? && ListenerHeaders(l, req, ctx, out) == Some(headers)
    requires var chosen := Chosen(l, req, out);
             && CausesLater(l, chosen, req, headers, ctx, out, cause)
             && (cause.ReplyOverride? ==> EveryReplyFails(l, chosen, req, headers, ctx, out))
             && Queried(l, chosen, req, headers, ctx, out, outcome)
    ensures outcome.Panicked?
  {
    var chosen := Chosen(l, req, out);
    var ts := chosen.targets;
    var results := Results(ts, BuildAll(ts, req, headers, ctx, out).value, out);
    FoldPanics(ts, results, ctx, out);
    if cause.ErrorStatus? {
      assert !results[cause.n].Ok?;
    } else if cause.ReplyOverride? {
      var responses := FoldAll(ts, results, ctx, out).value;
      forall source | Fits(l.strategy, l.response, chosen.routed, responses, out.world, source)
        ensures ReplyFrom(l.response, source, responses, ctx, out.world).Panicked?
      {
        ReplyPanics(l.response, source, responses, ctx, out.world);
      }
    }
  }

  /** Without a certain cause some order leads to no panic. */
  lemma Survives(l: ListenerConfig, req: Request, ctx: Context, out: Outside) returns (order: Order)
    requires ValidateListener(l, out.isUrl) == Accepted
    requires !exists cause :: IsCertain(l, req, ctx, out, cause)
    ensures OutcomeOf(l, req, ctx, out, order) != Panicked
  {
    HandledPanics(l, req, ctx, out);
    if cause :| Causes(l, req, ctx, out, cause) {
      assert !IsCertain(l, req, ctx, out, cause);
      assert cause.ReplyOverride?;
      var outcome := SurvivingReply(l, req, ctx, out, cause);
      order := OrderFor(l, Reached(l, req, ctx, out), ctx, out, outcome);
    } else {
      order := OrderWith({}, []);
      OutcomeIsHandled(l, req, ctx, out, order);
    }
  }

  /** A reply the strategy table allows is an outcome once handling gets that far. */
  lemma ReplyIsOutcome(l: ListenerConfig, req: Request, ctx: Context, out: Outside, headers: HeaderValues,
                       requests: seq<TargetRequest>, source: Source)
    requires IsMethodAllowed(l, req.httpMethod) && !out.clientBreaksOff
    requires ListenerHeaders(l, req, ctx, out) == Some(headers) && Chosen(l, req, out).Selected?
    requires BuildAll(Chosen(l, req, out).targets, req, headers, ctx, out) == Done(requests)
    requires !AnyBreaksOff(Chosen(l, req, out).targets, requests, out)
    requires var Selected(ts, routed) := Chosen(l, req, out);
             var responses := FoldAll(ts, Results(ts, requests, out), ctx, out);
             responses.Done? && Fits(l.strategy, l.response, routed, responses.value, out.world, source)
    ensures var ts := Chosen(l, req, out).targets;
            var responses := FoldAll(ts, Results(ts, requests, out), ctx, out).value;
            Handled(l, req, ctx, out, ReplyFrom(l.response, source, responses, ctx, out.world))
  {
  }

  lemma BodiesRead(l: ListenerConfig, req: Request, ctx: Context, out: Outside, headers: HeaderValues,
                   requests: seq<TargetRequest>)
    requires IsMethodAllowed(l, req.httpMethod)
    requires ListenerHeaders(l, req, ctx, out) == Some(headers) && Chosen(l, req, out).Selected?
    requires BuildAll(Chosen(l, req, out).targets, req, headers, ctx, out) == Done(requests)
    requires !exists cause :: IsCertain(l, req, ctx, out, cause)
    ensures !out.clientBreaksOff && !AnyBreaksOff(Chosen(l, req, out).targets, requests, out)
  {
    assert !IsCertain(l, req, ctx, out, ClientBody);
    var ts := Chosen(l, req, out).targets;
    forall n: nat | n < |ts|
      ensures !BreaksOff(ts[n], requests[n], out)
    {
      assert !IsCertain(l, req, ctx, out, TargetBody(n));
    }
  }

  lemma SurvivingReply(l: ListenerConfig, req: Request, ctx: Context, out: Outside, cause: Cause)
    returns (outcome: Outcome)
    requires cause.ReplyOverride? && Causes(l, req, ctx, out, cause)
    requires !exists cause :: IsCertain(l, req, ctx, out, cause)
    ensures Handled(l, req, ctx, out, outcome) && !outcome.Panicked?
  {
    var chosen := Chosen(l, req, out);
    var headers := ListenerHeaders(l, req, ctx, out).value;
    var ts := chosen.targets;
    var requests := BuildAll(ts, req, headers, ctx, out).value;
    var responses := FoldAll(ts, Results(ts, requests, out), ctx, out).value;
    BodiesRead(l, req, ctx, out, headers, requests);
    assert !IsCertain(l, req, ctx, out, cause);
    assert !EveryReplyFails(l, chosen, req, headers, ctx, out);
    var source :| && Fits(l.strategy, l.response, chosen.routed, responses, out.world, source)
                  && !SourceFails(l.response, source, responses, ctx, out.world);
    ReplyPanics(l.response, source, responses, ctx, out.world);
    ReplyIsOutcome(l, req, ctx, out, headers, requests, source);
    outcome := ReplyFrom(l.response, source, responses, ctx, out.world);
  }

  // ----- HTTP errors -----

  /** Handling ends in an HTTP error, under any order of the responses map, exactly for two true filters and
      an impossible no-target status, or for a first request that cannot be built and does not panic. */
  lemma ListenerErrsExactly(l: ListenerConfig, req: Request, ctx: Context, out: Outside, order: Order)
    ensures OutcomeOf(l, req, ctx, out, order) == Errored <==>
            && IsMethodAllowed(l, req.httpMethod) && !out.clientBreaksOff
            && var headers := ListenerHeaders(l, req, ctx, out);
            && headers.Some?
            && match Chosen(l, req, out)
               case Panics => false
               case Ambiguous => !(100 <= l.response.noTargetsStatus <= 999)
               case Selected(ts, _) => exists n :: StopsAt(ts, n, false, req, headers.value, ctx, out)
  {
    if IsMethodAllowed(l, req.httpMethod) && !out.clientBreaksOff && ListenerHeaders(l, req, ctx, out).Some? {
      var headers := ListenerHeaders(l, req, ctx, out).value;
      match Chosen(l, req, out)
      case Panics =>
      case Ambiguous => ConflictReported(l, req, ctx, out, order);
      case Selected(ts, routed) =>
        BuildAllStops(ts, false, req, headers, ctx, out);
        RepliesNeverErr(l, Reached(l, req, ctx, out), ctx, out, order);
    }
  }

  lemma RepliesNeverErr(l: ListenerConfig, stage: Stage, ctx: Context, out: Outside, order: Order)
    ensures stage.Choosing? ==> Concluded(l, stage, ctx, out, order) != Errored
  {
  }

  // ----- conditions that exclude every cause -----

  /** The request goes to the target. */
  ghost predicate IsSent(l: ListenerConfig, req: Request, ctx: Context, out: Outside, t: TargetConfig,
                         request: TargetRequest)
  {
    && Chosen(l, req, out).Selected? && t in Chosen(l, req, out).targets
    && ListenerHeaders(l, req, ctx, out).Some?
    && BuildRequest(t, req, ListenerHeaders(l, req, ctx, out).value, ctx, out) == Done(request)
  }

  /** The target's own response, or the one that stands for its failure. */
  ghost predicate IsAnswer(l: ListenerConfig, req: Request, ctx: Context, out: Outside, t: TargetConfig,
                           resp: HttpResponse)
  {
    exists request :: IsSent(l, req, ctx, out, t, request) && LeavesEntry(t, ResultOf(t, request, out), Some(resp))
  }

  /** The target's failure is dropped. */
  ghost predicate IsDropped(l: ListenerConfig, req: Request, ctx: Context, out: Outside, t: TargetConfig) {
    t.onError.Drop? && exists request :: IsSent(l, req, ctx, out, t, request) && !ResultOf(t, request, out).Ok?
  }

  /** Every status code the listener was configured with is one a response can have. The
      validators do not check this. */
  ghost predicate StatusesOk(l: ListenerConfig) {
    && ValidStatus(l.response.noTargetsStatus)
    && (SetsStatus(l.response) ==> ValidStatus(l.response.overrides.value.status.value))
    && forall i :: 0 <= i < |l.targets| && l.targets[i].errorStatus.Some? ==>
                     ValidStatus(l.targets[i].errorStatus.value)
  }

  ghost predicate LegalIn(ts: Option<seq<HeaderTransform>>, ctx: Context, w: World) {
    forall t :: t in Transforms(ts) ==> Legal(t, Expand(ctx, w))
  }

  /** The context a target's answer is overridden in. */
  function AnswerContext(ctx: Context, t: TargetConfig, resp: HttpResponse, out: Outside): Context {
    TargetContext(ctx, t, out).With(out.world.responseFrame(resp))
  }

  /** The header lists are legal in the contexts this request expands them in. */
  ghost predicate ListsOk(l: ListenerConfig, req: Request, ctx: Context, out: Outside) {
    && LegalIn(l.headers, ctx, out.world)
    && (forall t :: t in l.targets ==> LegalIn(t.headers, TargetContext(ctx, t, out), out.world))
    && (l.response.overrides.Some? ==>
          var headers := l.response.overrides.value.headers;
          && LegalIn(headers, ctx, out.world)
          && (forall t, resp :: IsAnswer(l, req, ctx, out, t, resp) ==>
                                  LegalIn(headers, AnswerContext(ctx, t, resp, out), out.world))
          && forall t :: IsDropped(l, req, ctx, out, t) ==> LegalIn(headers, TargetContext(ctx, t, out), out.world))
  }

  /** A target's URL, expanded for this request, names a host if it parses. */
  ghost predicate HostsOk(l: ListenerConfig, ctx: Context, out: Outside) {
    forall t :: t in l.targets ==>
                  var url := Expand(TargetContext(ctx, t, out), out.world)(t.url);
                  out.isUrl(url) ==> out.hostOf(url).Some?
  }

  /** No body that handling reads breaks off. */
  ghost predicate BodiesArrive(l: ListenerConfig, req: Request, ctx: Context, out: Outside) {
    && !out.clientBreaksOff
    && forall t, request :: IsSent(l, req, ctx, out, t, request) ==> !BreaksOff(t, request, out)
  }

  /** No filter meets a header value that is not text. */
  ghost predicate FiltersReadable(l: ListenerConfig, req: Request) {
    AreText(req.headers) || !AnyFilter(l.targets)
  }

  lemma LegalListIsCarriedOut(ts: Option<seq<HeaderTransform>>, h: HeaderValues, ctx: Context, w: World)
    requires LegalIn(ts, ctx, w)
    ensures ApplyAll(Transforms(ts), h, Expand(ctx, w)).Some?
  {
    LegalNeverPanics(Transforms(ts), h, Expand(ctx, w));
  }

  lemma OverrideHolds(l: ListenerConfig, resp: HttpResponse, ctx: Context, w: World)
    requires StatusesOk(l)
    requires l.response.overrides.Some? ==> LegalIn(l.response.overrides.value.headers, ctx, w)
    ensures !OverrideFails(l.response, resp, ctx, w)
  {
    if l.response.overrides.Some? {
      LegalListIsCarriedOut(l.response.overrides.value.headers, resp.headers, ctx, w);
    }
  }

  /** An entry of the map is the answer of a selected target, or stands for its dropped failure. */
  lemma EntryIsAnswer(l: ListenerConfig, req: Request, ctx: Context, out: Outside, headers: HeaderValues,
                      requests: seq<TargetRequest>, id: string)
    requires ValidateListener(l, out.isUrl) == Accepted
    requires Chosen(l, req, out).Selected? && ListenerHeaders(l, req, ctx, out) == Some(headers)
    requires BuildAll(Chosen(l, req, out).targets, req, headers, ctx, out) == Done(requests)
    requires var ts := Chosen(l, req, out).targets;
             var responses := FoldAll(ts, Results(ts, requests, out), ctx, out);
             responses.Done? && id in responses.value
    ensures var ts := Chosen(l, req, out).targets;
            var (resp, own) := FoldAll(ts, Results(ts, requests, out), ctx, out).value[id];
            exists t ::
              && t in ts && own == TargetContext(ctx, t, out)
              && if resp.Some? then IsAnswer(l, req, ctx, out, t, resp.value) else IsDropped(l, req, ctx, out, t)
  {
    ListenerAccepted(l, out.isUrl);
    SelectionIsDistinct(l, out.holds, AreText(req.headers));
    var ts := Chosen(l, req, out).targets;
    var results := Results(ts, requests, out);
    FoldedKeys(ts, results, ctx, out, id);
    var i :| 0 <= i < |ts| && ts[i].Id() == id;
    FoldedEntry(ts, results, ctx, out, i);
    BuiltEach(ts, req, headers, ctx, out, i);
    assert IsSent(l, req, ctx, out, ts[i], requests[i]);
  }

  lemma {:induction false} BuiltEach(ts: seq<TargetConfig>, req: Request, headers: HeaderValues, ctx: Context,
                                     out: Outside, i: nat)
    requires i < |ts| && BuildAll(ts, req, headers, ctx, out).Done?
    ensures BuildRequest(ts[i], req, headers, ctx, out) == Done(BuildAll(ts, req, headers, ctx, out).value[i])
  {
    var last := |ts| - 1;
    if i < last {
      BuiltEach(ts[..last], req, headers, ctx, out, i);
    }
  }

  lemma SelectedConfigured(l: ListenerConfig, req: Request, out: Outside, n: nat)
    requires ValidateListener(l, out.isUrl) == Accepted
    requires Chosen(l, req, out).Selected? && n < |Chosen(l, req, out).targets|
    ensures Chosen(l, req, out).targets[n] in l.targets
  {
    ListenerAccepted(l, out.isUrl);
    SelectionIsDistinct(l, out.holds, AreText(req.headers));
  }

  lemma NoUnbuildableRequest(l: ListenerConfig, req: Request, ctx: Context, out: Outside, headers: HeaderValues, n: nat)
    requires ValidateListener(l, out.isUrl) == Accepted
    requires ListsOk(l, req, ctx, out) && HostsOk(l, ctx, out)
    requires Chosen(l, req, out).Selected?
    ensures !FirstToFail(Chosen(l, req, out).targets, n, req, headers, ctx, out)
  {
    if n < |Chosen(l, req, out).targets| {
      var t := Chosen(l, req, out).targets[n];
      SelectedConfigured(l, req, out, n);
      LegalListIsCarriedOut(t.headers, headers, TargetContext(ctx, t, out), out.world);
    }
  }

  lemma NoFailingReply(l: ListenerConfig, req: Request, ctx: Context, out: Outside, headers: HeaderValues,
                       requests: seq<TargetRequest>, source: Source)
    requires ValidateListener(l, out.isUrl) == Accepted
    requires StatusesOk(l) && ListsOk(l, req, ctx, out)
    requires Chosen(l, req, out).Selected? && ListenerHeaders(l, req, ctx, out) == Some(headers)
    requires BuildAll(Chosen(l, req, out).targets, req, headers, ctx, out) == Done(requests)
    requires var ts := Chosen(l, req, out).targets;
             var responses := FoldAll(ts, Results(ts, requests, out), ctx, out);
             responses.Done? && Present(responses.value, source)
    ensures var ts := Chosen(l, req, out).targets;
            !SourceFails(l.response, source, FoldAll(ts, Results(ts, requests, out), ctx, out).value, ctx, out.world)
  {
    var none := HttpResponse(l.response.noTargetsStatus, map[], "");
    if source.TargetResponse? || source.DroppedTarget? {
      EntryIsAnswer(l, req, ctx, out, headers, requests, source.id);
      var ts := Chosen(l, req, out).targets;
      var (resp, own) := FoldAll(ts, Results(ts, requests, out), ctx, out).value[source.id];
      if resp.Some? {
        var t :| t in ts && own == TargetContext(ctx, t, out) && IsAnswer(l, req, ctx, out, t, resp.value);
        OverrideHolds(l, resp.value, own.With(out.world.responseFrame(resp.value)), out.world);
      } else {
        OverrideHolds(l, none, own, out.world);
      }
    } else {
      OverrideHolds(l, HttpResponse(STATUS_OK, map[], ""), ctx, out.world);
      OverrideHolds(l, none, ctx, out.world);
    }
  }

  lemma NoLostBody(l: ListenerConfig, req: Request, ctx: Context, out: Outside, headers: HeaderValues,
                   requests: seq<TargetRequest>, n: nat)
    requires BodiesArrive(l, req, ctx, out)
    requires Chosen(l, req, out).Selected? && n < |Chosen(l, req, out).targets|
    requires ListenerHeaders(l, req, ctx, out) == Some(headers)
    requires BuildAll(Chosen(l, req, out).targets, req, headers, ctx, out) == Done(requests)
    ensures !BreaksOff(Chosen(l, req, out).targets[n], requests[n], out)
  {
    var ts := Chosen(l, req, out).targets;
    BuiltEach(ts, req, headers, ctx, out, n);
    assert IsSent(l, req, ctx, out, ts[n], requests[n]);
  }

  lemma NoCauseLater(l: ListenerConfig, req: Request, ctx: Context, out: Outside, headers: HeaderValues, cause: Cause)
    requires ValidateListener(l, out.isUrl) == Accepted
    requires StatusesOk(l) && ListsOk(l, req, ctx, out) && BodiesArrive(l, req, ctx, out)
    requires Chosen(l, req, out).Selected? && ListenerHeaders(l, req, ctx, out) == Some(headers)
    ensures !CausesLater(l, Chosen(l, req, out), req, headers, ctx, out, cause)
  {
    var ts := Chosen(l, req, out).targets;
    if CausesLater(l, Chosen(l, req, out), req, headers, ctx, out, cause) {
      var requests := BuildAll(ts, req, headers, ctx, out).value;
      if cause.TargetBody? {
        NoLostBody(l, req, ctx, out, headers, requests, cause.n);
      } else if cause.ErrorStatus? {
        SelectedConfigured(l, req, out, cause.n);
      } else {
        NoFailingReply(l, req, ctx, out, headers, requests, cause.source);
      }
    }
  }

  /** A listener that the validators accept never panics on a request if its status codes are possible,
      the lists are legal where the request expands them, its targets' URLs name hosts, bodies arrive
      whole and filters meet only text: no condition is missing, no chosen response is absent, and no
      failure is left without a response, whichever targets refuse, time out or cannot be signed for. */
  lemma AcceptedListenerNeverPanics(l: ListenerConfig, req: Request, ctx: Context, out: Outside, order: Order)
    requires ValidateListener(l, out.isUrl) == Accepted
    requires StatusesOk(l) && ListsOk(l, req, ctx, out) && HostsOk(l, ctx, out)
    requires BodiesArrive(l, req, ctx, out) && FiltersReadable(l, req)
    ensures OutcomeOf(l, req, ctx, out, order) != Panicked
  {
    HandledPanics(l, req, ctx, out);
    OutcomeIsHandled(l, req, ctx, out, order);
    LegalListIsCarriedOut(l.headers, req.headers - {HOST}, ctx, out.world);
    var headers := ListenerHeaders(l, req, ctx, out).value;
    OverrideHolds(l, HttpResponse(l.response.noTargetsStatus, map[], ""), ctx, out.world);
    if cause :| Causes(l, req, ctx, out, cause) {
      if cause.UnbuildableRequest? {
        NoUnbuildableRequest(l, req, ctx, out, headers, cause.n);
      } else if !cause.UndecidedOverride? {
        NoCauseLater(l, req, ctx, out, headers, cause);
      }
    }
  }

  // ----- accepted listeners that panic -----

  function SingleTarget(url: string, condition: Option<Condition>): TargetConfig {
    TargetConfig(None, url, None, None, 60, Propagate, None, condition, None, None)
  }

  /** One target, every reply replaced. */
  function Replacing(target: TargetConfig, status: nat): ListenerConfig {
    ListenerConfig(AlwaysOverride, None, None, [target],
                   ResponseConfig(None, 500, Some(OverrideConfig(Some(status), None, None))), TlsConfig(true, None))
  }

  /** An override status of 0, and a request that no target is allowed for. */
  lemma AcceptedListenerCanPanic(url: string, filter: string, req: Request, ctx: Context, out: Outside,
                                 order: Order)
    requires out.isUrl(url) && !out.holds(filter)
    ensures var l := Replacing(SingleTarget(url, Some(Filter(filter))), 0);
            ValidateListener(l, out.isUrl) == Accepted && OutcomeOf(l, req, ctx, out, order) == Panicked
  {
    var target := SingleTarget(url, Some(Filter(filter)));
    var l := Replacing(target, 0);
    ListenerAccepted(l, out.isUrl);
    assert l.targets[..0] == [] && l.targets[|l.targets| - 1] == target;
    assert !HoldsFor(target, out.holds) && !IsDefault(target);
    assert Allowed(l.targets, out.holds) == [];
  }

  lemma SingleAccepted(url: string, isUrl: string -> bool)
    requires isUrl(url)
    ensures ValidateListener(Replacing(SingleTarget(url, None), 200), isUrl) == Accepted
  {
    ListenerAccepted(Replacing(SingleTarget(url, None), 200), isUrl);
  }

  lemma SingleChosen(l: ListenerConfig, target: TargetConfig, req: Request, out: Outside)
    requires l.targets == [target] && target.condition.None? && l.strategy.AlwaysOverride?
    ensures Chosen(l, req, out) == Selected([target], None)
  {
    assert l.targets[..0] == [];
    assert Allowed(l.targets, out.holds) == [target];
  }

  /** A URL without a host, which validation lets through as it does any that parses. */
  lemma HostlessTargetPanics(req: Request, ctx: Context, out: Outside, order: Order)
    requires out.isUrl("/x") && out.hostOf("/x").None?
    requires forall c: Context :: out.world.expand("/x", c) == "/x"
    ensures var l := Replacing(SingleTarget("/x", None), 200);
            && ValidateListener(l, out.isUrl) == Accepted && StatusesOk(l) && ListsOk(l, req, ctx, out)
            && OutcomeOf(l, req, ctx, out, order) == Panicked
  {
    var l := Replacing(SingleTarget("/x", None), 200);
    SingleAccepted("/x", out.isUrl);
    SingleChosen(l, l.targets[0], req, out);
    HostlessFails(req, req.headers - {HOST}, ctx, out);
  }

  lemma HostlessFails(req: Request, headers: HeaderValues, ctx: Context, out: Outside)
    requires out.isUrl("/x") && out.hostOf("/x").None? && HOST !in headers
    requires forall c: Context :: out.world.expand("/x", c) == "/x"
    ensures BuildAll([SingleTarget("/x", None)], req, headers, ctx, out).Panic?
  {
    var t := SingleTarget("/x", None);
    assert RequestFails(t, headers, ctx, out);
    assert FirstToFail([t], 0, req, headers, ctx, out);
    BuildAllPanics([t], req, headers, ctx, out);
  }

  /** A target that drops its failures, and whose id cannot be a header value. */
  const UNNAMEABLE: TargetConfig :=
    TargetConfig(Some("a\nb"), "http://a", None, None, 60, OnError.Drop, None, None, None, None)

  const INSISTING: ListenerConfig :=
    ListenerConfig(AlwaysTargetId, None, None, [UNNAMEABLE],
                   NAMING_CONFIG.(targetSelector := Some("a\nb")), TlsConfig(true, None))

  lemma InsistingAccepted(isUrl: string -> bool)
    requires isUrl("http://a")
    ensures ValidateListener(INSISTING, isUrl) == Accepted
  {
    assert INSISTING.targets[0].Id() == "a\nb";
    ListenerAccepted(INSISTING, isUrl);
  }

  /** The reply on behalf of that target, in whose context the override names it, cannot be made: the
      conditions of `AcceptedListenerNeverPanics` fail here only in the list of the override section. */
  lemma DroppedTargetPanics(req: Request, ctx: Context, out: Outside, order: Order)
    requires out.isUrl("http://a") && !out.clientBreaksOff && SendsAndDrops(UNNAMEABLE, ctx, out)
    requires out.world.expand("${CTX_TARGET_ID}", TargetContext(ctx, UNNAMEABLE, out)) == "a\nb"
    ensures ValidateListener(INSISTING, out.isUrl) == Accepted
    ensures StatusesOk(INSISTING) && HostsOk(INSISTING, ctx, out)
    ensures BodiesArrive(INSISTING, req, ctx, out) && FiltersReadable(INSISTING, req)
    ensures OutcomeOf(INSISTING, req, ctx, out, order) == Panicked
  {
    var l := INSISTING;
    InsistingAccepted(out.isUrl);
    assert l.targets[..0] == [];
    assert Allowed(l.targets, out.holds) == [UNNAMEABLE];
    assert Chosen(l, req, out) == Selected([UNNAMEABLE], None);
    OnlyDropped(l, UNNAMEABLE, req, ctx, out);
    DroppedTargetAnswers(l, req, ctx, out, order, 0);
    UnnameableReply(TargetContext(ctx, UNNAMEABLE, out), out.world);
  }

  lemma UnnameableReply(ctx: Context, w: World)
    requires w.expand("${CTX_TARGET_ID}", ctx) == "a\nb"
    ensures NoTargetReply(INSISTING.response, ctx, w) == Panicked
  {
    assert !ValidValue("a\nb") by {
      assert "a\nb"[1] == '\n';
    }
    assert Lower("x-target-id") == "x-target-id";
  }

  /** Two targets with a filter each, every reply replaced. */
  function Conflicting(a: string, b: string): ListenerConfig {
    var targets := [SingleTarget("http://a", Some(Filter(a))), SingleTarget("http://b", Some(Filter(b)))];
    Replacing(targets[0], 0).(strategy := ConditionalRouting, targets := targets)
  }

  lemma ConflictingAccepted(a: string, b: string, isUrl: string -> bool)
    requires isUrl("http://a") && isUrl("http://b")
    ensures ValidateListener(Conflicting(a, b), isUrl) == Accepted
  {
    var targets := Conflicting(a, b).targets;
    assert targets[0].Id() == "TARGET-http://a" && targets[1].Id() == "TARGET-http://b";
    assert targets[0].Id()[14] != targets[1].Id()[14];
    ListenerAccepted(Conflicting(a, b), isUrl);
  }

  lemma ConflictingChosen(a: string, b: string, req: Request, out: Outside)
    requires out.isUrl("http://a") && out.isUrl("http://b") && out.holds(a) && out.holds(b)
    ensures Chosen(Conflicting(a, b), req, out) == if AreText(req.headers) then Ambiguous else Selection.Panics
  {
    var l := Conflicting(a, b);
    assert IsFilter(l.targets[0]) && l.targets[0] in l.targets;
    if AreText(req.headers) {
      ConflictingAccepted(a, b, out.isUrl);
      RoutingTable(l, out.isUrl, out.holds, true);
      assert Hit(l.targets, 0, out.holds) && Hit(l.targets, 1, out.holds);
    }
  }

  /** Two filters that are both true, and an override status of 0: the reply that reports the conflict
      cannot be made. */
  lemma ConflictPanics(a: string, b: string, req: Request, ctx: Context, out: Outside, order: Order)
    requires out.isUrl("http://a") && out.isUrl("http://b") && out.holds(a) && out.holds(b)
    ensures ValidateListener(Conflicting(a, b), out.isUrl) == Accepted
    ensures OutcomeOf(Conflicting(a, b), req, ctx, out, order) == Panicked
  {
    var l := Conflicting(a, b);
    ConflictingAccepted(a, b, out.isUrl);
    ConflictingChosen(a, b, req, out);
    assert ListenerHeaders(l, req, ctx, out) == Some(req.headers - {HOST});
    OverridePanics(l.response, HttpResponse(500, map[], ""), ctx, out.world);
  }
}
