/** The ForEach action (`ZitiForEach.Execute`): resolve the configuration
    headers, list the entities through an external lister, check their count
    against `[minCount, maxCount]`, then run a nested action once per entity
    with `entityId` and `entityName` bound, restoring the body after each run.

    The lister and the nested action are outside this model and enter as
    function parameters. `Execute` is the step-by-step procedure; `ForEach`
    is its reference definition, by recursion over the entity list rather
    than by a loop, and the properties are proved about `ForEach` in module
    ZitiForEachLemmas. */
module ZitiForEach {
  import Strconv

  const TemplatizeKey := "templatize"
  const EntityIdVar := "entityId"
  const EntityNameVar := "entityName"

  /** A listed entity; only its `id` and `name` attributes are read. */
  datatype Entity = Entity(id: string, name: string)

  /** The arguments handed to the external lister (`zitiList`). */
  datatype ListRequest = ListRequest(api: string, entityType: string, filter: string)

  /** What the lister returns: its own error, or the entities in order. */
  datatype Listing = ListFailed(cause: string) | Listed(entities: seq<Entity>)

  /** What the nested action sees of the context when it is called. */
  datatype Invocation = Invocation(headers: map<string, string>, body: string, vars: map<string, string>)

  /** What the nested action does: it leaves a (possibly rewritten) body
      behind and either succeeds or fails with its own error. */
  datatype StepResult = StepOk(body: string) | StepFailed(body: string, cause: string)

  datatype Error =
    | BadMinCount(value: string)   // `minCount` is not an integer
    | BadMaxCount(value: string)   // `maxCount` is not an integer
    | ListError(cause: string)     // the lister's error, returned unchanged
    | TooFew(minCount: int, found: nat)
    | TooMany(maxCount: int, found: nat)
    | StepError(cause: string)     // the nested action's error, returned unchanged

  /** The `error` returned by `Execute`: `Pass` is Go's `nil`. */
  datatype Outcome = Pass | Fail(error: Error)

  type Lister = ListRequest -> Listing

  /** The nested action's behaviour on its k-th call (counting from 0) of one run. */
  type NestedAction = (nat, Invocation) -> StepResult

  /** Go's `m[key]` with a fallback for a missing key. */
  function Lookup(m: map<string, string>, key: string, default: string): string {
    if key in m then m[key] else default
  }

  /** The runner's variables after `AddVariable` of both entity variables. */
  function Bind(vars: map<string, string>, e: Entity): map<string, string>
  {
    vars[EntityIdVar := e.id][EntityNameVar := e.name]
  }

  /** `vars` holds `e`'s `id` and `name` under the two entity variables. */
  predicate Binds(vars: map<string, string>, e: Entity) {
    && EntityIdVar in vars && vars[EntityIdVar] == e.id
    && EntityNameVar in vars && vars[EntityNameVar] == e.name
  }

  /** The runner's variables after `ClearVariable` of both entity variables. */
  function Unbind(vars: map<string, string>): map<string, string>
  {
    vars - {EntityIdVar} - {EntityNameVar}
  }

  /** The resolved configuration: the lister's arguments and the count window. */
  datatype Config = Config(request: ListRequest, minCount: int, maxCount: int)

  /** Either the configuration, or the outcome `Execute` returns before listing. */
  datatype Resolved = Proceed(config: Config) | Stop(outcome: Outcome)

  /** The header stage: defaults for `api`, `type`, `filter`, `minCount` and
      `maxCount`, and the checks on the two counts. A negative `minCount`, or a
      `maxCount` below `minCount`, stops with `Pass`: the source wraps the nil
      error of a successful parse, and wrapping nil yields nil. */
  function ResolveConfig(headers: map<string, string>): (r: Resolved)
    ensures r.Proceed? ==>
      r.config.request == ListRequest(Lookup(headers, "api", "edge"), Lookup(headers, "type", ""), Lookup(headers, "filter", ""))
    ensures r.Proceed? ==> 0 <= r.config.minCount
    ensures r.Proceed? && "minCount" !in headers ==> r.config.minCount == 1
    ensures r.Proceed? && "minCount" in headers ==>
      Strconv.Atoi(headers["minCount"]) == Strconv.Some(r.config.minCount)
    ensures r.Proceed? && "maxCount" !in headers ==> r.config.maxCount == 1
    ensures r.Proceed? && "maxCount" in headers ==>
      Strconv.Atoi(headers["maxCount"]) == Strconv.Some(r.config.maxCount)
    ensures r.Proceed? && "maxCount" in headers ==> r.config.minCount <= r.config.maxCount
    ensures r.Stop? ==> r.outcome in {Pass, Fail(BadMinCount(Lookup(headers, "minCount", ""))),
                                      Fail(BadMaxCount(Lookup(headers, "maxCount", "")))}
  {
    var request := ListRequest(Lookup(headers, "api", "edge"), Lookup(headers, "type", ""), Lookup(headers, "filter", ""));
    var parsedMin := if "minCount" in headers then Strconv.Atoi(headers["minCount"]) else Strconv.Some(1);
    if parsedMin.None? then Stop(Fail(BadMinCount(headers["minCount"])))
    else if parsedMin.value < 0 then Stop(Pass)
    else
      var minCount := parsedMin.value;
      var parsedMax := if "maxCount" in headers then Strconv.Atoi(headers["maxCount"]) else Strconv.Some(1);
      if parsedMax.None? then Stop(Fail(BadMaxCount(headers["maxCount"])))
      else if "maxCount" in headers && parsedMax.value < minCount then Stop(Pass)
      else Proceed(Config(request, minCount, parsedMax.value))
  }

  /** The state left behind by the per-entity loop, and the nested calls it made. */
  datatype LoopState = LoopState(outcome: Outcome, body: string, vars: map<string, string>, calls: seq<Invocation>)

  /** The loop from entity i on: entity i is the nested action's i-th call,
      `body` and `vars` are what the context holds when it starts, and
      `original` is the body captured before the loop. */
  function Loop(headers: map<string, string>, entities: seq<Entity>, original: string,
                nested: NestedAction, i: nat, body: string, vars: map<string, string>): (r: LoopState)
    requires i <= |entities|
    ensures |r.calls| <= |entities| - i
    ensures r.outcome.Pass? ==> |r.calls| == |entities| - i
    ensures r.outcome.Fail? ==> r.outcome.error.StepError? && r.calls != []
    decreases |entities| - i
  {
    if i == |entities| then LoopState(Pass, body, vars, [])
    else
      var call := Invocation(headers, body, Bind(vars, entities[i]));
      match nested(i, call)
      case StepFailed(after, cause) => LoopState(Fail(StepError(cause)), after, call.vars, [call])
      case StepOk(_) =>
        var rest := Loop(headers, entities, original, nested, i + 1, original, Unbind(call.vars));
        LoopState(rest.outcome, rest.body, rest.vars, [call] + rest.calls)
  }

  /** A whole run of `Execute`: the outcome, the context left behind, the
      lister calls made (at most one) and the nested calls made. */
  datatype Run = Run(outcome: Outcome, headers: map<string, string>, body: string,
                     vars: map<string, string>, requests: seq<ListRequest>, calls: seq<Invocation>)

  /** The reference definition of `Execute` on a context with these headers,
      body and runner variables. */
  function ForEach(headers: map<string, string>, body: string, vars: map<string, string>,
                   list: Lister, nested: NestedAction): (r: Run)
    ensures r.headers == headers[TemplatizeKey := "true"]
    ensures |r.requests| <= 1
    ensures r.calls != [] ==> |r.requests| == 1
    ensures r.requests == [] ==> r.body == body && r.vars == vars
  {
    var h := headers[TemplatizeKey := "true"];
    match ResolveConfig(h)
    case Stop(outcome) => Run(outcome, h, body, vars, [], [])
    case Proceed(config) => ListAndRun(h, config, body, vars, list, nested)
  }

  /** The stages after the headers: list, check the count window, run the loop. */
  function ListAndRun(headers: map<string, string>, config: Config, body: string, vars: map<string, string>,
                      list: Lister, nested: NestedAction): (r: Run)
    ensures r.headers == headers && r.requests == [config.request]
    ensures r.calls != [] ==> r.outcome.Pass? || r.outcome.error.StepError?
    ensures r.outcome.Pass? ==> config.minCount <= |r.calls| <= config.maxCount
  {
    match list(config.request)
    case ListFailed(cause) => Run(Fail(ListError(cause)), headers, body, vars, [config.request], [])
    case Listed(entities) =>
      if |entities| < config.minCount then
        Run(Fail(TooFew(config.minCount, |entities|)), headers, body, vars, [config.request], [])
      else if |entities| > config.maxCount then
        Run(Fail(TooMany(config.maxCount, |entities|)), headers, body, vars, [config.request], [])
      else
        var l := Loop(headers, entities, body, nested, 0, body, vars);
        Run(l.outcome, headers, l.body, l.vars, [config.request], l.calls)
  }

  /** The loop result seen from a later position: `done` are the calls already made. */
  function Resume(done: seq<Invocation>, l: LoopState): LoopState {
    LoopState(l.outcome, l.body, l.vars, done + l.calls)
  }

  /** The action context handed to an action: configuration headers, the
      request body, and the runner's variables. The two ghost fields record
      the external calls made through it. */
  class ActionContext {
    var headers: map<string, string>
    var body: string
    var vars: map<string, string>
    ghost var requests: seq<ListRequest>
    ghost var calls: seq<Invocation>

    constructor (headers: map<string, string>, body: string, vars: map<string, string>)
      ensures this.headers == headers && this.body == body && this.vars == vars
      ensures requests == [] && calls == []
    {
      this.headers := headers;
      this.body := body;
      this.vars := vars;
      requests := [];
      calls := [];
    }
  }

  /** The header stage of `ZitiForEach.Execute`, with its early returns. */
  method ReadConfig(headers: map<string, string>) returns (resolved: Resolved)
    ensures resolved == ResolveConfig(headers)
  {
    var apiType := if "api" in headers then headers["api"] else "edge";
    var entityType := if "type" in headers then headers["type"] else "";
    var filter := if "filter" in headers then headers["filter"] else "";

    var minCount := 1;
    if "minCount" in headers {
      var count := headers["minCount"];
      var val := Strconv.Atoi(count);
      if val.None? {
        return Stop(Fail(BadMinCount(count)));
      }
      if val.value < 0 {
        return Stop(Pass);  // the wrapped error is nil
      }
      minCount := val.value;
    }

    var maxCount := 1;
    if "maxCount" in headers {
      var count := headers["maxCount"];
      var val := Strconv.Atoi(count);
      if val.None? {
        return Stop(Fail(BadMaxCount(count)));
      }
      if val.value < minCount {
        return Stop(Pass);  // the wrapped error is nil
      }
      maxCount := val.value;
    }
    return Proceed(Config(ListRequest(apiType, entityType, filter), minCount, maxCount));
  }

  /** `ZitiForEach.Execute`: runs `nested` once per entity that `list` returns. */
  method Execute(ctx: ActionContext, list: Lister, nested: NestedAction) returns (outcome: Outcome)
    modifies ctx
    ensures var r := ForEach(old(ctx.headers), old(ctx.body), old(ctx.vars), list, nested);
      && outcome == r.outcome
      && ctx.headers == r.headers && ctx.body == r.body && ctx.vars == r.vars
      && ctx.requests == old(ctx.requests) + r.requests
      && ctx.calls == old(ctx.calls) + r.calls
  {
    ctx.headers := ctx.headers[TemplatizeKey := "true"];
    var resolved := ReadConfig(ctx.headers);
    if resolved.Stop? {
      return resolved.outcome;
    }
    var minCount, maxCount := resolved.config.minCount, resolved.config.maxCount;

    var listing := list(resolved.config.request);
    ctx.requests := ctx.requests + [resolved.config.request];
    if listing.ListFailed? {
      return Fail(ListError(listing.cause));
    }
    var entities := listing.entities;

    if |entities| < minCount {
      return Fail(TooFew(minCount, |entities|));
    }
    if |entities| > maxCount {
      return Fail(TooMany(maxCount, |entities|));
    }

    outcome := RunEach(ctx, entities, nested);
  }

  /** One iteration of the loop at position i, for the proof of `RunEach`:
      `calls` are the nested calls made before it. */
  lemma LoopStep(headers: map<string, string>, entities: seq<Entity>, original: string,
                 nested: NestedAction, i: nat, vars: map<string, string>, calls: seq<Invocation>)
    requires i < |entities|
    ensures var call := Invocation(headers, original, Bind(vars, entities[i]));
            var here := Resume(calls, Loop(headers, entities, original, nested, i, original, vars));
            match nested(i, call)
            case StepFailed(after, cause) => here == LoopState(Fail(StepError(cause)), after, call.vars, calls + [call])
            case StepOk(_) =>
              here == Resume(calls + [call], Loop(headers, entities, original, nested, i + 1, original, Unbind(call.vars)))
  {
  }

  /** One pass of the loop of `Execute` for `entity`, the nested action's
      k-th call: bind both variables, run the nested action, and, if it
      succeeded, clear both variables and restore the body to `original`. */
  method RunEntity(ctx: ActionContext, entity: Entity, nested: NestedAction, k: nat, original: string)
    returns (result: StepResult)
    modifies ctx`vars, ctx`body, ctx`calls
    ensures var call := Invocation(ctx.headers, old(ctx.body), Bind(old(ctx.vars), entity));
      && result == nested(k, call)
      && ctx.calls == old(ctx.calls) + [call]
      && (result.StepFailed? ==> ctx.body == result.body && ctx.vars == call.vars)
      && (result.StepOk? ==> ctx.body == original && ctx.vars == Unbind(call.vars))
  {
    ctx.vars := ctx.vars[EntityIdVar := entity.id];
    ctx.vars := ctx.vars[EntityNameVar := entity.name];
    var call := Invocation(ctx.headers, ctx.body, ctx.vars);
    result := nested(k, call);
    ctx.calls := ctx.calls + [call];
    ctx.body := result.body;
    if result.StepFailed? {
      return;
    }
    ctx.vars := ctx.vars - {EntityIdVar};
    ctx.vars := ctx.vars - {EntityNameVar};
    ctx.body := original;
  }

  /** The loop of `Execute` (bind, run, clear, restore for each entity). */
  method RunEach(ctx: ActionContext, entities: seq<Entity>, nested: NestedAction) returns (outcome: Outcome)
    modifies ctx
    ensures ctx.headers == old(ctx.headers) && ctx.requests == old(ctx.requests)
    ensures LoopState(outcome, ctx.body, ctx.vars, ctx.calls)
         == Resume(old(ctx.calls), Loop(old(ctx.headers), entities, old(ctx.body), nested, 0, old(ctx.body), old(ctx.vars)))
  {
    var originalBody := ctx.body;
    ghost var headers := ctx.headers;
    ghost var whole := Resume(ctx.calls, Loop(headers, entities, originalBody, nested, 0, originalBody, ctx.vars));
    var i: nat := 0;
    while i < |entities|
      modifies ctx`body, ctx`vars, ctx`calls
      invariant i <= |entities|
      invariant ctx.body == originalBody
      invariant whole == Resume(ctx.calls, Loop(headers, entities, originalBody, nested, i, originalBody, ctx.vars))
    {
      LoopStep(headers, entities, originalBody, nested, i, ctx.vars, ctx.calls);
      var result := RunEntity(ctx, entities[i], nested, i, originalBody);
      if result.StepFailed? {
        return Fail(StepError(result.cause));
      }
      i := i + 1;
    }
    return Pass;
  }
}
