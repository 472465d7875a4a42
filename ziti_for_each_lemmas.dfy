/** Properties of the ForEach action, proved about its reference definition
    `ZitiForEach.ForEach` (and so, through the postcondition of
    `ZitiForEach.Execute`, about every run of the action). */
module ZitiForEachLemmas {
  import Strconv
  import opened ZitiForEach

  // ---- the runner's variables ----

  /** `Bind` adds exactly the two entity variables, holding the entity's
      `id` and `name`, and keeps every other variable. */
  lemma BindSetsEntity(vars: map<string, string>, e: Entity)
    ensures Bind(vars, e).Keys == vars.Keys + {EntityIdVar, EntityNameVar}
    ensures Binds(Bind(vars, e), e)
    ensures forall k :: k in vars && k != EntityIdVar && k != EntityNameVar ==> Bind(vars, e)[k] == vars[k]
  {
  }

  /** `Unbind` removes exactly the two entity variables and keeps every
      other variable. */
  lemma UnbindClearsEntity(vars: map<string, string>)
    ensures Unbind(vars).Keys == vars.Keys - {EntityIdVar, EntityNameVar}
    ensures forall k :: k in Unbind(vars) ==> Unbind(vars)[k] == vars[k]
  {
  }

  /** Binding an entity over cleared variables is binding it over the originals. */
  lemma RebindAfterClear(vars: map<string, string>, previous: Entity, e: Entity)
    ensures Bind(Unbind(Bind(vars, previous)), e) == Bind(vars, e)
  {
  }

  /** Clearing after a bind forgets the bind. */
  lemma ClearAfterBind(vars: map<string, string>, e: Entity)
    ensures Unbind(Bind(vars, e)) == Unbind(vars)
  {
  }

  lemma ClearTwice(vars: map<string, string>)
    ensures Unbind(Unbind(vars)) == Unbind(vars)
  {
  }

  // ---- the per-entity loop ----

  /** Call j of the loop started at entity i sees the same headers, entity
      i + j bound over the caller's variables, and the body the loop started
      with (call 0) or the pre-loop body (later calls). */
  lemma {:induction false} LoopCallAt(headers: map<string, string>, entities: seq<Entity>, original: string,
                                      nested: NestedAction, i: nat, body: string, vars: map<string, string>, j: nat)
    requires i <= |entities|
    requires j < |Loop(headers, entities, original, nested, i, body, vars).calls|
    ensures i + j < |entities|
    ensures Loop(headers, entities, original, nested, i, body, vars).calls[j]
         == Invocation(headers, if j == 0 then body else original, Bind(vars, entities[i + j]))
    decreases |entities| - i
  {
    var call := Invocation(headers, body, Bind(vars, entities[i]));
    if j > 0 {
      LoopCallAt(headers, entities, original, nested, i + 1, original, Unbind(call.vars), j - 1);
      RebindAfterClear(vars, entities[i], entities[i + j]);
    }
  }

  /** Call j of the loop started at entity i is the nested action's
      (i + j)-th call, and it succeeded unless it is the last call of a loop
      that failed. */
  lemma {:induction false} LoopCallSucceeded(headers: map<string, string>, entities: seq<Entity>, original: string,
                                             nested: NestedAction, i: nat, body: string, vars: map<string, string>, j: nat)
    requires i <= |entities|
    requires var r := Loop(headers, entities, original, nested, i, body, vars);
      j + 1 < |r.calls| || (j < |r.calls| && r.outcome.Pass?)
    ensures nested(i + j, Loop(headers, entities, original, nested, i, body, vars).calls[j]).StepOk?
    decreases |entities| - i
  {
    var call := Invocation(headers, body, Bind(vars, entities[i]));
    if j > 0 {
      LoopCallSucceeded(headers, entities, original, nested, i + 1, original, Unbind(call.vars), j - 1);
    }
  }

  /** A loop that succeeds leaves the pre-loop body and the caller's
      variables without `entityId` and `entityName` (or, over no entity at
      all, exactly what it found). */
  lemma {:induction false} LoopPassRestores(headers: map<string, string>, entities: seq<Entity>, original: string,
                                            nested: NestedAction, i: nat, body: string, vars: map<string, string>)
    requires i <= |entities|
    requires Loop(headers, entities, original, nested, i, body, vars).outcome.Pass?
    ensures var r := Loop(headers, entities, original, nested, i, body, vars);
      if i == |entities| then r.body == body && r.vars == vars
      else r.body == original && r.vars == Unbind(vars)
    decreases |entities| - i
  {
    if i < |entities| {
      var cleared := Unbind(Bind(vars, entities[i]));
      ClearAfterBind(vars, entities[i]);
      LoopPassRestores(headers, entities, original, nested, i + 1, original, cleared);
      ClearTwice(vars);
    }
  }

  /** A loop that fails stops at the failing call: the variables keep that
      call's entity bound over the caller's variables, the body is what the
      failing call left, and its error is returned. */
  lemma {:induction false} LoopFailStops(headers: map<string, string>, entities: seq<Entity>, original: string,
                                         nested: NestedAction, i: nat, body: string, vars: map<string, string>)
    requires i <= |entities|
    requires Loop(headers, entities, original, nested, i, body, vars).outcome.Fail?
    ensures var r := Loop(headers, entities, original, nested, i, body, vars);
      var j := |r.calls| - 1;
      && i + j < |entities|
      && nested(i + j, r.calls[j]) == StepFailed(r.body, r.outcome.error.cause)
      && r.vars == r.calls[j].vars == Bind(vars, entities[i + j])
    decreases |entities| - i
  {
    var call := Invocation(headers, body, Bind(vars, entities[i]));
    if nested(i, call).StepOk? {
      var r := Loop(headers, entities, original, nested, i, body, vars);
      var rest := Loop(headers, entities, original, nested, i + 1, original, Unbind(call.vars));
      assert r == LoopState(rest.outcome, rest.body, rest.vars, [call] + rest.calls);
      LoopFailStops(headers, entities, original, nested, i + 1, original, Unbind(call.vars));
      assert r.calls[|r.calls| - 1] == rest.calls[|rest.calls| - 1];
      RebindAfterClear(vars, entities[i], entities[i + |r.calls| - 1]);
    }
  }

  /** Every call of a loop over the whole list carries the headers, the
      pre-loop body and its entity bound over the caller's variables. */
  lemma LoopCalls(headers: map<string, string>, entities: seq<Entity>, nested: NestedAction,
                  body: string, vars: map<string, string>)
    ensures var l := Loop(headers, entities, body, nested, 0, body, vars);
      forall i :: 0 <= i < |l.calls| ==> l.calls[i] == Invocation(headers, body, Bind(vars, entities[i]))
  {
    var l := Loop(headers, entities, body, nested, 0, body, vars);
    forall i | 0 <= i < |l.calls| ensures l.calls[i] == Invocation(headers, body, Bind(vars, entities[i])) {
      LoopCallAt(headers, entities, body, nested, 0, body, vars, i);
    }
  }

  /** Every call of a loop over the whole list succeeded, except the last
      call of a loop that failed. */
  lemma LoopCallsSucceeded(headers: map<string, string>, entities: seq<Entity>, nested: NestedAction,
                           body: string, vars: map<string, string>)
    ensures var l := Loop(headers, entities, body, nested, 0, body, vars);
      forall i :: 0 <= i < |l.calls| && (i + 1 < |l.calls| || l.outcome.Pass?) ==> nested(i, l.calls[i]).StepOk?
  {
    var l := Loop(headers, entities, body, nested, 0, body, vars);
    forall i | 0 <= i < |l.calls| && (i + 1 < |l.calls| || l.outcome.Pass?) ensures nested(i, l.calls[i]).StepOk? {
      LoopCallSucceeded(headers, entities, body, nested, 0, body, vars, i);
    }
  }

  /** A loop over the whole list that succeeds made one call per entity, in
      order, each with the pre-loop body and that entity bound, and each
      succeeded; it leaves the pre-loop body and, after at least one entity,
      the caller's variables without the two entity variables. */
  lemma LoopSuccess(headers: map<string, string>, entities: seq<Entity>, nested: NestedAction,
                    body: string, vars: map<string, string>)
    requires Loop(headers, entities, body, nested, 0, body, vars).outcome.Pass?
    ensures var l := Loop(headers, entities, body, nested, 0, body, vars);
      && |l.calls| == |entities|
      && (forall i :: 0 <= i < |l.calls| ==>
            && l.calls[i] == Invocation(headers, body, Bind(vars, entities[i]))
            && Binds(l.calls[i].vars, entities[i])
            && nested(i, l.calls[i]).StepOk?)
      && l.body == body
      && (entities != [] ==> l.vars == Unbind(vars) && EntityIdVar !in l.vars && EntityNameVar !in l.vars)
  {
    LoopCalls(headers, entities, nested, body, vars);
    LoopCallsSucceeded(headers, entities, nested, body, vars);
    LoopPassRestores(headers, entities, body, nested, 0, body, vars);
  }

  /** A loop over the whole list that fails made calls up to and including
      the failing one, every earlier call succeeded, and it leaves the failing
      entity bound and the body that call left. */
  lemma LoopFailure(headers: map<string, string>, entities: seq<Entity>, nested: NestedAction,
                    body: string, vars: map<string, string>)
    requires Loop(headers, entities, body, nested, 0, body, vars).outcome.Fail?
    ensures var l := Loop(headers, entities, body, nested, 0, body, vars);
      var j := |l.calls| - 1;
      && 0 <= j < |entities|
      && (forall i :: 0 <= i <= j ==> l.calls[i] == Invocation(headers, body, Bind(vars, entities[i])))
      && (forall i :: 0 <= i < j ==> nested(i, l.calls[i]).StepOk?)
      && nested(j, l.calls[j]) == StepFailed(l.body, l.outcome.error.cause)
      && l.vars == Bind(vars, entities[j])
      && Binds(l.vars, entities[j])
  {
    LoopCalls(headers, entities, nested, body, vars);
    LoopCallsSucceeded(headers, entities, nested, body, vars);
    LoopFailStops(headers, entities, body, nested, 0, body, vars);
  }

  /** A loop from entity i whose every remaining nested call succeeds
      passes. */
  lemma {:induction false} AllOkLoopPasses(headers: map<string, string>, entities: seq<Entity>, original: string,
                                           nested: NestedAction, i: nat, vars: map<string, string>)
    requires i <= |entities|
    requires forall k :: i <= k < |entities| ==>
      nested(k, Invocation(headers, original, Bind(vars, entities[k]))).StepOk?
    ensures Loop(headers, entities, original, nested, i, original, vars).outcome == Pass
    decreases |entities| - i
  {
    if i < |entities| {
      var cleared := Unbind(Bind(vars, entities[i]));
      forall k | i + 1 <= k < |entities|
        ensures nested(k, Invocation(headers, original, Bind(cleared, entities[k]))).StepOk?
      {
        RebindAfterClear(vars, entities[i], entities[k]);
      }
      AllOkLoopPasses(headers, entities, original, nested, i + 1, cleared);
    }
  }

  // ---- whole runs ----

  /** A `minCount` that is not an integer fails before anything is listed. */
  lemma UnparsableMinCount(headers: map<string, string>, body: string, vars: map<string, string>,
                           list: Lister, nested: NestedAction)
    requires "minCount" in headers && Strconv.Atoi(headers["minCount"]).None?
    ensures ForEach(headers, body, vars, list, nested)
         == Run(Fail(BadMinCount(headers["minCount"])), headers[TemplatizeKey := "true"], body, vars, [], [])
  {
  }

  /** A `maxCount` that is not an integer fails before anything is listed,
      once `minCount` (if present) was accepted. */
  lemma UnparsableMaxCount(headers: map<string, string>, body: string, vars: map<string, string>,
                           list: Lister, nested: NestedAction)
    requires "minCount" in headers ==> Strconv.Atoi(headers["minCount"]).Some? && Strconv.Atoi(headers["minCount"]).value >= 0
    requires "maxCount" in headers && Strconv.Atoi(headers["maxCount"]).None?
    ensures ForEach(headers, body, vars, list, nested)
         == Run(Fail(BadMaxCount(headers["maxCount"])), headers[TemplatizeKey := "true"], body, vars, [], [])
  {
  }

  /** The converse of the stops: counts that parse, a `minCount` of at least
      0 and a `maxCount` (if given) of at least `minCount` proceed, with the
      parsed values (or the defaults) as the window and the looked-up
      `api`, `type` and `filter` as the lister's arguments. */
  lemma ValidCountsProceed(headers: map<string, string>)
    requires var minCount := Strconv.Atoi(Lookup(headers, "minCount", "1"));
             var maxCount := Strconv.Atoi(Lookup(headers, "maxCount", "1"));
             && minCount.Some? && minCount.value >= 0 && maxCount.Some?
             && ("maxCount" in headers ==> maxCount.value >= minCount.value)
    ensures ResolveConfig(headers)
         == Proceed(Config(ListRequest(Lookup(headers, "api", "edge"), Lookup(headers, "type", ""), Lookup(headers, "filter", "")),
                           Strconv.Atoi(Lookup(headers, "minCount", "1")).value,
                           Strconv.Atoi(Lookup(headers, "maxCount", "1")).value))
  {
  }

  /** A negative `minCount`, or a `maxCount` below `minCount`, returns
      success without listing or running anything: only `templatize` changed. */
  lemma WrappedNilSucceeds(headers: map<string, string>, body: string, vars: map<string, string>,
                           list: Lister, nested: NestedAction)
    requires var minCount := Strconv.Atoi(Lookup(headers, "minCount", "1"));
             var maxCount := Strconv.Atoi(Lookup(headers, "maxCount", "1"));
             minCount.Some? &&
             (minCount.value < 0 ||
              ("maxCount" in headers && maxCount.Some? && maxCount.value < minCount.value))
    ensures ForEach(headers, body, vars, list, nested)
         == Run(Pass, headers[TemplatizeKey := "true"], body, vars, [], [])
  {
  }

  /** A failing lister, or a count outside `[minCount, maxCount]`, fails
      after the one listing without running the nested action. */
  lemma OutsideWindowFails(headers: map<string, string>, body: string, vars: map<string, string>,
                           list: Lister, nested: NestedAction, config: Config)
    requires ResolveConfig(headers[TemplatizeKey := "true"]) == Proceed(config)
    requires list(config.request).ListFailed?
          || |list(config.request).entities| < config.minCount
          || |list(config.request).entities| > config.maxCount
    ensures var r := ForEach(headers, body, vars, list, nested);
      && r.outcome.Fail? && !r.outcome.error.StepError?
      && r.requests == [config.request] && r.calls == []
      && r.body == body && r.vars == vars
    ensures var r := ForEach(headers, body, vars, list, nested);
      var listing := list(config.request);
      && (listing.ListFailed? ==> r.outcome == Fail(ListError(listing.cause)))
      && (listing.Listed? && |listing.entities| < config.minCount ==>
            r.outcome == Fail(TooFew(config.minCount, |listing.entities|)))
      && (listing.Listed? && config.minCount <= |listing.entities| && |listing.entities| > config.maxCount ==>
            r.outcome == Fail(TooMany(config.maxCount, |listing.entities|)))
  {
  }

  /** With `minCount` above 1 and no `maxCount` header, the window is empty:
      every run fails and the nested action never runs. */
  lemma MinAboveDefaultMaxFails(headers: map<string, string>, body: string, vars: map<string, string>,
                                list: Lister, nested: NestedAction)
    requires "minCount" in headers && "maxCount" !in headers
    requires Strconv.Atoi(headers["minCount"]).Some? && Strconv.Atoi(headers["minCount"]).value > 1
    ensures var r := ForEach(headers, body, vars, list, nested);
      r.outcome.Fail? && r.calls == []
  {
  }

  /** A successful run over the listed entities calls the nested action
      exactly once per entity, in list order, each time with that entity's
      `id` and `name` bound and the original body; afterwards the body is the
      original one and, if any entity was processed, both variables are gone. */
  lemma SuccessRunsEachEntity(headers: map<string, string>, body: string, vars: map<string, string>,
                              list: Lister, nested: NestedAction, config: Config, entities: seq<Entity>)
    requires ResolveConfig(headers[TemplatizeKey := "true"]) == Proceed(config)
    requires list(config.request) == Listed(entities)
    requires ForEach(headers, body, vars, list, nested).outcome.Pass?
    ensures var r := ForEach(headers, body, vars, list, nested);
      && config.minCount <= |entities| <= config.maxCount
      && |r.calls| == |entities|
      && (forall i :: 0 <= i < |r.calls| ==>
            && r.calls[i] == Invocation(headers[TemplatizeKey := "true"], body, Bind(vars, entities[i]))
            && Binds(r.calls[i].vars, entities[i])
            && nested(i, r.calls[i]).StepOk?)
      && r.body == body
      && (entities != [] ==> r.vars == Unbind(vars) && EntityIdVar !in r.vars && EntityNameVar !in r.vars)
  {
    var h := headers[TemplatizeKey := "true"];
    var l := Loop(h, entities, body, nested, 0, body, vars);
    assert ForEach(headers, body, vars, list, nested) == Run(l.outcome, h, l.body, l.vars, [config.request], l.calls);
    LoopSuccess(h, entities, nested, body, vars);
  }

  /** The first failing nested call ends the run: every earlier call
      succeeded, no later entity is processed, the failing entity's variables
      stay bound, the body is what the failing call left, and its error is
      what the action returns. */
  lemma NestedFailureStops(headers: map<string, string>, body: string, vars: map<string, string>,
                           list: Lister, nested: NestedAction, config: Config, entities: seq<Entity>)
    requires ResolveConfig(headers[TemplatizeKey := "true"]) == Proceed(config)
    requires list(config.request) == Listed(entities)
    requires ForEach(headers, body, vars, list, nested).outcome.Fail?
    requires ForEach(headers, body, vars, list, nested).outcome.error.StepError?
    ensures var r := ForEach(headers, body, vars, list, nested);
      var j := |r.calls| - 1;
      && 0 <= j < |entities|
      && (forall i :: 0 <= i <= j ==> r.calls[i] == Invocation(headers[TemplatizeKey := "true"], body, Bind(vars, entities[i])))
      && (forall i :: 0 <= i < j ==> nested(i, r.calls[i]).StepOk?)
      && nested(j, r.calls[j]) == StepFailed(r.body, r.outcome.error.cause)
      && r.vars == Bind(vars, entities[j])
      && Binds(r.vars, entities[j])
  {
    var h := headers[TemplatizeKey := "true"];
    var l := Loop(h, entities, body, nested, 0, body, vars);
    assert ForEach(headers, body, vars, list, nested) == Run(l.outcome, h, l.body, l.vars, [config.request], l.calls);
    LoopFailure(h, entities, nested, body, vars);
  }

  /** A listing inside `[minCount, maxCount]` reaches the loop: the run
      either passes or fails in the nested action, and it passes exactly
      when the nested action succeeds on every entity, each bound over the
      caller's variables with the original body. */
  lemma InWindowRuns(headers: map<string, string>, body: string, vars: map<string, string>,
                     list: Lister, nested: NestedAction, config: Config, entities: seq<Entity>)
    requires ResolveConfig(headers[TemplatizeKey := "true"]) == Proceed(config)
    requires list(config.request) == Listed(entities)
    requires config.minCount <= |entities| <= config.maxCount
    ensures var r := ForEach(headers, body, vars, list, nested);
      && (r.outcome.Pass? || r.outcome.error.StepError?)
      && (r.outcome == Pass <==>
            forall i :: 0 <= i < |entities| ==>
              nested(i, Invocation(headers[TemplatizeKey := "true"], body, Bind(vars, entities[i]))).StepOk?)
  {
    var h := headers[TemplatizeKey := "true"];
    var l := Loop(h, entities, body, nested, 0, body, vars);
    assert ForEach(headers, body, vars, list, nested) == Run(l.outcome, h, l.body, l.vars, [config.request], l.calls);
    if forall i :: 0 <= i < |entities| ==> nested(i, Invocation(h, body, Bind(vars, entities[i]))).StepOk? {
      AllOkLoopPasses(h, entities, body, nested, 0, vars);
    }
    if l.outcome == Pass {
      LoopSuccess(h, entities, nested, body, vars);
    }
  }

  /** Without `minCount` and `maxCount` headers, a listing of exactly one
      entity whose nested run succeeds passes after one nested call with that
      entity bound, and the body is restored. */
  lemma SingleEntityByDefault(headers: map<string, string>, body: string, vars: map<string, string>,
                              list: Lister, nested: NestedAction, e: Entity)
    requires "minCount" !in headers && "maxCount" !in headers
    requires list(ListRequest(Lookup(headers, "api", "edge"), Lookup(headers, "type", ""), Lookup(headers, "filter", "")))
          == Listed([e])
    requires nested(0, Invocation(headers[TemplatizeKey := "true"], body, Bind(vars, e))).StepOk?
    ensures var r := ForEach(headers, body, vars, list, nested);
      && r.outcome == Pass
      && r.calls == [Invocation(headers[TemplatizeKey := "true"], body, Bind(vars, e))]
      && r.body == body
  {
    var h := headers[TemplatizeKey := "true"];
    assert "minCount" !in h && "maxCount" !in h;
    assert Lookup(h, "api", "edge") == Lookup(headers, "api", "edge");
    assert Lookup(h, "type", "") == Lookup(headers, "type", "");
    assert Lookup(h, "filter", "") == Lookup(headers, "filter", "");
    var config := ResolveConfig(h).config;
    assert config.minCount == 1 && config.maxCount == 1;
    InWindowRuns(headers, body, vars, list, nested, config, [e]);
    SuccessRunsEachEntity(headers, body, vars, list, nested, config, [e]);
  }

  /** Every successful run leaves the body as it found it. */
  lemma SuccessKeepsBody(headers: map<string, string>, body: string, vars: map<string, string>,
                         list: Lister, nested: NestedAction)
    requires ForEach(headers, body, vars, list, nested).outcome.Pass?
    ensures ForEach(headers, body, vars, list, nested).body == body
  {
    var h := headers[TemplatizeKey := "true"];
    match ResolveConfig(h)
    case Stop(_) =>
    case Proceed(config) =>
      match list(config.request)
      case ListFailed(_) =>
      case Listed(entities) =>
        if config.minCount <= |entities| <= config.maxCount {
          LoopPassRestores(h, entities, body, nested, 0, body, vars);
        }
  }

  /** The example of two entities `(a, A)` and `(b, B)` with `maxCount` 2:
      two nested calls, in order, and the body restored. */
  lemma TwoEntities(headers: map<string, string>, body: string, vars: map<string, string>,
                    list: Lister, nested: NestedAction)
    requires "minCount" !in headers && "maxCount" in headers && headers["maxCount"] == "2"
    requires list(ListRequest(Lookup(headers, "api", "edge"), Lookup(headers, "type", ""), Lookup(headers, "filter", "")))
          == Listed([Entity("a", "A"), Entity("b", "B")])
    requires forall k, c :: nested(k, c).StepOk?
    ensures var r := ForEach(headers, body, vars, list, nested);
      && r.outcome == Pass && |r.calls| == 2
      && Binds(r.calls[0].vars, Entity("a", "A")) && Binds(r.calls[1].vars, Entity("b", "B"))
      && r.body == body
  {
    assert Strconv.Atoi("2") == Strconv.Some(2) by { Strconv.AtoiItoa(2); }
    var h := headers[TemplatizeKey := "true"];
    assert "maxCount" in h && h["maxCount"] == "2" && "minCount" !in h;
    var config := ResolveConfig(h).config;
    assert config.minCount == 1 && config.maxCount == 2;
    var entities := [Entity("a", "A"), Entity("b", "B")];
    var l := Loop(h, entities, body, nested, 0, body, vars);
    assert l.outcome == Pass;
    SuccessRunsEachEntity(headers, body, vars, list, nested, config, entities);
  }
}
