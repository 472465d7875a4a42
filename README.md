# ForEach action of runzmd-ziti, in Dafny

This project models the ForEach action, `ZitiForEach.Execute` in
`actionz/ziti_for_each.go`. Given an action context, the action does the
following:

1. It marks the block for templating (`templatize` = `"true"`).
2. It reads its configuration headers: `api` (default `edge`), `type`,
   `filter`, `minCount` (default 1) and `maxCount` (default 1).
3. It lists the entities through an external lister.
4. It rejects a listing whose size is outside `[minCount, maxCount]`.
5. It runs a nested action once per entity, in list order. Before each
   run it binds the runner variables `entityId` and `entityName`. After a
   successful run it clears them and restores the request body to the
   body it had before the loop. The first failing run ends the action
   with that run's error.

The project has three modules:

- `Strconv` models Go's `strconv.Atoi` on a 64-bit platform: an optional
  sign, at least one decimal digit, and a value that fits in `int`. It
  also gives an `Itoa` and proves the round trip.
- `ZitiForEach` holds the data model and the action itself:
  - `ActionContext` is a class with `headers`, `body` and `vars` fields.
    Its two ghost fields record the lister requests made and the nested
    calls made.
  - `Execute` is the step-by-step procedure. Its stages are the methods
    `ReadConfig` (header stage), `RunEach` (the loop) and `RunEntity`
    (one iteration).
  - `ForEach` is the reference definition of a whole run. It is built
    from `ResolveConfig`, `ListAndRun` and the recursive `Loop`.
    `Execute` is proved to leave exactly the state and outcome that
    `ForEach` describes.
- `ZitiForEachLemmas` proves the action's properties about `ForEach`.
  Because of `Execute`'s postcondition, they hold for every run of
  `Execute`.

The lister and the nested action are function parameters. The lister
maps `(api, type, filter)` to an error or to a sequence of
`(id, name)` entities. The nested action maps a call index and what it
sees of the context to a success or a failure, together with the body it
leaves behind. An error is a tagged `Outcome`, not a message string.

Two behaviours of the code are easy to miss, and the model keeps both as
written:

- The `type` header is read with a plain map index
  (`actionz/ziti_for_each.go:33`). A missing `type` therefore lists with
  the empty string rather than failing.
- A negative `minCount`, or an explicit `maxCount` below `minCount`,
  returns success. Their messages ("must >= 0" at
  `actionz/ziti_for_each.go:44`, "must >= minCount" at line 56) show that
  these branches are meant to fail. But each passes the `err` of the
  successful `strconv.Atoi` just before it to `errors.Wrapf`. That `err`
  is nil, and wrapping nil gives nil. So both branches return success
  without listing or running anything.
  `ZitiForEachLemmas.WrappedNilSucceeds` states this behaviour.

## Model

| member | source | states |
|---|---|---|
| Strconv.Atoi | actionz/ziti_for_each.go:39 | a parse succeeds only on an optional sign followed by one or more digits, with a value inside Go's 64-bit `int` range; the value is the digits' decimal value, negated after a leading `-` |
| Strconv.AtoiItoa | actionz/ziti_for_each.go:39 | every `int` in range parses back from its own decimal rendering |
| Strconv.AtoiAccepts | actionz/ziti_for_each.go:39 | any optional sign followed by one or more digits whose value fits in `int` parses to that value, including non-canonical text such as `+5` or `007` |
| Strconv.AtoiRejectsNonDigit | actionz/ziti_for_each.go:39-42 | a character that is neither a digit nor a leading sign makes the parse fail |
| ZitiForEach.ResolveConfig | actionz/ziti_for_each.go:29-59 | on proceeding, the lister gets `api` (default `edge`), `type` and `filter` (default empty); each count is its header's parsed value, or 1 without the header; `minCount` is at least 0 and at most an explicit `maxCount`; on stopping, the outcome is success or the parse error of `minCount` or `maxCount` |
| ZitiForEach.ReadConfig | actionz/ziti_for_each.go:29-59 | the header stage with its early returns yields exactly the resolution of `ResolveConfig` |
| ZitiForEach.Loop | actionz/ziti_for_each.go:74-89 | the loop makes at most one nested call per remaining entity; it makes exactly one per entity when it succeeds; it fails only with a nested error and after at least one call |
| ZitiForEach.ListAndRun | actionz/ziti_for_each.go:61-89 | the lister is called once with the resolved request; nested calls happen only if the run succeeds or fails in the nested action; a successful run made between `minCount` and `maxCount` calls |
| ZitiForEach.ForEach | actionz/ziti_for_each.go:27-92 | `templatize` is set on every run; the lister is called at most once, and any nested call implies that one listing; a run that lists nothing leaves body and variables untouched |
| ZitiForEach.Execute | actionz/ziti_for_each.go:27-92 | the outcome, the headers, body and variables left, the lister requests and the nested calls are exactly those of `ForEach` on the context as found |
| ZitiForEach.RunEach | actionz/ziti_for_each.go:74-91 | the imperative loop leaves the outcome, body, variables and nested calls of `Loop` from entity 0; headers and lister requests are unchanged |
| ZitiForEach.RunEntity | actionz/ziti_for_each.go:81-88 | one iteration calls the nested action once with the entity bound; a failure leaves the entity bound and the body that the call left; a success clears both variables and restores the pre-loop body |
| ZitiForEach.LoopStep | actionz/ziti_for_each.go:81-88 | one iteration of `Loop` either stops with the nested error or continues from the next entity with both variables cleared |
| ZitiForEachLemmas.BindSetsEntity | actionz/ziti_for_each.go:81-82 | binding adds exactly `entityId` and `entityName` with the entity's `id` and `name`, and keeps every other variable |
| ZitiForEachLemmas.UnbindClearsEntity | actionz/ziti_for_each.go:86-87 | clearing removes exactly `entityId` and `entityName` and keeps every other variable |
| ZitiForEachLemmas.RebindAfterClear | actionz/ziti_for_each.go:81-87 | binding an entity over variables cleared after an earlier bind gives the same variables as binding it over the originals |
| ZitiForEachLemmas.ClearAfterBind | actionz/ziti_for_each.go:81-87 | clearing both entity variables after binding them forgets the bind |
| ZitiForEachLemmas.ClearTwice | actionz/ziti_for_each.go:86-87 | clearing both entity variables twice is clearing them once |
| ZitiForEachLemmas.LoopCallAt | actionz/ziti_for_each.go:76-83 | call j of a loop started at entity i carries the headers, the body the loop started with (call 0) or the pre-loop body (later calls), and entity `i + j` bound over the caller's variables |
| ZitiForEachLemmas.LoopCallSucceeded | actionz/ziti_for_each.go:83-85 | every nested call before the last one, and every call of a successful loop, succeeded |
| ZitiForEachLemmas.LoopPassRestores | actionz/ziti_for_each.go:86-88 | a successful loop leaves the pre-loop body and the caller's variables without `entityId` and `entityName` (over no entity, body and variables exactly as found) |
| ZitiForEachLemmas.LoopFailStops | actionz/ziti_for_each.go:83-85 | a failed loop ends at its last call, that call failed with the returned error, the body is what it left, and its entity stays bound |
| ZitiForEachLemmas.AllOkLoopPasses | actionz/ziti_for_each.go:76-91 | a loop whose every nested call, each with its entity bound over the caller's variables and the pre-loop body, succeeds passes |
| ZitiForEachLemmas.LoopCalls | actionz/ziti_for_each.go:76-83 | every call of the loop carries the headers, the pre-loop body and its entity bound over the caller's variables |
| ZitiForEachLemmas.LoopCallsSucceeded | actionz/ziti_for_each.go:83-85 | every call of the loop succeeded, except the last call of a loop that failed |
| ZitiForEachLemmas.LoopSuccess | actionz/ziti_for_each.go:74-89 | a successful loop made one call per entity, in order, each with the headers, the pre-loop body and that entity bound over the caller's variables; it leaves the pre-loop body and, over at least one entity, the caller's variables without `entityId` and `entityName` |
| ZitiForEachLemmas.LoopFailure | actionz/ziti_for_each.go:76-85 | a failed loop made successful calls up to the failing one, each with the headers, the pre-loop body and its entity bound over the caller's variables, and it leaves the failing entity bound |
| ZitiForEachLemmas.UnparsableMinCount | actionz/ziti_for_each.go:38-42 | a `minCount` that does not parse fails with its value; only `templatize` changed and nothing was listed or run |
| ZitiForEachLemmas.UnparsableMaxCount | actionz/ziti_for_each.go:50-54 | an accepted `minCount` followed by a `maxCount` that does not parse fails with its value; nothing was listed or run |
| ZitiForEachLemmas.ValidCountsProceed | actionz/ziti_for_each.go:29-59 | counts that parse, with `minCount` at least 0 and an explicit `maxCount` at least `minCount`, proceed with the parsed (or default) counts as the window and the looked-up `api`, `type` and `filter` |
| ZitiForEachLemmas.WrappedNilSucceeds | actionz/ziti_for_each.go:37-57 | a negative `minCount`, or an explicit `maxCount` below `minCount`, returns success; only `templatize` changed and nothing was listed or run |
| ZitiForEachLemmas.OutsideWindowFails | actionz/ziti_for_each.go:61-72 | a failed listing returns the lister's own error; too few entities return `TooFew` with `minCount` and the count, checked before too many, which return `TooMany` with `maxCount` and the count; each fails after the one listing with no nested call and with body and variables untouched |
| ZitiForEachLemmas.InWindowRuns | actionz/ziti_for_each.go:66-91 | a listing inside `[minCount, maxCount]` reaches the loop: the run passes or fails in the nested action, and it passes exactly when the nested action succeeds on every entity bound over the caller's variables with the original body |
| ZitiForEachLemmas.SingleEntityByDefault | actionz/ziti_for_each.go:37-91 | without `minCount` and `maxCount` headers, one listed entity whose nested run succeeds gives success after exactly one nested call with that entity bound, and the body is restored |
| ZitiForEachLemmas.MinAboveDefaultMaxFails | actionz/ziti_for_each.go:49-72 | a `minCount` above 1 without a `maxCount` header always fails, and the nested action never runs |
| ZitiForEachLemmas.SuccessRunsEachEntity | actionz/ziti_for_each.go:74-91 | a successful run calls the nested action once per listed entity, in order, each with the marked headers, the original body and that entity's `id` and `name` bound over the caller's variables; afterwards the body is restored and, over at least one entity, the variables are the caller's without `entityId` and `entityName` |
| ZitiForEachLemmas.NestedFailureStops | actionz/ziti_for_each.go:76-85 | the first nested failure is the returned error: every call up to it had the marked headers, the original body and its entity bound over the caller's variables; earlier calls succeeded, no later entity is processed, and the failing entity stays bound |
| ZitiForEachLemmas.SuccessKeepsBody | actionz/ziti_for_each.go:75-91 | every successful run leaves the body as it found it |
| ZitiForEachLemmas.TwoEntities | actionz/ziti_for_each.go:27-92 | with `maxCount` 2 and two listed entities whose runs succeed, the nested action runs twice, first with `(a, A)` and then with `(b, B)`, and the body is restored |

## Left out

- `actionz/keep_session_alive.go` is not part of this model. It is a detached goroutine on a timer that makes fire-and-forget calls and prints to standard output.
- `zitiList`, `runZitiJson` and `wrapGabs` are not part of this model. They run an external command and parse JSON. The lister parameter stands for them, and it returns entities already reduced to their `id` and `name` strings.
- `ZitiRunnerAction.Execute` is the nested action. It dispatches back into the host and is not part of this model; the nested-action parameter stands for it.
- The nested action sees the headers, body and variables and leaves only a new body. The model does not capture a nested action that changes the headers or the runner's variables, or one that keeps a reference to the context.
- The runner's `AddVariable` and `ClearVariable` are modelled as inserting a key into, and removing a key from, a `map<string, string>`. Templating with those variables belongs to the host and is left out.
- The text of error messages is left out: `errors.Wrapf` and `errors.Errorf` are modelled as tagged errors that carry the offending value or count.
- Strconv.Atoi: models `int` as 64 bits. Go's `int` has the platform's word size, so the overflow bound is 32-bit on 32-bit platforms.
