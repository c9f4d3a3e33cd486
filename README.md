# Transform engine of the parser package: a Dafny model

This project models the transform engine of the parser package: a `Transform` with a
`name`, a `transform` (a shorthand naming an item kind or a transform function), a
`passthru` flag and an append-only `PluginStore`. The behaviour follows the transform
test suite (`packages/lib/parser/src/transform/transform.test.js`), which is the only
source of the engine's behaviour modelled here. The implementation files (`transform.js`,
`plugin-store.js`, `plugin.js`) and the test helpers are not part of this model.

- `wrappers.dfy`, module `Wrappers`: `Result` and `Outcome`. A thrown error or a rejected
  promise becomes a `Failure`.
- `errors.dfy`, module `Errors`: the four error tags. `[invalid-properties]` also says
  whether the transform or a plugin was at fault.
- `items.dfy`, module `Items`: items (objects or primitives) and collection kinds
  (generic, files, components). A collection is a kind tag plus the items in order.
  `ToCollection` wraps a bare array or returns a collection unchanged.
- `descriptors.dfy`, module `Descriptors`: the loosely typed descriptors. Each field is
  missing, well typed, or of the wrong type. It also holds the stored `Plugin` and
  `TransformState`, the value view of a transform.
- `plugin_store.dfy`, module `PluginStores`: plugin validation and `class PluginStore`,
  whose `Add` appends in order.
- `pipeline.dfy`, module `Pipelines`: one `run` as pure functions, with its properties.
  `Resolve` turns the raw items into the working collection. `Step` runs one plugin.
  `Pipeline` is the left-to-right fold over the plugins. `Execute` is the whole run with
  its event trace.
- `transform.dfy`, module `Transforms`: construction as a value (`Construct`) and
  `class Transform`, whose methods are `New` (the constructor that can fail), `From`,
  `AddPlugin` and `Run`. `Run` is a loop over the plugins. It is proved to compute
  exactly `Execute`.
- `transform_tests.dfy`, module `TransformTests`: the suite's scenarios, replayed on the
  model. Its fixtures stand in for the helpers the suite imports.

Design choices the suite leaves open:
- `transform.start` is emitted before the raw items are resolved. A run whose transform
  function fails therefore emits exactly that one event.
- A transform function's target is the generic collection. Any collection it returns is
  kept unchanged, since every specialised collection is a generic one.
- A shorthand selects the collection it names. `"files"` and `"components"` select the
  specialised ones; any other shorthand selects the generic one.
- A plugin joins a shorthand transform only if its declared kind equals the shorthand.
  A function transform accepts a plugin of any kind.
- A plugin handler must return an array of objects. Anything else is
  `[plugin-return-invalid]`.
- `Transform.from` of an existing transform builds a new transform with its own store,
  holding the same plugins.

## Model

| member | source | states |
|---|---|---|
| Errors.TagText | packages/lib/parser/src/transform/transform.test.js:209-232 | every error message carries a bracketed tag |
| Errors.TagTextIdentifiesKind | packages/lib/parser/src/transform/transform.test.js:209-232 | two errors carry the same tag exactly when they are of the same kind |
| Items.KindOf | packages/lib/parser/src/transform/transform.test.js:243-254 | a shorthand selects the file collection exactly when it is `"files"` and the component collection exactly when it is `"components"`; any other shorthand selects the generic one |
| Items.ToCollection | packages/lib/parser/src/transform/transform.test.js:243-254 | the result is an instance of the requested kind and holds the same items in order; an existing instance comes back unchanged |
| Items.ToCollectionIdempotent | packages/lib/parser/src/transform/transform.test.js:249-253 | wrapping a wrapped result again returns it unchanged (no double wrapping) |
| PluginStores.CompatibleKinds | packages/lib/parser/src/transform/transform.test.js:29-33 | a transform function accepts a plugin of any non-empty kind (the `'files'` plugin joins the `toC` transform); a shorthand transform accepts only plugins of its own kind |
| PluginStores.Admit | packages/lib/parser/src/transform/transform.test.js:110-111 | a plugin descriptor is accepted exactly when its name, declared kind and handler are valid; a stored plugin keeps exactly the descriptor's fields; a bad one is an `[invalid-properties]` error that blames the plugin |
| PluginStores.AdmitDescribed | packages/lib/parser/src/transform/transform.test.js:261-265 | a stored plugin, read back as a descriptor, is admitted as itself |
| PluginStores.AdmitAll | packages/lib/parser/src/transform/transform.test.js:107-108 | a list of descriptors becomes a list of plugins of the same length, each the admission of the descriptor at the same position |
| PluginStores.DescribeAll | packages/lib/parser/src/transform/transform.test.js:261-265 | the descriptors read back from stored plugins, one per plugin, in order |
| PluginStores.ReadmitRoundTrip | packages/lib/parser/src/transform/transform.test.js:261-265 | re-registering the descriptors of stored plugins succeeds and gives back the same plugins |
| PluginStores.AdmitAllSnoc | packages/lib/parser/src/transform/transform.test.js:107-108 | admitting one more descriptor appends its plugin at the end |
| PluginStores.PluginStore.constructor | packages/lib/parser/src/transform/transform.test.js:85 | a new store is empty |
| PluginStores.PluginStore.Add | packages/lib/parser/src/transform/transform.test.js:102-111 | the store fails exactly when some member is invalid; on success it appends every member's plugin in order and keeps the earlier ones; on failure it keeps the earlier plugins and at most a run of valid leading members |
| Pipelines.Resolve | packages/lib/parser/src/transform/transform.test.js:205-224 | a shorthand wraps the raw items unchecked; a returned collection is kept; a returned array of objects is wrapped; an array holding a non-object is `[items-invalid]` and nothing else; any other return value is `[transform-function-invalid]` and nothing else |
| Pipelines.Step | packages/lib/parser/src/transform/transform.test.js:225-232 | a plugin stage succeeds exactly when the handler returns an array of objects, giving those items in a collection of the same kind; otherwise it is `[plugin-return-invalid]` |
| Pipelines.Pipeline | packages/lib/parser/src/transform/transform.test.js:128-143 | the plugin pipeline keeps the collection kind on success, and its only failure is `[plugin-return-invalid]` |
| Pipelines.Execute | packages/lib/parser/src/transform/transform.test.js:145-204 | a run never fails with `[invalid-properties]`, and with an emitter its first event is `transform.start` |
| Pipelines.PipelineSuccessEvents | packages/lib/parser/src/transform/transform.test.js:167-204 | a successful pipeline emits one `plugin.start`/`plugin.complete` pair per plugin, in registration order, and nothing without an emitter |
| Pipelines.PipelineFailsAtOnePlugin | packages/lib/parser/src/transform/transform.test.js:225-232 | a failed pipeline failed at one plugin: every earlier plugin succeeded, and the events stop at that plugin's `plugin.start`, so no later plugin ran |
| Pipelines.PipelineComposes | packages/lib/parser/src/transform/transform.test.js:128-143 | running plugins `ps + qs` is running `ps` and then feeding its output to `qs`; a failure in `ps` ends the run there |
| Pipelines.PipelineSilent | packages/lib/parser/src/transform/transform.test.js:122-143 | without an emitter a pipeline emits nothing |
| Pipelines.ApplyAll | packages/lib/parser/src/transform/transform.test.js:128-143 | the item maps of successive plugins, applied first to last |
| Pipelines.MappingPipeline | packages/lib/parser/src/transform/transform.test.js:128-143 | plugins that each map every item succeed, and keep the number, order and kind of items; each item has passed through every map in registration order |
| Pipelines.SuccessfulRunEvents | packages/lib/parser/src/transform/transform.test.js:145-204 | a successful run with N plugins emits exactly 2 + 2N events: `transform.start`, then a start/complete pair per plugin in order, then `transform.complete` carrying the result |
| Pipelines.RunSilent | packages/lib/parser/src/transform/transform.test.js:122-143 | without an emitter a run emits nothing, whatever its outcome |
| Pipelines.FailedRunEvents | packages/lib/parser/src/transform/transform.test.js:209-232 | a failed run carries exactly one of the three run-time tags. `[items-invalid]` and `[transform-function-invalid]` leave `transform.start` as the only event. `[plugin-return-invalid]` comes from one plugin after all earlier ones succeeded. No `transform.complete` is emitted |
| Pipelines.RunWithoutPlugins | packages/lib/parser/src/transform/transform.test.js:122-126 | with no plugins the result is the resolved collection; for a shorthand, the raw items with the same length and order |
| Pipelines.RunMapsEachItem | packages/lib/parser/src/transform/transform.test.js:128-143 | when every plugin maps each item, the run succeeds and keeps the number and order of items, each passed through all the maps |
| Transforms.Construct | packages/lib/parser/src/transform/transform.test.js:72-80 | a constructed transform satisfies the invariant (non-empty name, usable transform, compatible plugins); every construction error is `[invalid-properties]` |
| Transforms.ConstructionValidates | packages/lib/parser/src/transform/transform.test.js:72-88 | construction succeeds exactly for an object descriptor with a non-empty name, a non-empty shorthand or a function, and valid initial plugins; it keeps name and transform as given, passthru as given when it is `true` (false otherwise) and the plugins in order |
| Transforms.ReconstructRoundTrip | packages/lib/parser/src/transform/transform.test.js:261-265 | constructing from an existing transform never fails and reproduces all its fields and plugins |
| Transforms.Transform.Init | packages/lib/parser/src/transform/transform.test.js:81-88 | field assignment keeps the given name, transform and passthru, and starts with a fresh empty plugin store |
| Transforms.Transform.New | packages/lib/parser/src/transform/transform.test.js:68-88 | `new Transform(arg)` fails with the error `Construct` gives, or yields a fresh valid transform whose value is the one `Construct` gives |
| Transforms.Transform.From | packages/lib/parser/src/transform/transform.test.js:256-266 | from a descriptor it behaves as the constructor (same result, a fresh transform with a fresh store); from an existing transform it always succeeds with a new, separate transform with its own store and the same value |
| Transforms.Transform.AddPlugin | packages/lib/parser/src/transform/transform.test.js:98-112 | on success it returns this very transform, with the new plugins appended in order; it fails, with an `[invalid-properties]` error blaming the plugin, exactly when some given plugin is invalid |
| Transforms.Transform.Run | packages/lib/parser/src/transform/transform.test.js:122-232 | the loop over the plugins yields exactly the result and the event trace of `Execute` |
| TransformTests.ConstructorValidatesInput | packages/lib/parser/src/transform/transform.test.js:72-80 | no argument, a string, a descriptor without a transform and one with an invalid plugin are refused; descriptors with no plugin, one plugin or a list are accepted |
| TransformTests.ConstructorAssignsFields | packages/lib/parser/src/transform/transform.test.js:81-88 | the file-collection transform keeps its name, transform function and `passthru: true`, with no plugins |
| TransformTests.RunWithoutPluginsEmitsTwoEvents | packages/lib/parser/src/transform/transform.test.js:145-165 | three files give a file collection of length 3 and exactly the two transform events |
| TransformTests.RunWithTaggingPlugin | packages/lib/parser/src/transform/transform.test.js:128-143 | the Red and Blue records come back in order, each with `tested: true`, in a generic collection, with four events |
| TransformTests.RunOutcomes | packages/lib/parser/src/transform/transform.test.js:205-232 | an array of objects is accepted; `['ss']` is `[items-invalid]`; `undefined` is `[transform-function-invalid]`; a plugin returning a non-array is `[plugin-return-invalid]` |
| TransformTests.MarkTested | packages/lib/parser/src/transform/transform.test.js:21-27 | the tagging plugin's per-item map yields an object with `tested: true` that keeps every other field of an object item |
| TransformTests.TestedPluginMapsEach | packages/lib/parser/src/transform/transform.test.js:21-27 | the tagging plugin's handler maps every item through `MarkTested`, keeping count and order |
| TransformTests.AddPluginReturnsItself | packages/lib/parser/src/transform/transform.test.js:98-112 | `addPlugin` returns the transform itself for a single plugin and for a list, and fails with `[invalid-properties]` for an invalid plugin |
| TransformTests.FromDescriptorAndInstance | packages/lib/parser/src/transform/transform.test.js:256-266 | `Transform.from` builds a transform from a descriptor and, from that transform, a new separate one with its own store and the same value |
| TransformTests.ToCollectionScenarios | packages/lib/parser/src/transform/transform.test.js:243-254 | an empty array becomes an empty generic collection; a component collection comes back unchanged |

## Left out

- Promises and `async`: `run` is modelled as a synchronous method that returns a `Result`. That `run()` returns a promise is a host-language detail.
- The event emitter and its listeners: each emission appends `(event, payload)` to the returned trace. Listener dispatch and fire-and-forget delivery are not modelled. The `transform: this` in a payload is the transform's value.
- The collection library (`Collection`, `FileCollection`, `ComponentCollection`, `File`) is not part of this model. A collection is a kind tag plus its items, and a file is an object with a `path` field.
- `passthru` is stored and kept, but no check of `run` depends on it. The suite applies the same "objects only" check to passthru transforms, and a non-passthru transform accepts plain objects from a plugin. The stricter item-type check of non-passthru transforms would need the item classes, which are not part of this model.
- PluginStores.PluginStore.Add: on a failed list it does not say whether the valid leading members stay registered. It allows both that and all-or-nothing, because the suite does not pin the behaviour down.
- Transforms.Transform.AddPlugin: the same open point on a failed list, inherited from the store's `add`.
- A `plugins` property of the wrong type is refused as an invalid plugin.
- A `passthru` property of the wrong type does not make construction fail; it is read as false. Only `true` turns passthru on.
- Transform functions and plugin handlers are total functions that cannot throw (`Pipelines.Resolve`, `Pipelines.Step`). In the program, a function or handler that throws makes `run` reject with that error, which is none of the three tags. `Pipelines.FailedRunEvents`' "one of the three run-time tags" holds only under this abstraction.
- `context` and `config` reach only the transform function. Plugins see only the items.
- `Object.assign` over a string primitive would also copy the string's characters. `TransformTests.MarkTested` drops them, and the suite only passes it objects.
- The test helpers' fixtures (`validPlugin`, `invalidPlugin`, `toFC`, `toC`, `invalidTransform`, ...) are not part of this model. `TransformTests` defines stand-ins with the shapes the suite relies on.
- `Symbol.toStringTag`, `instanceof` checks, spies and module stubbing are test and reflection machinery.
- `packages/lib/config/src/accessors/packages-loader.test.js`: a map over a package-loader module that is not part of this model.
