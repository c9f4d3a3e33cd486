/** What one `run` computes, as functions: resolving the raw items into a
    collection, feeding it through the plugins in order, and the events
    emitted along the way. The `Transform.Run` method is proved to compute
    exactly `Execute`. */
module Pipelines {
  import opened Wrappers
  import opened Errors
  import opened Items
  import opened Descriptors

  /** An emitted event with its payload; `transform` is the running
      transform, seen as its value. */
  datatype Event =
    | TransformStart(transform: TransformState)
    | PluginStart(plugin: Plugin, transform: TransformState)
    | PluginComplete(plugin: Plugin, transform: TransformState)
    | TransformComplete(transform: TransformState, collection: Collection)

  /** What a run yields and the events it emitted, in order. */
  datatype Trace = Trace(result: Result<Collection, ErrorTag>, events: seq<Event>)

  /** The event as it reaches the emitter: not at all when there is none. */
  function Emit(emit: bool, e: Event): seq<Event>
  {
    if emit then [e] else []
  }

  /** Turn the raw items into the working collection. A shorthand wraps them
      in the collection it names, unchecked; a transform function's result is
      checked: a collection is kept as it is, an array must hold objects only
      and is wrapped in a generic collection, anything else is refused. */
  function Resolve(fn: TransformFn, raw: seq<Item>, context: Record, config: Record): (r: Result<Collection, ErrorTag>)
    ensures fn.Shorthand? ==> r == Success(Collection(KindOf(fn.kind), raw))
    ensures fn.Mapper? ==> var out := fn.fn(raw, context, config);
      && (r == Failure(TransformFunctionInvalid) <==> out.OtherOut?)
      && (r == Failure(ItemsInvalid) <==> out.ArrayOut? && !AllObjects(out.items))
      && (out.CollectionOut? ==> r == Success(out.collection))
      && (out.ArrayOut? && AllObjects(out.items) ==> r == Success(Collection(Generic, out.items)))
  {
    match fn
    case Shorthand(kind) => Success(ToCollection(Bare(raw), KindOf(kind)))
    case Mapper(f) =>
      match f(raw, context, config)
      case CollectionOut(c) => Success(ToCollection(Wrapped(c), Generic))
      case ArrayOut(xs) =>
        if AllObjects(xs) then Success(ToCollection(Bare(xs), Generic)) else Failure(ItemsInvalid)
      case OtherOut => Failure(TransformFunctionInvalid)
  }

  /** One plugin stage: the handler sees the working collection's items and
      must return an array of objects, which is re-wrapped into a collection
      of the same kind. */
  function Step(c: Collection, p: Plugin): (r: Result<Collection, ErrorTag>)
    ensures r.Success? <==> p.handler(c.items).ArrayOut? && AllObjects(p.handler(c.items).items)
    ensures r.Success? ==> r.value == Collection(c.kind, p.handler(c.items).items)
    ensures r.Failure? ==> r.error == PluginReturnInvalid
  {
    match p.handler(c.items)
    case ArrayOut(ys) =>
      if AllObjects(ys) then Success(ToCollection(Bare(ys), c.kind)) else Failure(PluginReturnInvalid)
    case _ => Failure(PluginReturnInvalid)
  }

  /** The plugins in order, each fed the previous one's output; the first
      failing stage ends the pipeline. */
  function Pipeline(s: TransformState, c: Collection, ps: seq<Plugin>, emit: bool): (t: Trace)
    ensures t.result.Success? ==> t.result.value.kind == c.kind
    ensures t.result.Failure? ==> t.result.error == PluginReturnInvalid
    decreases |ps|
  {
    if ps == [] then Trace(Success(c), [])
    else
      var started := Emit(emit, PluginStart(ps[0], s));
      match Step(c, ps[0])
      case Failure(e) => Trace(Failure(e), started)
      case Success(next) =>
        var rest := Pipeline(s, next, ps[1..], emit);
        Trace(rest.result, started + Emit(emit, PluginComplete(ps[0], s)) + rest.events)
  }

  /** A whole run of transform `s`: `transform.start`, resolution, the
      plugin pipeline, and `transform.complete` when everything succeeded. */
  function Execute(s: TransformState, raw: seq<Item>, context: Record, config: Record, emit: bool): (t: Trace)
    ensures t.result.Failure? ==> !t.result.error.InvalidProperties?
    ensures emit ==> |t.events| >= 1 && t.events[0] == TransformStart(s)
  {
    var start := Emit(emit, TransformStart(s));
    match Resolve(s.transform, raw, context, config)
    case Failure(e) => Trace(Failure(e), start)
    case Success(c) =>
      var run := Pipeline(s, c, s.plugins, emit);
      if run.result.Failure? then Trace(run.result, start + run.events)
      else Trace(run.result, start + run.events + Emit(emit, TransformComplete(s, run.result.value)))
  }

  // ---------------------------------------------------------------------
  // The pipeline, stage by stage

  /** A successful pipeline emits one `plugin.start`/`plugin.complete` pair
      per plugin, in registration order. */
  lemma {:induction false} PipelineSuccessEvents(s: TransformState, c: Collection, ps: seq<Plugin>, emit: bool)
    requires Pipeline(s, c, ps, emit).result.Success?
    ensures var evs := Pipeline(s, c, ps, emit).events;
      && |evs| == (if emit then 2 * |ps| else 0)
      && (emit ==> forall k :: 0 <= k < |ps| ==>
            evs[2 * k] == PluginStart(ps[k], s) && evs[2 * k + 1] == PluginComplete(ps[k], s))
    decreases |ps|
  {
    if ps != [] {
      var next := Step(c, ps[0]).value;
      PipelineSuccessEvents(s, next, ps[1..], emit);
      var evs, rest := Pipeline(s, c, ps, emit).events, Pipeline(s, next, ps[1..], emit).events;
      if emit {
        assert evs == [PluginStart(ps[0], s), PluginComplete(ps[0], s)] + rest;
        forall k | 1 <= k < |ps|
          ensures evs[2 * k] == PluginStart(ps[k], s) && evs[2 * k + 1] == PluginComplete(ps[k], s)
        {
          assert ps[1..][k - 1] == ps[k];
          assert evs[2 * k] == rest[2 * (k - 1)];
          assert evs[2 * k + 1] == rest[2 * (k - 1) + 1];
        }
      }
    }
  }

  /** A failed pipeline failed at one plugin `n`: the plugins before it all
      succeeded, plugin `n`'s output was refused, and no later plugin ran:
      the events stop at plugin `n`'s `plugin.start`. */
  lemma {:induction false} PipelineFailsAtOnePlugin(s: TransformState, c: Collection, ps: seq<Plugin>, emit: bool)
    requires Pipeline(s, c, ps, emit).result.Failure?
    ensures exists n ::
              && 0 <= n < |ps|
              && Pipeline(s, c, ps[..n], emit).result.Success?
              && Step(Pipeline(s, c, ps[..n], emit).result.value, ps[n]).Failure?
              && Pipeline(s, c, ps, emit).events == Pipeline(s, c, ps[..n], emit).events + Emit(emit, PluginStart(ps[n], s))
    decreases |ps|
  {
    assert ps[..0] == [];
    match Step(c, ps[0])
    case Failure(_) =>
      assert Pipeline(s, c, ps[..0], emit) == Trace(Success(c), []);
    case Success(next) =>
      PipelineFailsAtOnePlugin(s, next, ps[1..], emit);
      var m :| 0 <= m < |ps[1..]|
        && Pipeline(s, next, ps[1..][..m], emit).result.Success?
        && Step(Pipeline(s, next, ps[1..][..m], emit).result.value, ps[1..][m]).Failure?
        && Pipeline(s, next, ps[1..], emit).events == Pipeline(s, next, ps[1..][..m], emit).events + Emit(emit, PluginStart(ps[1..][m], s));
      var n := m + 1;
      assert ps[..n][0] == ps[0] && ps[..n][1..] == ps[1..][..m];
      assert ps[1..][m] == ps[n];
      assert Pipeline(s, c, ps[..n], emit).result == Pipeline(s, next, ps[1..][..m], emit).result;
  }

  /** Running plugins `ps` and then `qs` is running `ps + qs`: the second
      group receives exactly the first group's output. */
  lemma {:induction false} PipelineComposes(s: TransformState, c: Collection, ps: seq<Plugin>, qs: seq<Plugin>, emit: bool)
    ensures var first := Pipeline(s, c, ps, emit);
      Pipeline(s, c, ps + qs, emit) ==
        if first.result.Failure? then first
        else var second := Pipeline(s, first.result.value, qs, emit);
          Trace(second.result, first.events + second.events)
    decreases |ps|
  {
    if ps == [] {
      assert ps + qs == qs;
    } else {
      assert (ps + qs)[0] == ps[0] && (ps + qs)[1..] == ps[1..] + qs;
      match Step(c, ps[0])
      case Failure(_) =>
      case Success(next) =>
        PipelineComposes(s, next, ps[1..], qs, emit);
    }
  }

  /** Without an emitter a pipeline emits nothing. */
  lemma {:induction false} PipelineSilent(s: TransformState, c: Collection, ps: seq<Plugin>)
    ensures Pipeline(s, c, ps, false).events == []
    decreases |ps|
  {
    if ps != [] {
      match Step(c, ps[0])
      case Failure(_) =>
      case Success(next) =>
        PipelineSilent(s, next, ps[1..]);
    }
  }

  /** Apply item maps one after the other, first to last. */
  function ApplyAll(fs: seq<Item -> Item>, x: Item): Item
    decreases |fs|
  {
    if fs == [] then x else ApplyAll(fs[1..], fs[0](x))
  }

  /** Handler `h` maps every item through `f` (keeping length and order),
      and `f` always yields an object. */
  ghost predicate MapsEach(h: Handler, f: Item -> Item)
  {
    && (forall x :: f(x).Obj?)
    && (forall xs :: h(xs) == ArrayOut(MapItems(f, xs)))
  }

  /** Plugins that each map every item succeed, and the result holds, in
      the original order, every item passed through all the maps in
      registration order. */
  lemma {:induction false} MappingPipeline(s: TransformState, c: Collection, ps: seq<Plugin>, fs: seq<Item -> Item>, emit: bool)
    requires |fs| == |ps|
    requires forall k :: 0 <= k < |ps| ==> MapsEach(ps[k].handler, fs[k])
    ensures var t := Pipeline(s, c, ps, emit);
      && t.result.Success?
      && t.result.value.kind == c.kind
      && |t.result.value.items| == |c.items|
      && forall j :: 0 <= j < |c.items| ==> t.result.value.items[j] == ApplyAll(fs, c.items[j])
    decreases |ps|
  {
    if ps != [] {
      assert MapsEach(ps[0].handler, fs[0]);
      var out := MapItems(fs[0], c.items);
      assert ps[0].handler(c.items) == ArrayOut(out);
      assert AllObjects(out);
      var next := Collection(c.kind, out);
      assert Step(c, ps[0]) == Success(next);
      forall k | 0 <= k < |ps[1..]|
        ensures MapsEach(ps[1..][k].handler, fs[1..][k])
      {
        assert ps[1..][k] == ps[k + 1] && fs[1..][k] == fs[k + 1];
      }
      MappingPipeline(s, next, ps[1..], fs[1..], emit);
    }
  }

  // ---------------------------------------------------------------------
  // Whole runs

  /** A successful run with an emitter fires exactly `2 + 2N` events for N
      plugins: `transform.start`, a `plugin.start`/`plugin.complete` pair
      per plugin in order, and `transform.complete` carrying the result. */
  lemma SuccessfulRunEvents(s: TransformState, raw: seq<Item>, context: Record, config: Record)
    requires Execute(s, raw, context, config, true).result.Success?
    ensures var t := Execute(s, raw, context, config, true);
      && |t.events| == 2 + 2 * |s.plugins|
      && t.events[0] == TransformStart(s)
      && (forall k :: 0 <= k < |s.plugins| ==>
            t.events[1 + 2 * k] == PluginStart(s.plugins[k], s) && t.events[2 + 2 * k] == PluginComplete(s.plugins[k], s))
      && t.events[|t.events| - 1] == TransformComplete(s, t.result.value)
  {
    var c := Resolve(s.transform, raw, context, config).value;
    PipelineSuccessEvents(s, c, s.plugins, true);
  }

  /** Without an emitter a run emits nothing, whatever its outcome. */
  lemma RunSilent(s: TransformState, raw: seq<Item>, context: Record, config: Record)
    ensures Execute(s, raw, context, config, false).events == []
  {
    var r := Resolve(s.transform, raw, context, config);
    if r.Success? {
      PipelineSilent(s, r.value, s.plugins);
    }
  }

  /** A failed run carries one of the three run-time tags, and says which
      stage failed: `[items-invalid]` and `[transform-function-invalid]`
      come from the transform function, before any plugin ran, and leave
      `transform.start` as the only event; `[plugin-return-invalid]` comes
      from plugin `n` after plugins `0..n-1` succeeded, and no
      `transform.complete` is emitted. */
  lemma FailedRunEvents(s: TransformState, raw: seq<Item>, context: Record, config: Record, emit: bool)
    requires Execute(s, raw, context, config, emit).result.Failure?
    ensures var t := Execute(s, raw, context, config, emit);
      && (t.result.error == ItemsInvalid || t.result.error == TransformFunctionInvalid || t.result.error == PluginReturnInvalid)
      && (t.result.error != PluginReturnInvalid ==>
            Resolve(s.transform, raw, context, config).Failure? && t.events == Emit(emit, TransformStart(s)))
      && (t.result.error == PluginReturnInvalid ==>
            var c := Resolve(s.transform, raw, context, config);
            && c.Success?
            && exists n :: 0 <= n < |s.plugins|
                 && Pipeline(s, c.value, s.plugins[..n], emit).result.Success?
                 && Step(Pipeline(s, c.value, s.plugins[..n], emit).result.value, s.plugins[n]).Failure?
                 && t.events == Emit(emit, TransformStart(s)) + Pipeline(s, c.value, s.plugins[..n], emit).events
                                + Emit(emit, PluginStart(s.plugins[n], s)))
  {
    var r := Resolve(s.transform, raw, context, config);
    if r.Success? {
      PipelineFailsAtOnePlugin(s, r.value, s.plugins, emit);
    }
  }

  /** With no plugins the run yields the resolved collection itself; for a
      shorthand that is the raw items, same length and order. */
  lemma RunWithoutPlugins(s: TransformState, raw: seq<Item>, context: Record, config: Record, emit: bool)
    requires s.plugins == []
    ensures Execute(s, raw, context, config, emit).result == Resolve(s.transform, raw, context, config)
    ensures s.transform.Shorthand? ==> Execute(s, raw, context, config, emit).result == Success(Collection(KindOf(s.transform.kind), raw))
  {
  }

  /** When every plugin maps each item, a run whose items resolve succeeds
      with the same number of items, in the same order, each passed through
      every plugin's map. */
  lemma RunMapsEachItem(s: TransformState, raw: seq<Item>, context: Record, config: Record, emit: bool, fs: seq<Item -> Item>)
    requires Resolve(s.transform, raw, context, config).Success?
    requires |fs| == |s.plugins|
    requires forall k :: 0 <= k < |s.plugins| ==> MapsEach(s.plugins[k].handler, fs[k])
    ensures var c := Resolve(s.transform, raw, context, config).value;
      var t := Execute(s, raw, context, config, emit);
      && t.result.Success?
      && t.result.value.kind == c.kind
      && |t.result.value.items| == |c.items|
      && forall j :: 0 <= j < |c.items| ==> t.result.value.items[j] == ApplyAll(fs, c.items[j])
  {
    MappingPipeline(s, Resolve(s.transform, raw, context, config).value, s.plugins, fs, emit);
  }
}
