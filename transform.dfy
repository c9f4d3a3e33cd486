/** The `Transform` class: construction and its validation, `Transform.from`,
    `addPlugin`, and `run`. */
module Transforms {
  import opened Wrappers
  import opened Errors
  import opened Items
  import opened Descriptors
  import opened PluginStores
  import opened Pipelines

  /** `transform` is a non-empty shorthand or a function. */
  predicate FnOk(fn: TransformFn)
  {
    fn.Shorthand? ==> fn.kind != ""
  }

  /** The checks on the descriptor's own fields: a non-empty `name` and a
      usable `transform`. */
  predicate DescriptorOk(d: TransformDescriptor)
  {
    && d.name.Present? && d.name.value != ""
    && d.transform.Present? && FnOk(d.transform.value)
  }

  /** `passthru` defaults to false; only `true` turns it on. */
  function PassthruOf(p: Slot<bool>): bool
  {
    p.Present? && p.value
  }

  /** The plugin descriptors the `plugins` property supplies, in order. */
  function InitialPlugins(p: Slot<PluginArg>): seq<PluginDescriptor>
  {
    if p.Present? then Members(p.value) else []
  }

  /** The invariant of a constructed transform. */
  predicate StateOk(s: TransformState)
  {
    && s.name != "" && FnOk(s.transform)
    && forall k :: 0 <= k < |s.plugins| ==> PluginOk(s.transform, s.plugins[k])
  }

  /** `new Transform(arg)`, as a value: the descriptor's own fields are
      checked first, then the initial plugins are registered; any violation
      is an `[invalid-properties]` error. */
  function Construct(arg: TransformArg): (r: Result<TransformState, ErrorTag>)
    ensures r.Success? ==> StateOk(r.value)
    ensures r.Failure? ==> r.error.InvalidProperties?
  {
    if !arg.Descriptor? || !DescriptorOk(arg.d) then Failure(InvalidProperties(OfTransform))
    else if arg.d.plugins.WrongType? then Failure(InvalidProperties(OfPlugin))
    else
      var fn := arg.d.transform.value;
      var ds := InitialPlugins(arg.d.plugins);
      if !AllAdmissible(fn, ds) then Failure(InvalidProperties(OfPlugin))
      else Success(TransformState(arg.d.name.value, fn, PassthruOf(arg.d.passthru), AdmitAll(fn, ds)))
  }

  /** Construction succeeds exactly for an object descriptor with a
      non-empty name, a non-empty shorthand or a function as `transform`, and
      only valid initial plugins; it then
      keeps `name`, `transform` and `passthru` as given and the initial
      plugins in order. */
  lemma ConstructionValidates(arg: TransformArg)
    ensures Construct(arg).Success? <==>
      && arg.Descriptor?
      && DescriptorOk(arg.d)
      && !arg.d.plugins.WrongType?
      && AllAdmissible(arg.d.transform.value, InitialPlugins(arg.d.plugins))
    ensures Construct(arg).Success? ==>
      var s := Construct(arg).value;
      && s.name == arg.d.name.value
      && s.transform == arg.d.transform.value
      && s.passthru == (arg.d.passthru == Present(true))
      && |s.plugins| == |InitialPlugins(arg.d.plugins)|
      && forall k :: 0 <= k < |s.plugins| ==> Describe(s.plugins[k]) == InitialPlugins(arg.d.plugins)[k]
  {
  }

  /** An existing transform read back as a descriptor. */
  function DescriptorOf(s: TransformState): TransformArg
  {
    Descriptor(TransformDescriptor(Present(s.name), Present(s.transform), Present(s.passthru), Present(List(DescribeAll(s.plugins)))))
  }

  /** Re-constructing a transform from an existing one never fails and
      reproduces its name, transform, passthru flag and plugins. */
  lemma {:induction false} ReconstructRoundTrip(s: TransformState)
    requires StateOk(s)
    ensures Construct(DescriptorOf(s)) == Success(s)
  {
    ReadmitRoundTrip(s.transform, s.plugins);
  }

  /** Where `Transform.from` takes its fields from. */
  datatype Source = FromArg(arg: TransformArg) | FromTransform(existing: Transform)

  class Transform {
    const name: string
    const transform: TransformFn
    const passthru: bool
    const plugins: PluginStore

    ghost predicate Valid()
      reads this, plugins
      ensures Valid() ==> StateOk(State())
    {
      && name != "" && FnOk(transform)
      && plugins.owner == transform
      && plugins.Valid()
    }

    /** This transform as a value. */
    function State(): TransformState
      reads this, plugins
    {
      TransformState(name, transform, passthru, plugins.items)
    }

    /** Field assignment after the descriptor passed its checks; the plugin
        store starts empty. */
    constructor Init(name: string, transform: TransformFn, passthru: bool)
      requires name != "" && FnOk(transform)
      ensures Valid() && fresh(plugins)
      ensures State() == TransformState(name, transform, passthru, [])
    {
      this.name := name;
      this.transform := transform;
      this.passthru := passthru;
      this.plugins := new PluginStore(transform);
    }

    /** `new Transform(arg)`: fails with `Construct`'s error, or yields a new
        transform whose value is `Construct`'s. Initial plugins are
        registered through `addPlugin`. */
    static method New(arg: TransformArg) returns (r: Result<Transform, ErrorTag>)
      ensures r.Failure? ==> Construct(arg) == Failure(r.error)
      ensures r.Success? ==>
        && fresh(r.value) && fresh(r.value.plugins) && r.value.Valid()
        && Construct(arg) == Success(r.value.State())
    {
      if !arg.Descriptor? || !DescriptorOk(arg.d) {
        return Failure(InvalidProperties(OfTransform));
      }
      var d := arg.d;
      if d.plugins.WrongType? {
        return Failure(InvalidProperties(OfPlugin));
      }
      var t := new Transform.Init(d.name.value, d.transform.value, PassthruOf(d.passthru));
      if d.plugins.Present? {
        var added := t.AddPlugin(d.plugins.value);
        if added.Failure? {
          return Failure(added.error);
        }
        assert t.plugins.items == AdmitAll(t.transform, InitialPlugins(d.plugins));
      } else {
        assert AllAdmissible(t.transform, InitialPlugins(d.plugins)) && AdmitAll(t.transform, []) == [];
      }
      return Success(t);
    }

    /** `Transform.from(source)`: a descriptor is constructed as by `new`; an
        existing transform yields a new, separate transform with the same
        value. */
    static method From(source: Source) returns (r: Result<Transform, ErrorTag>)
      requires source.FromTransform? ==> source.existing.Valid()
      ensures source.FromArg? ==>
        && (r.Failure? ==> Construct(source.arg) == Failure(r.error))
        && (r.Success? ==> fresh(r.value) && fresh(r.value.plugins) && r.value.Valid() && Construct(source.arg) == Success(r.value.State()))
      ensures source.FromTransform? ==>
        && r.Success? && fresh(r.value) && fresh(r.value.plugins) && r.value.Valid()
        && r.value.State() == source.existing.State()
    {
      match source
      case FromArg(arg) =>
        r := New(arg);
      case FromTransform(existing) =>
        ReconstructRoundTrip(existing.State());
        r := New(DescriptorOf(existing.State()));
    }

    /** `addPlugin`: defers to the store's `add` with the same argument and
        returns this very transform, or fails with the store's error. */
    method AddPlugin(arg: PluginArg) returns (r: Result<Transform, ErrorTag>)
      requires Valid()
      modifies plugins
      ensures Valid()
      ensures r.Success? <==> AllAdmissible(transform, Members(arg))
      ensures r.Success? ==> r.value == this && plugins.items == old(plugins.items) + AdmitAll(transform, Members(arg))
      ensures r.Failure? ==>
        && r.error == InvalidProperties(OfPlugin)
        && exists n :: 0 <= n < |Members(arg)| && AllAdmissible(transform, Members(arg)[..n])
                       && plugins.items == old(plugins.items) + AdmitAll(transform, Members(arg)[..n])
    {
      var outcome := plugins.Add(arg);
      if outcome.Fail? {
        return Failure(outcome.error);
      }
      return Success(this);
    }

    /** `run(raw, context, config, emitter?)`: emits `transform.start`,
        resolves the raw items, then runs the plugins one after another, each
        on the previous one's output, emitting `plugin.start` and
        `plugin.complete` around each, and finally `transform.complete`.
        `emit` says whether an emitter was passed. The result and the events
        are exactly those of `Execute`. */
    method Run(raw: seq<Item>, context: Record, config: Record, emit: bool)
      returns (r: Result<Collection, ErrorTag>, events: seq<Event>)
      ensures Trace(r, events) == Execute(State(), raw, context, config, emit)
    {
      var s := State();
      events := Emit(emit, TransformStart(s));
      ghost var start := events;
      var resolved := Resolve(transform, raw, context, config);
      if resolved.Failure? {
        r := resolved;
        return;
      }
      var ps := plugins.items;
      var current := resolved.value;
      var i := 0;
      while i < |ps|
        invariant 0 <= i <= |ps|
        invariant Pipeline(s, current, ps[i..], emit).result == Pipeline(s, resolved.value, ps, emit).result
        invariant events + Pipeline(s, current, ps[i..], emit).events == start + Pipeline(s, resolved.value, ps, emit).events
      {
        var p := ps[i];
        assert ps[i..][0] == p && ps[i..][1..] == ps[i + 1..];
        events := events + Emit(emit, PluginStart(p, s));
        var out := p.handler(current.items);
        if !out.ArrayOut? || !AllObjects(out.items) {
          r := Failure(PluginReturnInvalid);
          return;
        }
        current := ToCollection(Bare(out.items), current.kind);
        events := events + Emit(emit, PluginComplete(p, s));
        i := i + 1;
      }
      assert ps[i..] == [];
      events := events + Emit(emit, TransformComplete(s, current));
      r := Success(current);
    }
  }
}
