/** The scenarios of the transform test suite, replayed on the model. The
    fixtures the suite imports from its helpers are not part of this model;
    the ones here are stand-ins with the shape the suite relies on. */
module TransformTests {
  import opened Wrappers
  import opened Errors
  import opened Items
  import opened Descriptors
  import opened PluginStores
  import opened Pipelines
  import opened Transforms

  /** A file item, `new File({path})`. */
  function File(path: string): Item
  {
    Obj(map["path" := Str(path)])
  }

  /** A plain record with a `title`. */
  function Titled(title: string): Item
  {
    Obj(map["title" := Str(title)])
  }

  /** `toFC`: wraps the raw items in a file collection. */
  const ToFC: MapperFn := (raw: seq<Item>, context: Record, config: Record) => CollectionOut(Collection(Files, raw))

  /** `toC`: wraps the raw items in a generic collection. */
  const ToC: MapperFn := (raw: seq<Item>, context: Record, config: Record) => CollectionOut(Collection(Generic, raw))

  /** `Object.assign({}, item, {tested: true})`. */
  function MarkTested(i: Item): (r: Item)
    ensures r.Obj? && "tested" in r.fields && r.fields["tested"] == Bool(true)
    ensures i.Obj? ==> r.fields.Keys == i.fields.Keys + {"tested"}
    ensures i.Obj? ==> forall k :: k in i.fields && k != "tested" ==> r.fields[k] == i.fields[k]
  {
    match i
    case Obj(fields) => Obj(fields["tested" := Bool(true)])
    case Prim(_) => Obj(map["tested" := Bool(true)])
  }

  const TestedPlugin: PluginDescriptor :=
    PluginDescriptor(Present("plugin-tested"), Present("files"), Present((xs: seq<Item>) => ArrayOut(MapItems(MarkTested, xs))))

  /** The tagging plugin's handler maps every item through `MarkTested`. */
  lemma TestedPluginMapsEach()
    ensures MapsEach(TestedPlugin.handler.value, MarkTested)
  {
  }

  const ValidPlugin: PluginDescriptor :=
    PluginDescriptor(Present("valid-plugin"), Present("files"), Present((xs: seq<Item>) => ArrayOut(xs)))

  const OtherValidPlugin: PluginDescriptor :=
    PluginDescriptor(Present("other-valid-plugin"), Present("files"), Present((xs: seq<Item>) => ArrayOut(xs)))

  /** A plugin descriptor without a handler. */
  const InvalidPlugin: PluginDescriptor :=
    PluginDescriptor(Present("invalid-plugin"), Present("files"), Absent)

  const InvalidReturnPlugin: PluginDescriptor :=
    PluginDescriptor(Present("invalid-return-plugin"), Present("files"), Present((xs: seq<Item>) => OtherOut))

  function MakeTransform(name: string, fn: TransformFn, plugins: PluginArg, passthru: bool): TransformArg
  {
    Descriptor(TransformDescriptor(Present(name), Present(fn), Present(passthru), Present(plugins)))
  }

  const ValidFileCollectionTransform: TransformArg :=
    Descriptor(TransformDescriptor(Present("valid-file-collection-transform"), Present(Mapper(ToFC)), Present(true), Absent))

  /** A descriptor without a `transform`. */
  const InvalidTransform: TransformArg :=
    Descriptor(TransformDescriptor(Present("invalid-transform"), Absent, Absent, Absent))

  const ValidTransformWithPlugin: TransformArg :=
    MakeTransform("valid-transform-with-plugin", Mapper(ToFC), Single(ValidPlugin), false)

  const ValidTransformWithPluginList: TransformArg :=
    MakeTransform("valid-transform-with-plugin-list", Mapper(ToFC), List([ValidPlugin, OtherValidPlugin]), false)

  const ValidTransformWithPluginAlt: TransformArg :=
    MakeTransform("valid-transform-with-plugin-alt", Mapper(ToC), Single(TestedPlugin), false)

  const TransformWithInvalidPlugin: TransformArg :=
    MakeTransform("valid-transform-with-invalid-plugin", Mapper(ToFC), Single(InvalidPlugin), true)

  const TransformWithInvalidPluginReturnValue: TransformArg :=
    MakeTransform("valid-transform-with-invalid-return", Mapper(ToFC), Single(InvalidReturnPlugin), true)

  const TransformWithArrayReturn: TransformArg :=
    MakeTransform("transform-with-array-return",
      Mapper((raw: seq<Item>, context: Record, config: Record) => ArrayOut([Obj(map[])])), Single(ValidPlugin), true)

  const TransformWithInvalidTransform1: TransformArg :=
    MakeTransform("transform-with-invalid-transform1",
      Mapper((raw: seq<Item>, context: Record, config: Record) => ArrayOut([Prim(Str("ss"))])), Single(ValidPlugin), true)

  /** A transform function that returns `undefined`. */
  const TransformWithInvalidTransform2: TransformArg :=
    MakeTransform("transform-with-invalid-transform2",
      Mapper((raw: seq<Item>, context: Record, config: Record) => OtherOut), Single(ValidPlugin), true)

  /** The constructor refuses no argument, a string, a descriptor without a
      transform and one with an invalid plugin, and accepts valid
      descriptors without plugins, with one, and with a list. */
  lemma ConstructorValidatesInput()
    ensures Construct(Missing) == Failure(InvalidProperties(OfTransform))
    ensures Construct(NonObject) == Failure(InvalidProperties(OfTransform))
    ensures Construct(InvalidTransform) == Failure(InvalidProperties(OfTransform))
    ensures Construct(TransformWithInvalidPlugin) == Failure(InvalidProperties(OfPlugin))
    ensures Construct(ValidFileCollectionTransform).Success?
    ensures Construct(ValidTransformWithPlugin).Success?
    ensures Construct(ValidTransformWithPluginList).Success?
  {
  }

  /** A constructed transform keeps name, transform and passthru as given
      and starts with an empty plugin store. */
  lemma ConstructorAssignsFields()
    ensures Construct(ValidFileCollectionTransform) ==
      Success(TransformState("valid-file-collection-transform", Mapper(ToFC), true, []))
  {
  }

  /** Running the file-collection transform over three files with an
      emitter yields their file collection and exactly two events, the last
      carrying that three-item collection. */
  lemma RunWithoutPluginsEmitsTwoEvents()
    ensures var s := Construct(ValidFileCollectionTransform).value;
      var raw := [File("foo.js"), File("bar.js"), File("baz.js")];
      var t := Execute(s, raw, map[], map[], true);
      && t.result == Success(Collection(Files, raw))
      && |t.result.value.items| == 3
      && t.events == [TransformStart(s), TransformComplete(s, Collection(Files, raw))]
  {
  }

  /** Running the transform with the tagging plugin over two records yields
      both records, in order, each extended with `tested: true`, and four
      events. */
  lemma RunWithTaggingPlugin()
    ensures Construct(ValidTransformWithPluginAlt).Success?
    ensures var s := Construct(ValidTransformWithPluginAlt).value;
      var t := Execute(s, [Titled("Red"), Titled("Blue")], map[], map[], true);
      && t.result.Success?
      && t.result.value.kind == Generic
      && t.result.value.items == [
           Obj(map["title" := Str("Red"), "tested" := Bool(true)]),
           Obj(map["title" := Str("Blue"), "tested" := Bool(true)])]
      && |t.events| == 4
  {
    var s := Construct(ValidTransformWithPluginAlt).value;
    var raw := [Titled("Red"), Titled("Blue")];
    assert s.plugins == [Admit(Mapper(ToC), TestedPlugin).value];
    RunMapsEachItem(s, raw, map[], map[], true, [MarkTested]);
    SuccessfulRunEvents(s, raw, map[], map[]);
    var items := Execute(s, raw, map[], map[], true).result.value.items;
    assert items[0] == ApplyAll([MarkTested], raw[0]) == MarkTested(raw[0]);
    assert items[1] == ApplyAll([MarkTested], raw[1]) == MarkTested(raw[1]);
  }

  /** The four run-time outcomes the suite checks for transforms built from
      a function: an array of objects is accepted, `['ss']` is
      `[items-invalid]`, `undefined` is `[transform-function-invalid]`, and a
      plugin returning a non-array is `[plugin-return-invalid]`. */
  lemma RunOutcomes()
    ensures var raw := [File("foo.js"), File("bar.js")];
      && Execute(Construct(TransformWithArrayReturn).value, raw, map[], map[], false).result.Success?
      && Execute(Construct(TransformWithInvalidTransform1).value, raw, map[], map[], false).result == Failure(ItemsInvalid)
      && Execute(Construct(TransformWithInvalidTransform2).value, raw, map[], map[], false).result == Failure(TransformFunctionInvalid)
      && Execute(Construct(TransformWithInvalidPluginReturnValue).value, raw, map[], map[], false).result == Failure(PluginReturnInvalid)
  {
    assert AllObjects([Obj(map[])]);
    var strings := [Prim(Str("ss"))];
    assert !strings[0].Obj?;
  }

  /** `toCollection` wraps a bare array in the requested collection and
      returns a collection that already is one unchanged. */
  lemma ToCollectionScenarios()
    ensures ToCollection(Bare([]), Generic) == Collection(Generic, [])
    ensures ToCollection(Wrapped(Collection(Components, [])), Components) == Collection(Components, [])
  {
  }

  /** `addPlugin` returns the transform itself for a plugin and for a list,
      and fails for an invalid plugin. */
  method AddPluginReturnsItself()
    returns (t: Transform, single: Result<Transform, ErrorTag>, list: Result<Transform, ErrorTag>, invalid: Result<Transform, ErrorTag>)
    ensures single == Success(t) && list == Success(t)
    ensures invalid == Failure(InvalidProperties(OfPlugin))
  {
    var made := Transform.New(ValidFileCollectionTransform);
    ConstructorValidatesInput();
    t := made.value;
    single := t.AddPlugin(Single(ValidPlugin));
    assert Members(List([ValidPlugin, OtherValidPlugin])) == [ValidPlugin, OtherValidPlugin];
    list := t.AddPlugin(List([ValidPlugin, OtherValidPlugin]));
    invalid := t.AddPlugin(Single(InvalidPlugin));
  }

  /** `Transform.from` builds a transform from a descriptor and from an
      existing transform, and the copy has the same value. */
  method FromDescriptorAndInstance() returns (first: Transform, second: Transform)
    ensures first != second && first.plugins != second.plugins
    ensures first.State() == second.State()
    ensures first.State() == TransformState("valid-file-collection-transform", Mapper(ToFC), true, [])
  {
    ConstructorValidatesInput();
    var t1 := Transform.From(FromArg(ValidFileCollectionTransform));
    first := t1.value;
    var t2 := Transform.From(FromTransform(first));
    second := t2.value;
  }
}
