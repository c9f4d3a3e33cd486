/** The loosely typed configuration values a transform is built from, the
    validated plugin entries, and the value view of a transform. */
module Descriptors {
  import opened Items

  /** A descriptor field as it arrives from configuration: missing, of the
      expected type, or of some other type. */
  datatype Slot<+T> = Absent | Present(value: T) | WrongType

  /** A transform function `(rawItems, context, config) -> items | Collection`. */
  type MapperFn = (seq<Item>, Record, Record) -> Output

  /** A plugin handler `(items) -> items`. */
  type Handler = seq<Item> -> Output

  /** The `transform` property: a shorthand naming an item kind, or a function. */
  datatype TransformFn = Shorthand(kind: string) | Mapper(fn: MapperFn)

  /** A plugin descriptor `{name, transform, handler}`. */
  datatype PluginDescriptor = PluginDescriptor(name: Slot<string>, transform: Slot<string>, handler: Slot<Handler>)

  /** What `addPlugin` and the `plugins` property accept: one descriptor or a list. */
  datatype PluginArg = Single(descriptor: PluginDescriptor) | List(descriptors: seq<PluginDescriptor>)

  /** The descriptors of a plugin argument, in order. */
  function Members(arg: PluginArg): seq<PluginDescriptor>
  {
    match arg
    case Single(d) => [d]
    case List(ds) => ds
  }

  /** A validated plugin, as the store keeps it. */
  datatype Plugin = Plugin(name: string, transform: string, handler: Handler)

  /** A transform descriptor `{name, transform, passthru?, plugins?}`. */
  datatype TransformDescriptor = TransformDescriptor(
    name: Slot<string>,
    transform: Slot<TransformFn>,
    passthru: Slot<bool>,
    plugins: Slot<PluginArg>)

  /** What the constructor is called with: nothing, a non-object (a string,
      say), or an object. */
  datatype TransformArg = Missing | NonObject | Descriptor(d: TransformDescriptor)

  /** The value view of a transform: its fields and its plugins in order. */
  datatype TransformState = TransformState(name: string, transform: TransformFn, passthru: bool, plugins: seq<Plugin>)
}
