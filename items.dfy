/** The boundary to the collection library: items, collection kinds,
    collections and the wrap-or-return coercion `ToCollection`. */
module Items {

  /** A primitive value, as a field of a record or as a bare item. */
  datatype Scalar = Str(s: string) | Num(n: int) | Bool(b: bool) | Null

  /** A plain object's own fields (also the run's `context` and `config`). */
  type Record = map<string, Scalar>

  /** One item of a collection: an object (a file is an object with a `path`
      field) or a primitive value. */
  datatype Item = Obj(fields: Record) | Prim(value: Scalar)

  /** The item-validity check: every item is an object, not a primitive. */
  predicate AllObjects(xs: seq<Item>)
  {
    forall k :: 0 <= k < |xs| ==> xs[k].Obj?
  }

  /** The collection constructors a transform can select: the generic
      ordered collection and its specialised subclasses. */
  datatype Kind = Generic | Files | Components

  /** The collection kind a shorthand string selects. */
  function KindOf(shorthand: string): (k: Kind)
    ensures k == Files <==> shorthand == "files"
    ensures k == Components <==> shorthand == "components"
  {
    if shorthand == "files" then Files
    else if shorthand == "components" then Components
    else Generic
  }

  datatype Collection = Collection(kind: Kind, items: seq<Item>)

  /** `c instanceof K`: every specialised collection is also a generic one. */
  predicate InstanceOf(c: Collection, k: Kind)
  {
    k == Generic || c.kind == k
  }

  /** What `toCollection` may be handed: a bare array or a collection. */
  datatype Wrappable = Bare(items: seq<Item>) | Wrapped(collection: Collection)

  /** The items in order, whichever way they are held. */
  function Elements(w: Wrappable): seq<Item>
  {
    match w
    case Bare(xs) => xs
    case Wrapped(c) => c.items
  }

  /** Wrap-or-return: a collection that already is an instance of `k` comes
      back unchanged; anything else is built into a new `k` collection. */
  function ToCollection(w: Wrappable, k: Kind): (c: Collection)
    ensures InstanceOf(c, k)
    ensures c.items == Elements(w)
    ensures w.Wrapped? && InstanceOf(w.collection, k) ==> c == w.collection
    ensures !(w.Wrapped? && InstanceOf(w.collection, k)) ==> c.kind == k
  {
    match w
    case Wrapped(c0) => if InstanceOf(c0, k) then c0 else Collection(k, c0.items)
    case Bare(xs) => Collection(k, xs)
  }

  /** Wrapping is idempotent: wrapping the result again never double-wraps. */
  lemma ToCollectionIdempotent(w: Wrappable, k: Kind)
    ensures ToCollection(Wrapped(ToCollection(w, k)), k) == ToCollection(w, k)
  {
  }

  /** What a transform function or a plugin handler may return: an array, a
      collection, or any other value (undefined, a function, a number...). */
  datatype Output = ArrayOut(items: seq<Item>) | CollectionOut(collection: Collection) | OtherOut

  /** Apply `f` to every item, keeping the order. */
  function MapItems(f: Item -> Item, xs: seq<Item>): seq<Item>
  {
    seq(|xs|, k requires 0 <= k < |xs| => f(xs[k]))
  }
}
