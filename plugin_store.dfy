/** Plugin validation and the append-only plugin store a transform owns. */
module PluginStores {
  import opened Wrappers
  import opened Errors
  import opened Descriptors

  /** A plugin declaring item kind `kind` may join a transform whose
      `transform` is `owner`: the kind is a non-empty string, equal to the
      shorthand when the transform names one (a transform function accepts
      plugins of any kind). */
  predicate Compatible(owner: TransformFn, kind: string)
  {
    kind != "" && (owner.Shorthand? ==> kind == owner.kind)
  }

  /** A shorthand transform takes plugins of its own kind only; a transform
      function takes plugins of any (non-empty) kind. */
  lemma CompatibleKinds(owner: TransformFn, kind: string)
    ensures owner.Mapper? ==> (Compatible(owner, kind) <==> kind != "")
    ensures owner.Shorthand? ==> (Compatible(owner, kind) <==> kind != "" && kind == owner.kind)
  {
  }

  /** The checks a plugin descriptor must pass to be stored. */
  predicate Admissible(owner: TransformFn, d: PluginDescriptor)
  {
    && d.name.Present? && d.name.value != ""
    && d.transform.Present? && Compatible(owner, d.transform.value)
    && d.handler.Present?
  }

  predicate AllAdmissible(owner: TransformFn, ds: seq<PluginDescriptor>)
  {
    forall k :: 0 <= k < |ds| ==> Admissible(owner, ds[k])
  }

  /** The invariant of every stored plugin. */
  predicate PluginOk(owner: TransformFn, p: Plugin)
  {
    p.name != "" && Compatible(owner, p.transform)
  }

  /** The descriptor a stored plugin is read back as. */
  function Describe(p: Plugin): PluginDescriptor
  {
    PluginDescriptor(Present(p.name), Present(p.transform), Present(p.handler))
  }

  /** Validate one descriptor into a plugin; a bad one is an
      `[invalid-properties]` error that names the plugin. */
  function Admit(owner: TransformFn, d: PluginDescriptor): (r: Result<Plugin, ErrorTag>)
    ensures r.Success? <==> Admissible(owner, d)
    ensures r.Success? ==> PluginOk(owner, r.value) && Describe(r.value) == d
    ensures r.Failure? ==> r.error == InvalidProperties(OfPlugin)
  {
    if !d.name.Present? || d.name.value == "" then Failure(InvalidProperties(OfPlugin))
    else if !d.transform.Present? || !Compatible(owner, d.transform.value) then Failure(InvalidProperties(OfPlugin))
    else if !d.handler.Present? then Failure(InvalidProperties(OfPlugin))
    else Success(Plugin(d.name.value, d.transform.value, d.handler.value))
  }

  /** A stored plugin, read back as a descriptor, is admitted as itself. */
  lemma AdmitDescribed(owner: TransformFn, p: Plugin)
    requires PluginOk(owner, p)
    ensures Admit(owner, Describe(p)) == Success(p)
  {
  }

  /** The plugins a list of admissible descriptors becomes, in order. */
  function AdmitAll(owner: TransformFn, ds: seq<PluginDescriptor>): (ps: seq<Plugin>)
    requires AllAdmissible(owner, ds)
    ensures |ps| == |ds|
    ensures forall k :: 0 <= k < |ds| ==> Admit(owner, ds[k]) == Success(ps[k])
  {
    if ds == [] then [] else [Admit(owner, ds[0]).value] + AdmitAll(owner, ds[1..])
  }

  function DescribeAll(ps: seq<Plugin>): (ds: seq<PluginDescriptor>)
    ensures |ds| == |ps|
    ensures forall k :: 0 <= k < |ps| ==> ds[k] == Describe(ps[k])
  {
    if ps == [] then [] else [Describe(ps[0])] + DescribeAll(ps[1..])
  }

  /** Re-registering the descriptors of stored plugins gives back the same
      plugins: this is what copying a transform's plugin store relies on. */
  lemma ReadmitRoundTrip(owner: TransformFn, ps: seq<Plugin>)
    requires forall k :: 0 <= k < |ps| ==> PluginOk(owner, ps[k])
    ensures AllAdmissible(owner, DescribeAll(ps))
    ensures AdmitAll(owner, DescribeAll(ps)) == ps
  {
  }

  /** Admitting one more descriptor appends its plugin. */
  lemma AdmitAllSnoc(owner: TransformFn, ds: seq<PluginDescriptor>, d: PluginDescriptor)
    requires AllAdmissible(owner, ds) && Admissible(owner, d)
    ensures AllAdmissible(owner, ds + [d])
    ensures AdmitAll(owner, ds + [d]) == AdmitAll(owner, ds) + [Admit(owner, d).value]
  {
  }

  /** The store: plugins in registration order, which is execution order.
      Duplicates are kept; nothing is ever removed. */
  class PluginStore {
    /** The owning transform's `transform`, which plugins are checked against. */
    const owner: TransformFn
    var items: seq<Plugin>

    ghost predicate Valid()
      reads this
    {
      forall k :: 0 <= k < |items| ==> PluginOk(owner, items[k])
    }

    constructor (owner: TransformFn)
      ensures Valid()
      ensures this.owner == owner && items == []
    {
      this.owner := owner;
      items := [];
    }

    /** `add`: register one descriptor or a list, in order. It fails exactly
        when some member is invalid; a failed call leaves the earlier plugins
        and a (possibly empty) run of valid leading members of the argument,
        so both all-or-nothing and in-order registration satisfy it. */
    method Add(arg: PluginArg) returns (r: Outcome<ErrorTag>)
      requires Valid()
      modifies this
      ensures Valid()
      ensures r.Pass? <==> AllAdmissible(owner, Members(arg))
      ensures r.Pass? ==> items == old(items) + AdmitAll(owner, Members(arg))
      ensures r.Fail? ==>
        && r.error == InvalidProperties(OfPlugin)
        && exists n :: 0 <= n < |Members(arg)| && AllAdmissible(owner, Members(arg)[..n])
                       && items == old(items) + AdmitAll(owner, Members(arg)[..n])
    {
      var ds := Members(arg);
      var i := 0;
      while i < |ds|
        invariant 0 <= i <= |ds|
        invariant AllAdmissible(owner, ds[..i])
        invariant items == old(items) + AdmitAll(owner, ds[..i])
        invariant Valid()
      {
        var admitted := Admit(owner, ds[i]);
        if admitted.Failure? {
          assert 0 <= i < |ds| && AllAdmissible(owner, ds[..i]) && items == old(items) + AdmitAll(owner, ds[..i]);
          r := Fail(admitted.error);
          return;
        }
        AdmitAllSnoc(owner, ds[..i], ds[i]);
        assert ds[..i] + [ds[i]] == ds[..i + 1];
        items := items + [admitted.value];
        i := i + 1;
      }
      assert ds[..i] == ds;
      r := Pass;
    }
  }
}
