/** The pod-spec schema bridge: `ConvertInteralPodSpecToExternal` and
    `ConvertExteralPodSpecToInternal` let a mutator written against one
    representation of a pod spec run on the other. Each converts the spec
    to the other form, runs the mutator on the copy, converts the copy back
    and only then overwrites the original. The scheme conversions and the
    mutator are foreign code and are parameters here. */
module SchemaBridge {
  import opened Results
  import opened PodSpec

  /** The external (wire, `corev1`) pod specification. */
  datatype ExternalPodSpec = ExternalPodSpec(containers: seq<Container>)

  /** What a mutator leaves behind: the spec it was handed, as it changed
      it, and the error it returned, if any. A Go mutator may change the
      spec and still fail. */
  datatype Mutation<S> = Mutation(spec: S, err: Option<Error>)

  /** A `func(*corev1.PodSpec) error`. */
  type ExternalMutator = ExternalPodSpec -> Mutation<ExternalPodSpec>

  /** A `func(*kapi.PodSpec) error`. */
  type InternalMutator = InternalPodSpec -> Mutation<InternalPodSpec>

  /** `legacyscheme.Scheme.Convert` in each direction. */
  type ToExternal = InternalPodSpec -> Result<ExternalPodSpec>
  type ToInternal = ExternalPodSpec -> Result<InternalPodSpec>

  /** A pod template holds the spec a mutator changes in place. */
  class InternalPodTemplate {
    var spec: InternalPodSpec

    constructor (spec: InternalPodSpec)
      ensures this.spec == spec
    {
      this.spec := spec;
    }
  }

  class ExternalPodTemplate {
    var spec: ExternalPodSpec

    constructor (spec: ExternalPodSpec)
      ensures this.spec == spec
    {
      this.spec := spec;
    }
  }

  /** The effect of the function `ConvertExteralPodSpecToInternal(fn)`
      returns, on an internal spec: the first failing step's error and the
      spec untouched, or no error and the converted-back result of the
      mutator. */
  function ExternalMutatorOnInternal(fn: ExternalMutator, toExternal: ToExternal,
                                     toInternal: ToInternal, spec: InternalPodSpec): (m: Mutation<InternalPodSpec>)
    ensures m.err.Some? ==> m.spec == spec
    ensures toExternal(spec).Failure? ==> m.err == Some(toExternal(spec).error)
    ensures toExternal(spec).Success? && fn(toExternal(spec).value).err.Some? ==>
      m.err == fn(toExternal(spec).value).err
    ensures m.err.None? <==>
      && toExternal(spec).Success?
      && fn(toExternal(spec).value).err.None?
      && toInternal(fn(toExternal(spec).value).spec).Success?
    ensures
      && toExternal(spec).Success?
      && fn(toExternal(spec).value).err.None?
      && toInternal(fn(toExternal(spec).value).spec).Failure?
      ==> m.err == Some(toInternal(fn(toExternal(spec).value).spec).error)
    ensures m.err.None? ==> m.spec == toInternal(fn(toExternal(spec).value).spec).value
  {
    match toExternal(spec)
    case Failure(e) => Mutation(spec, Some(e))
    case Success(external) =>
      var mutated := fn(external);
      if mutated.err.Some? then Mutation(spec, mutated.err)
      else
        match toInternal(mutated.spec)
        case Failure(e) => Mutation(spec, Some(e))
        case Success(internal) => Mutation(internal, None)
  }

  /** The same for `ConvertInteralPodSpecToExternal(fn)` on an external spec. */
  function InternalMutatorOnExternal(fn: InternalMutator, toInternal: ToInternal,
                                     toExternal: ToExternal, spec: ExternalPodSpec): (m: Mutation<ExternalPodSpec>)
    ensures m.err.Some? ==> m.spec == spec
    ensures toInternal(spec).Failure? ==> m.err == Some(toInternal(spec).error)
    ensures toInternal(spec).Success? && fn(toInternal(spec).value).err.Some? ==>
      m.err == fn(toInternal(spec).value).err
    ensures m.err.None? <==>
      && toInternal(spec).Success?
      && fn(toInternal(spec).value).err.None?
      && toExternal(fn(toInternal(spec).value).spec).Success?
    ensures
      && toInternal(spec).Success?
      && fn(toInternal(spec).value).err.None?
      && toExternal(fn(toInternal(spec).value).spec).Failure?
      ==> m.err == Some(toExternal(fn(toInternal(spec).value).spec).error)
    ensures m.err.None? ==> m.spec == toExternal(fn(toInternal(spec).value).spec).value
  {
    match toInternal(spec)
    case Failure(e) => Mutation(spec, Some(e))
    case Success(internal) =>
      var mutated := fn(internal);
      if mutated.err.Some? then Mutation(spec, mutated.err)
      else
        match toExternal(mutated.spec)
        case Failure(e) => Mutation(spec, Some(e))
        case Success(external) => Mutation(external, None)
  }

  /** `ConvertExteralPodSpecToInternal(fn)` applied to the spec held by
      `target`: the spec is overwritten only once all three steps have
      succeeded. */
  method ConvertExternalPodSpecToInternal(fn: ExternalMutator, toExternal: ToExternal,
                                          toInternal: ToInternal, target: InternalPodTemplate)
    returns (err: Option<Error>)
    modifies target
    ensures Mutation(target.spec, err) == ExternalMutatorOnInternal(fn, toExternal, toInternal, old(target.spec))
    ensures err.Some? ==> target.spec == old(target.spec)
  {
    var external := toExternal(target.spec);
    if external.Failure? {
      return Some(external.error);
    }
    var mutated := fn(external.value);
    if mutated.err.Some? {
      return mutated.err;
    }
    var internal := toInternal(mutated.spec);
    if internal.Failure? {
      return Some(internal.error);
    }
    target.spec := internal.value;
    return None;
  }

  /** `ConvertInteralPodSpecToExternal(fn)` applied to the spec held by
      `target`. */
  method ConvertInternalPodSpecToExternal(fn: InternalMutator, toInternal: ToInternal,
                                          toExternal: ToExternal, target: ExternalPodTemplate)
    returns (err: Option<Error>)
    modifies target
    ensures Mutation(target.spec, err) == InternalMutatorOnExternal(fn, toInternal, toExternal, old(target.spec))
    ensures err.Some? ==> target.spec == old(target.spec)
  {
    var internal := toInternal(target.spec);
    if internal.Failure? {
      return Some(internal.error);
    }
    var mutated := fn(internal.value);
    if mutated.err.Some? {
      return mutated.err;
    }
    var external := toExternal(mutated.spec);
    if external.Failure? {
      return Some(external.error);
    }
    target.spec := external.value;
    return None;
  }

  /** With conversions that round-trip on `spec`, a mutator that changes
      nothing and succeeds leaves the spec as it was. */
  lemma IdentityMutatorKeepsInternalSpec(toExternal: ToExternal, toInternal: ToInternal, spec: InternalPodSpec)
    requires toExternal(spec).Success? && toInternal(toExternal(spec).value) == Success(spec)
    ensures ExternalMutatorOnInternal(s => Mutation(s, None), toExternal, toInternal, spec) == Mutation(spec, None)
  {
  }

  lemma IdentityMutatorKeepsExternalSpec(toInternal: ToInternal, toExternal: ToExternal, spec: ExternalPodSpec)
    requires toInternal(spec).Success? && toExternal(toInternal(spec).value) == Success(spec)
    ensures InternalMutatorOnExternal(s => Mutation(s, None), toInternal, toExternal, spec) == Mutation(spec, None)
  {
  }
}
