/** The OpenShift client-access factory (`ring0Factory`): a decorator over
    the kubectl factory (the delegate) that handles deployment configs
    itself and forwards every other object to the delegate. The delegate
    and the foreign helpers it relies on (label encoding, the JSON encoder,
    the scheme conversions, the kind check) are parameters. */
module Factory {
  import opened Results
  import opened PodSpec
  import opened SchemaBridge
  import opened Apps

  /** The dynamic type behind a `runtime.Object`. */
  datatype RuntimeObject =
    | InternalDC(idc: InternalDeploymentConfig)
    | V1DC(vdc: V1DeploymentConfig)
    | OtherObject(kind: string, name: string)

  datatype GroupKind = GroupKind(group: string, kind: string)

  /** `kubectl.Generator` implementations, as opaque values. */
  datatype Generator =
    | BasicDeploymentConfigController
    | BasicReplicationController
    | RouteGenerator
    | DelegateGenerator(id: string)

  type Bytes = seq<bv8>

  /** The `(bool, error)` pair `UpdatePodSpecForObject` returns. */
  datatype Updated = Updated(updated: bool, err: Option<Error>)

  /** The delegate's answers for the operations the factory decorates. */
  datatype Delegate = Delegate(
    updatePodSpecForObject: (RuntimeObject, ExternalMutator) -> Updated,
    mapBasedSelectorForObject: RuntimeObject -> Result<string>,
    portsForObject: RuntimeObject -> Result<seq<string>>,
    protocolsForObject: RuntimeObject -> Result<map<string, string>>,
    pauser: RuntimeObject -> Result<Bytes>,
    resumer: RuntimeObject -> Result<Bytes>,
    generators: string -> map<string, Generator>,
    canBeExposed: GroupKind -> Option<Error>,
    canBeAutoscaled: GroupKind -> Option<Error>)

  /** `runtime.Encode` with the internal-version JSON encoder. */
  type Encoder = InternalDeploymentConfigState -> Result<Bytes>

  const EmptyInternalPodSpec := InternalPodSpec([])
  const EmptyExternalPodSpec := ExternalPodSpec([])

  /** The objects `UpdatePodSpecForObject` may write: the deployment config
      and the template it holds. */
  function UpdateFootprint(obj: RuntimeObject): set<object>
    reads if obj.InternalDC? then {obj.idc} else if obj.V1DC? then {obj.vdc} else {}
  {
    match obj
    case InternalDC(dc) => {dc} + (if dc.template == null then {} else {dc.template})
    case V1DC(dc) => {dc} + (if dc.template == null then {} else {dc.template})
    case OtherObject(_, _) => {}
  }

  /** `UpdatePodSpecForObject`, as written. Both deployment config shapes
      report "updated" whatever the mutator does. The versioned shape gets a
      fresh template when it has none and the mutator runs on it directly.
      The internal shape runs the mutator through the schema bridge; when it
      has no template the bridge works on a fresh template that is never
      attached, so `Spec.Template` stays nil and the mutation is lost. */
  method UpdatePodSpecForObject(delegate: Delegate, obj: RuntimeObject, fn: ExternalMutator,
                                toExternal: ToExternal, toInternal: ToInternal)
    returns (r: Updated)
    modifies UpdateFootprint(obj)
    ensures obj.OtherObject? ==> r == delegate.updatePodSpecForObject(obj, fn)
    ensures !obj.OtherObject? ==> r.updated
    ensures obj.InternalDC? ==>
      && obj.idc.template == old(obj.idc.template)
      && obj.idc.paused == old(obj.idc.paused) && obj.idc.selector == old(obj.idc.selector)
      && (old(obj.idc.template) == null ==>
            r.err == ExternalMutatorOnInternal(fn, toExternal, toInternal, EmptyInternalPodSpec).err)
      && (old(obj.idc.template) != null ==>
            Mutation(obj.idc.template.spec, r.err)
              == ExternalMutatorOnInternal(fn, toExternal, toInternal, old(obj.idc.template.spec)))
    ensures obj.V1DC? ==>
      && obj.vdc.template != null
      && obj.vdc.paused == old(obj.vdc.paused)
      && (old(obj.vdc.template) != null ==> obj.vdc.template == old(obj.vdc.template))
      && (old(obj.vdc.template) == null ==> fresh(obj.vdc.template))
      && Mutation(obj.vdc.template.spec, r.err)
           == fn(if old(obj.vdc.template) == null then EmptyExternalPodSpec else old(obj.vdc.template.spec))
  {
    match obj {
      case InternalDC(dc) =>
        var template := dc.template;
        if template == null {
          dc.template := template;
          template := new InternalPodTemplate(EmptyInternalPodSpec);
        }
        var err := ConvertExternalPodSpecToInternal(fn, toExternal, toInternal, template);
        return Updated(true, err);
      case V1DC(dc) =>
        var template := dc.template;
        if template == null {
          template := new ExternalPodTemplate(EmptyExternalPodSpec);
          dc.template := template;
        }
        var mutated := fn(template.spec);
        template.spec := mutated.spec;
        return Updated(true, mutated.err);
      case OtherObject(_, _) =>
        return delegate.updatePodSpecForObject(obj, fn);
    }
  }

  /** The internal branch of `UpdatePodSpecForObject` as the versioned
      branch shows it was meant: a missing template is created and attached
      before the mutator runs, so a successful mutation is kept. */
  method UpdateInternalAttached(dc: InternalDeploymentConfig, fn: ExternalMutator,
                                toExternal: ToExternal, toInternal: ToInternal)
    returns (r: Updated)
    modifies dc, dc.template
    ensures r.updated && dc.template != null
    ensures dc.paused == old(dc.paused) && dc.selector == old(dc.selector)
    ensures old(dc.template) != null ==> dc.template == old(dc.template)
    ensures old(dc.template) == null ==> fresh(dc.template)
    ensures Mutation(dc.template.spec, r.err) == ExternalMutatorOnInternal(fn, toExternal, toInternal,
      if old(dc.template) == null then EmptyInternalPodSpec else old(dc.template.spec))
  {
    var template := dc.template;
    if template == null {
      template := new InternalPodTemplate(EmptyInternalPodSpec);
      dc.template := template;
    }
    var err := ConvertExternalPodSpecToInternal(fn, toExternal, toInternal, template);
    return Updated(true, err);
  }

  /** A concrete scenario, proved, of `UpdatePodSpecForObject` on an internal deployment
      config without a template: a mutator that adds a container succeeds,
      the call reports success, and the config still has no template. */
  method NilTemplateMutationIsLost(delegate: Delegate)
    returns (dc: InternalDeploymentConfig, r: Updated)
    ensures r == Updated(true, None)
    ensures dc.template == null
  {
    dc := new InternalDeploymentConfig(false, map[], null);
    var addContainer: ExternalMutator :=
      (s: ExternalPodSpec) => Mutation(ExternalPodSpec(s.containers + [Container("added", [])]), None);
    var toExternal: ToExternal := (s: InternalPodSpec) => Success(ExternalPodSpec(s.containers));
    var toInternal: ToInternal := (s: ExternalPodSpec) => Success(InternalPodSpec(s.containers));
    r := UpdatePodSpecForObject(delegate, InternalDC(dc), addContainer, toExternal, toInternal);
  }

  /** `MapBasedSelectorForObject`: an internal deployment config's selector
      encoded by `kubectl.MakeLabels`; anything else goes to the delegate. */
  function MapBasedSelectorForObject(delegate: Delegate, makeLabels: map<string, string> -> string,
                                     obj: RuntimeObject): (r: Result<string>)
    reads if obj.InternalDC? then {obj.idc} else {}
    ensures obj.InternalDC? ==> r == Success(makeLabels(obj.idc.selector))
    ensures !obj.InternalDC? ==> r == delegate.mapBasedSelectorForObject(obj)
  {
    match obj
    case InternalDC(dc) => Success(makeLabels(dc.selector))
    case _ => delegate.mapBasedSelectorForObject(obj)
  }

  /** `PortsForObject`. The source reads `Spec.Template.Spec` without a nil
      check, so an internal deployment config must have a template. */
  method PortsForObject(delegate: Delegate, obj: RuntimeObject) returns (r: Result<seq<string>>)
    requires obj.InternalDC? ==> obj.idc.template != null
    ensures obj.InternalDC? ==>
      r == Success(PortStrings(AllPorts(obj.idc.template.spec.containers)))
    ensures !obj.InternalDC? ==> r == delegate.portsForObject(obj)
  {
    match obj {
      case InternalDC(dc) =>
        var ports := GetPorts(dc.template.spec);
        return Success(ports);
      case _ =>
        return delegate.portsForObject(obj);
    }
  }

  /** `ProtocolsForObject`, with the same demand on the template. */
  method ProtocolsForObject(delegate: Delegate, obj: RuntimeObject) returns (r: Result<map<string, string>>)
    requires obj.InternalDC? ==> obj.idc.template != null
    ensures obj.InternalDC? ==>
      r == Success(ProtocolsOf(AllPorts(obj.idc.template.spec.containers)))
    ensures !obj.InternalDC? ==> r == delegate.protocolsForObject(obj)
  {
    match obj {
      case InternalDC(dc) =>
        var protocols := GetProtocols(dc.template.spec);
        return Success(protocols);
      case _ =>
        return delegate.protocolsForObject(obj);
    }
  }

  /** `Pauser`: an internal deployment config that is already paused is
      refused and left alone; otherwise it is paused and returned encoded.
      Every other object, the versioned deployment config included, goes to
      the delegate. */
  method Pauser(delegate: Delegate, encode: Encoder, obj: RuntimeObject) returns (r: Result<Bytes>)
    modifies if obj.InternalDC? then {obj.idc} else {}
    ensures obj.InternalDC? ==>
      && obj.idc.paused == PauseStep(old(obj.idc.paused)).paused
      && obj.idc.selector == old(obj.idc.selector) && obj.idc.template == old(obj.idc.template)
      && (old(obj.idc.paused) ==> r == Failure(AlreadyPaused))
      && (!old(obj.idc.paused) ==> r == encode(StateOf(obj.idc)))
    ensures !obj.InternalDC? ==> r == delegate.pauser(obj)
  {
    match obj {
      case InternalDC(dc) =>
        if dc.paused {
          return Failure(AlreadyPaused);
        }
        dc.paused := true;
        return encode(StateOf(dc));
      case _ =>
        return delegate.pauser(obj);
    }
  }

  /** `Resumer`: the mirror image of `Pauser`. */
  method Resumer(delegate: Delegate, encode: Encoder, obj: RuntimeObject) returns (r: Result<Bytes>)
    modifies if obj.InternalDC? then {obj.idc} else {}
    ensures obj.InternalDC? ==>
      && obj.idc.paused == ResumeStep(old(obj.idc.paused)).paused
      && obj.idc.selector == old(obj.idc.selector) && obj.idc.template == old(obj.idc.template)
      && (!old(obj.idc.paused) ==> r == Failure(NotPaused))
      && (old(obj.idc.paused) ==> r == encode(StateOf(obj.idc)))
    ensures !obj.InternalDC? ==> r == delegate.resumer(obj)
  {
    match obj {
      case InternalDC(dc) =>
        if !dc.paused {
          return Failure(NotPaused);
        }
        dc.paused := false;
        return encode(StateOf(dc));
      case _ =>
        return delegate.resumer(obj);
    }
  }

  /** Pausing a running internal deployment config and then resuming it:
      neither call is refused, the flag, selector and template end as they
      started, and each call returns the encoder's output for the state it
      leaves. */
  method PauseThenResume(delegate: Delegate, encode: Encoder, dc: InternalDeploymentConfig)
    returns (paused: Result<Bytes>, resumed: Result<Bytes>)
    requires !dc.paused
    modifies dc
    ensures !dc.paused && dc.selector == old(dc.selector) && dc.template == old(dc.template)
    ensures paused == encode(InternalDeploymentConfigState(true, dc.selector, StateOf(dc).template))
    ensures resumed == encode(StateOf(dc))
  {
    paused := Pauser(delegate, encode, InternalDC(dc));
    resumed := Resumer(delegate, encode, InternalDC(dc));
  }

  /** `DefaultGenerators`: the generators OpenShift adds for a command. */
  function DefaultGenerators(cmdName: string): (g: map<string, Generator>)
    ensures cmdName == "run" ==>
      && g.Keys == {"deploymentconfig/v1", "run-controller/v1"}
      && g["deploymentconfig/v1"] == BasicDeploymentConfigController
      && g["run-controller/v1"] == BasicReplicationController
    ensures cmdName == "expose" ==> g == map["route/v1" := RouteGenerator]
    ensures cmdName != "run" && cmdName != "expose" ==> g == map[]
  {
    var generators := map[
      "run" := map[
        "deploymentconfig/v1" := BasicDeploymentConfigController,
        "run-controller/v1" := BasicReplicationController],
      "expose" := map["route/v1" := RouteGenerator]];
    if cmdName in generators then generators[cmdName] else map[]
  }

  /** `Generators`: the delegate's table with OpenShift's entries laid over
      it. Every key of either table is present; a key OpenShift defines
      holds OpenShift's generator, any other key the delegate's. */
  method Generators(delegate: Delegate, cmdName: string) returns (ret: map<string, Generator>)
    ensures ret.Keys == delegate.generators(cmdName).Keys + DefaultGenerators(cmdName).Keys
    ensures forall k :: k in DefaultGenerators(cmdName) ==> ret[k] == DefaultGenerators(cmdName)[k]
    ensures forall k :: k in delegate.generators(cmdName) && k !in DefaultGenerators(cmdName) ==>
      ret[k] == delegate.generators(cmdName)[k]
    ensures cmdName != "run" && cmdName != "expose" ==> ret == delegate.generators(cmdName)
  {
    var originGenerators := DefaultGenerators(cmdName);
    var kubeGenerators := delegate.generators(cmdName);
    ret := map[];
    var todo := kubeGenerators.Keys;
    while todo != {}
      invariant todo <= kubeGenerators.Keys
      invariant ret.Keys == kubeGenerators.Keys - todo
      invariant forall k :: k in ret ==> ret[k] == kubeGenerators[k]
      decreases todo
    {
      var k :| k in todo;
      ret := ret[k := kubeGenerators[k]];
      todo := todo - {k};
    }
    todo := originGenerators.Keys;
    while todo != {}
      invariant todo <= originGenerators.Keys
      invariant ret.Keys == kubeGenerators.Keys + (originGenerators.Keys - todo)
      invariant forall k :: k in ret ==>
        ret[k] == if k in originGenerators && k !in todo then originGenerators[k] else kubeGenerators[k]
      decreases todo
    {
      var k :| k in todo;
      ret := ret[k := originGenerators[k]];
      todo := todo - {k};
    }
  }

  /** `CanBeExposed`: deployment configs (by their kind or its legacy alias)
      can always be exposed; other kinds are the delegate's call. */
  function CanBeExposed(delegate: Delegate, isDeploymentConfigKind: GroupKind -> bool,
                        kind: GroupKind): (r: Option<Error>)
    ensures isDeploymentConfigKind(kind) ==> r == None
    ensures !isDeploymentConfigKind(kind) ==> r == delegate.canBeExposed(kind)
  {
    if isDeploymentConfigKind(kind) then None else delegate.canBeExposed(kind)
  }

  /** `CanBeAutoscaled`, likewise. */
  function CanBeAutoscaled(delegate: Delegate, isDeploymentConfigKind: GroupKind -> bool,
                           kind: GroupKind): (r: Option<Error>)
    ensures isDeploymentConfigKind(kind) ==> r == None
    ensures !isDeploymentConfigKind(kind) ==> r == delegate.canBeAutoscaled(kind)
  {
    if isDeploymentConfigKind(kind) then None else delegate.canBeAutoscaled(kind)
  }
}
