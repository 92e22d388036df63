/** The deployment config, the one kind the factory interprets itself, in
    its two Go shapes (the internal `appsapi` type and the versioned
    `appsapiv1` type), and its pause flag's two-state machine. */
module Apps {
  import opened Results
  import opened PodSpec
  import opened SchemaBridge

  /** `*appsapi.DeploymentConfig`: the fields of `Spec` the factory reads or
      writes. A nil `Spec.Template` is `null`. */
  class InternalDeploymentConfig {
    var paused: bool
    var selector: map<string, string>
    var template: InternalPodTemplate?

    constructor (paused: bool, selector: map<string, string>, template: InternalPodTemplate?)
      ensures this.paused == paused && this.selector == selector && this.template == template
    {
      this.paused := paused;
      this.selector := selector;
      this.template := template;
    }
  }

  /** `*appsapiv1.DeploymentConfig`. */
  class V1DeploymentConfig {
    var paused: bool
    var template: ExternalPodTemplate?

    constructor (paused: bool, template: ExternalPodTemplate?)
      ensures this.paused == paused && this.template == template
    {
      this.paused := paused;
      this.template := template;
    }
  }

  /** What the encoder sees of an internal deployment config. */
  datatype InternalDeploymentConfigState =
    InternalDeploymentConfigState(paused: bool, selector: map<string, string>, template: Option<InternalPodSpec>)

  function StateOf(dc: InternalDeploymentConfig): (s: InternalDeploymentConfigState)
    reads dc, dc.template
    ensures s.paused == dc.paused && s.selector == dc.selector
    ensures s.template.Some? <==> dc.template != null
    ensures dc.template != null ==> s.template == Some(dc.template.spec)
  {
    InternalDeploymentConfigState(dc.paused, dc.selector,
      if dc.template == null then None else Some(dc.template.spec))
  }

  const AlreadyPaused := Error("is already paused")
  const NotPaused := Error("is not paused")

  /** The outcome of a pause or resume request on the flag. */
  datatype Transition = Transition(paused: bool, err: Option<Error>)

  /** Pausing: refused, with the flag kept, when already paused. */
  function PauseStep(paused: bool): (t: Transition)
    ensures t.err.Some? <==> paused
    ensures t.err.Some? ==> t.err == Some(AlreadyPaused) && t.paused == paused
    ensures t.paused
  {
    if paused then Transition(paused, Some(AlreadyPaused)) else Transition(true, None)
  }

  /** Resuming: refused, with the flag kept, when not paused. */
  function ResumeStep(paused: bool): (t: Transition)
    ensures t.err.Some? <==> !paused
    ensures t.err.Some? ==> t.err == Some(NotPaused) && t.paused == paused
    ensures !t.paused
  {
    if !paused then Transition(paused, Some(NotPaused)) else Transition(false, None)
  }

  /** A successful pause followed by a resume restores the flag, and so
      does a successful resume followed by a pause. */
  lemma PauseResumeInverse(paused: bool)
    ensures PauseStep(paused).err.None? ==> ResumeStep(PauseStep(paused).paused) == Transition(paused, None)
    ensures ResumeStep(paused).err.None? ==> PauseStep(ResumeStep(paused).paused) == Transition(paused, None)
  {
  }

  /** Pausing twice, or resuming twice, fails the second time and leaves
      the flag where the first call put it. */
  lemma RepeatedTransitionFails(paused: bool)
    ensures PauseStep(PauseStep(paused).paused) == Transition(true, Some(AlreadyPaused))
    ensures ResumeStep(ResumeStep(paused).paused) == Transition(false, Some(NotPaused))
  {
  }
}
