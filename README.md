# OpenShift client-access factory, modelled in Dafny

This project models the core of `pkg/oc/cli/util/clientcmd/factory_client_access.go`
in OpenShift's `oc`. That file holds `ring0Factory`, a decorator over
kubectl's client-access factory (the *delegate*). It handles DeploymentConfig
objects itself and forwards every other object to the delegate. The same file
also defines the function that names the on-disk discovery cache directory
after the server host.

The model is split into modules:

- `Results` (`results.dfy`): Go's `error` as `Error(message)`, plus `Option` and `Result`.
- `CacheDir` (`cache_dir.dfy`): `computeDiscoverCacheDir`. It covers the
  first-occurrence scheme stripping done by `strings.Replace(.., 1)`, the
  `[^(\w/\.)]` → `_` replacement, and `filepath.Join`.
- `Decimal` (`decimal.dfy`): `strconv.Itoa`. The model proves it injective, so a
  map keyed by the decimal string is keyed by the port number.
- `PodSpec` (`pod_spec.dfy`): containers and their ports. `getPorts` and
  `getProtocols` are methods with the source's nested loops. They are proved
  against the specification functions `AllPorts`, `PortStrings` and `ProtocolsOf`.
- `SchemaBridge` (`schema_bridge.dfy`): `ConvertInteralPodSpecToExternal` and
  `ConvertExteralPodSpecToInternal`. Each closure is a method that overwrites
  the spec held by a pod template. A pure function states its effect.
- `Apps` (`apps.dfy`): the internal and the versioned DeploymentConfig as
  classes whose fields the factory updates in place, plus the two-state pause flag.
- `Factory` (`factory.dfy`): the type-switch dispatch. The runtime object is
  `InternalDC | V1DC | OtherObject` and the delegate is a record of functions.
  This module holds `UpdatePodSpecForObject`, `MapBasedSelectorForObject`,
  `PortsForObject`, `ProtocolsForObject`, `Pauser`, `Resumer`,
  `DefaultGenerators`, `Generators`, `CanBeExposed` and `CanBeAutoscaled`.

These foreign calls are function parameters: the delegate's methods,
`legacyscheme.Scheme.Convert` (one per direction), `kubectl.MakeLabels`,
`runtime.Encode` and `appsapi.IsKindOrLegacy`. A caller's mutator
`func(*PodSpec) error` is a function that returns the spec as it changed it
together with its error.

Notes on the source:

- The comment at pkg/oc/cli/util/clientcmd/factory_client_access.go:344 speaks
  of collapsing "non-AZ09 characters", but the character class `[^(\w/\.)]`
  also keeps `_`, `/`, `.`, `(` and `)`. The model keeps exactly the
  characters the class keeps.
- `UpdatePodSpecForObject` on an internal DeploymentConfig with no template does
  not attach the template it creates (see Findings).
- Conversion errors are returned unchanged, as the converter returns them.
- Pause, resume, selector, ports and protocols are specialised only for the
  internal DeploymentConfig type. A versioned DeploymentConfig goes to the delegate.

## Model

| member | source | states |
|---|---|---|
| `CacheDir.RemoveFirst` | pkg/oc/cli/util/clientcmd/factory_client_access.go:343 | `strings.Replace(s, pat, "", 1)`: without an occurrence the string is unchanged; otherwise exactly the first occurrence is cut out |
| `CacheDir.Index` | pkg/oc/cli/util/clientcmd/factory_client_access.go:343 | the index `Replace` cuts at: -1 exactly when there is no occurrence, otherwise the first occurrence |
| `CacheDir.Sanitize` | pkg/oc/cli/util/clientcmd/factory_client_access.go:345-351 | same length as the input; a kept character (ASCII letter, digit, `_`, `/`, `.`, `(`, `)`) stays in place; every other character becomes exactly one `_`; the output holds only kept characters |
| `CacheDir.Join` | pkg/oc/cli/util/clientcmd/factory_client_access.go:347 | `filepath.Join` of two elements: an empty element is skipped, otherwise the two are joined with `/` |
| `CacheDir.ComputeDiscoverCacheDir` | pkg/oc/cli/util/clientcmd/factory_client_access.go:341-348 | the result is the parent directory, a `/`, and a segment as long as the scheme-less host, with the host's kept characters in place and `_` elsewhere; every character after the parent is a kept one |
| `CacheDir.SanitizeIdempotent` | pkg/oc/cli/util/clientcmd/factory_client_access.go:345-351 | replacing the illegal characters a second time changes nothing |
| `CacheDir.SanitizeFixesExactlyKept` | pkg/oc/cli/util/clientcmd/factory_client_access.go:345-351 | a host comes out unchanged if and only if all of its characters are kept ones |
| `CacheDir.StripHttpsScheme` | pkg/oc/cli/util/clientcmd/factory_client_access.go:343 | for a host with no `https://`, `"https://" + host` names the same directory as `host` |
| `CacheDir.HttpPrefixHidesNoHttps` | pkg/oc/cli/util/clientcmd/factory_client_access.go:343 | prefixing `http://` creates no new `https://` occurrence |
| `CacheDir.StripHttpScheme` | pkg/oc/cli/util/clientcmd/factory_client_access.go:343 | for a host with neither `https://` nor `http://`, `"http://" + host` names the same directory as `host` |
| `CacheDir.HttpStripNeedsNoHttps` | pkg/oc/cli/util/clientcmd/factory_client_access.go:343 | the `http://` case needs the host to lack `https://` as well: the host `httphttps://://x` has no `http://`, yet with and without the prefix it strips to different strings, because removing `https://` forms a new `http://` |
| `Decimal.NatDigits` | pkg/oc/cli/util/clientcmd/factory_client_access.go:357 | the decimal digits of a natural number: at least one, all digits, a single one exactly below 10 |
| `Decimal.NatDigitsValue` | pkg/oc/cli/util/clientcmd/factory_client_access.go:357 | the digits of a natural number spell that number back, and there is no leading zero when there is more than one digit |
| `Decimal.Itoa` | pkg/oc/cli/util/clientcmd/factory_client_access.go:357 | `strconv.Itoa`: non-empty, and it starts with `-` exactly for negative numbers |
| `Decimal.ItoaValue` | pkg/oc/cli/util/clientcmd/factory_client_access.go:357 | `strconv.Itoa` of a non-negative number spells the number; of a negative number, the digits after the sign spell its magnitude |
| `Decimal.ItoaInjective` | pkg/oc/cli/util/clientcmd/factory_client_access.go:367 | distinct port numbers have distinct decimal strings, so the protocol table's key stands for one port number |
| `Decimal.ItoaExamples` | pkg/oc/cli/util/clientcmd/factory_client_access.go:357 | 80, 443 and 8080 are written `"80"`, `"443"`, `"8080"` |
| `PodSpec.PortStrings` | pkg/oc/cli/util/clientcmd/factory_client_access.go:353-361 | one decimal string per port |
| `PodSpec.GetPorts` | pkg/oc/cli/util/clientcmd/factory_client_access.go:353-361 | the nested loops return the decimal numbers of all declared ports, in container-then-port order |
| `PodSpec.GetProtocols` | pkg/oc/cli/util/clientcmd/factory_client_access.go:363-371 | the nested loops return the table filled port by port in container-then-port order, each write overwriting an earlier one under the same key |
| `PodSpec.AllPortsCount` | pkg/oc/cli/util/clientcmd/factory_client_access.go:355-358 | the flattened port list is as long as the total number of ports over all containers |
| `PodSpec.PortStringsAt` | pkg/oc/cli/util/clientcmd/factory_client_access.go:357 | entry k of the ports list is the decimal string of port k |
| `PodSpec.GetPortsMeaning` | pkg/oc/cli/util/clientcmd/factory_client_access.go:353-361 | `getPorts` returns as many strings as there are declared ports, the k-th the k-th port's number, and is empty exactly when no port is declared |
| `PodSpec.AllPortsMembers` | pkg/oc/cli/util/clientcmd/factory_client_access.go:355-356 | a port is in the flattened list exactly when some container declares it |
| `PodSpec.ProtocolsKeys` | pkg/oc/cli/util/clientcmd/factory_client_access.go:363-371 | the protocol table's keys are exactly the decimal strings of the declared ports |
| `PodSpec.ProtocolsLastWins` | pkg/oc/cli/util/clientcmd/factory_client_access.go:365-368 | under a port's number the table holds the protocol of the last declaration of that number |
| `PodSpec.PortsExample` | pkg/oc/cli/util/clientcmd/factory_client_access.go:353-361 | containers with ports [80, 443] and [8080] give `["80", "443", "8080"]` |
| `PodSpec.ProtocolsExample` | pkg/oc/cli/util/clientcmd/factory_client_access.go:363-371 | port 80 declared TCP and then UDP gives `{"80": "UDP"}` |
| `SchemaBridge.ExternalMutatorOnInternal` | pkg/oc/cli/util/clientcmd/factory_client_access.go:186-202 | on any failure the spec is untouched and the error returned is that of the first failing step: the conversion to the versioned type, else the mutator, else the conversion back; no error exactly when all three steps succeed, and then the spec is the converted-back mutated copy |
| `SchemaBridge.InternalMutatorOnExternal` | pkg/oc/cli/util/clientcmd/factory_client_access.go:168-184 | the same in the other direction |
| `SchemaBridge.ConvertExternalPodSpecToInternal` | pkg/oc/cli/util/clientcmd/factory_client_access.go:186-202 | the spec held by the target is overwritten only when all three steps succeed, and then with the converted-back value |
| `SchemaBridge.ConvertInternalPodSpecToExternal` | pkg/oc/cli/util/clientcmd/factory_client_access.go:168-184 | the same in the other direction |
| `SchemaBridge.IdentityMutatorKeepsInternalSpec` | pkg/oc/cli/util/clientcmd/factory_client_access.go:186-202 | with conversions that round-trip on the spec, a no-op mutator succeeds and leaves the spec as it was |
| `SchemaBridge.IdentityMutatorKeepsExternalSpec` | pkg/oc/cli/util/clientcmd/factory_client_access.go:168-184 | the same in the other direction |
| `Apps.StateOf` | pkg/oc/cli/util/clientcmd/factory_client_access.go:267 | what the encoder is given: the config's pause flag, its selector, and exactly when it has a template, that template's spec |
| `Apps.PauseStep` | pkg/oc/cli/util/clientcmd/factory_client_access.go:262-265 | pausing fails with "is already paused" exactly when the config is already paused, and then the flag is kept; the flag is set afterwards |
| `Apps.ResumeStep` | pkg/oc/cli/util/clientcmd/factory_client_access.go:280-283 | resuming fails with "is not paused" exactly when the config is not paused, and then the flag is kept; the flag is clear afterwards |
| `Apps.PauseResumeInverse` | pkg/oc/cli/util/clientcmd/factory_client_access.go:259-289 | a successful pause followed by a resume, or a resume followed by a pause, restores the flag without error |
| `Apps.RepeatedTransitionFails` | pkg/oc/cli/util/clientcmd/factory_client_access.go:262-281 | a second pause or a second resume in a row always fails |
| `Factory.UpdatePodSpecForObject` | pkg/oc/cli/util/clientcmd/factory_client_access.go:142-166 | both DeploymentConfig shapes report "updated" whatever the mutator does. An internal config keeps the template pointer it had (nil stays nil), and its template's spec changes as the bridge says. A versioned config always ends with a template, fresh if it had none, and the mutator's result lands in it. Any other object gets the delegate's answer |
| `Factory.UpdateInternalAttached` | pkg/oc/cli/util/clientcmd/factory_client_access.go:144-160 | the internal branch with the template attached: afterwards the config always has a template (the old one if there was one, else a fresh one) holding the bridged mutation of the old or empty spec, it reports the object as updated, and the pause flag and selector are unchanged |
| `Factory.NilTemplateMutationIsLost` | pkg/oc/cli/util/clientcmd/factory_client_access.go:145-148 | a concrete scenario, proved: on an internal config with no template, a mutator that adds a container succeeds and the call reports success, yet the config still has no template |
| `Factory.MapBasedSelectorForObject` | pkg/oc/cli/util/clientcmd/factory_client_access.go:204-211 | an internal config's selector, label-encoded, never an error; any other object gets the delegate's answer |
| `Factory.PortsForObject` | pkg/oc/cli/util/clientcmd/factory_client_access.go:213-220 | an internal config yields its template's port strings; any other object gets the delegate's answer |
| `Factory.ProtocolsForObject` | pkg/oc/cli/util/clientcmd/factory_client_access.go:222-229 | an internal config yields its template's protocol table; any other object gets the delegate's answer |
| `Factory.Pauser` | pkg/oc/cli/util/clientcmd/factory_client_access.go:259-271 | on an internal config, the flag follows `PauseStep` and nothing else changes. It fails with "is already paused" when paused, and otherwise returns the encoding of the now-paused config. Any other object gets the delegate's answer |
| `Factory.Resumer` | pkg/oc/cli/util/clientcmd/factory_client_access.go:277-289 | the same with `ResumeStep` and "is not paused" |
| `Factory.PauseThenResume` | pkg/oc/cli/util/clientcmd/factory_client_access.go:259-289 | on a running internal config, a pause followed by a resume: neither call is refused, the flag, selector and template end as they started, and each call returns the encoder's output for the state it leaves |
| `Factory.DefaultGenerators` | pkg/oc/cli/util/clientcmd/factory_client_access.go:295-306 | `run` has exactly `deploymentconfig/v1` and `run-controller/v1`, `expose` has exactly `route/v1`, and any other command has an empty table |
| `Factory.Generators` | pkg/oc/cli/util/clientcmd/factory_client_access.go:308-320 | the keys are those of the delegate's table and of the OpenShift table together; on a shared key the OpenShift entry wins; for a command OpenShift does not define, the result is the delegate's table |
| `Factory.CanBeExposed` | pkg/oc/cli/util/clientcmd/factory_client_access.go:322-327 | a DeploymentConfig kind (or its legacy alias) always succeeds; any other kind gets the delegate's answer |
| `Factory.CanBeAutoscaled` | pkg/oc/cli/util/clientcmd/factory_client_access.go:329-334 | likewise for autoscaling |

## Left out

- `NewClientAccessFactory` (lines 49-70): it sets package globals of other libraries and builds flag sets. This is configuration plumbing with no logic to state.
- `discoveryFactory.BindFlags` and `discoveryFactory.DiscoveryClient` (lines 77-112) are not modelled: the home directory lookup, the burst override to 100, the caching transport wrapper, client construction and the 10-minute cached discovery client are all I/O or foreign constructors. Only the cache-directory name they compute is modelled.
- The pass-through methods (`RawConfig`, `DiscoveryClient`, `KubernetesClientSet`, `ClientSet`, `ClientConfig`, `BareClientConfig`, `RESTClient`, `LabelsForObject`, `FlagSet`, `Command`, `BindFlags`, `BindExternalFlags`, `DefaultResourceFilterFunc`, `SuggestedPodTemplateResources`, `ResolveImage`, `DefaultNamespace`) only forward the call.
- `EditorEnvs` returns a constant list; `ParseDockerImageReferenceToStringFunc` wraps a parser that is not part of this model.
- The foreign calls (`legacyscheme.Scheme.Convert`, `runtime.Encode`, `kubectl.MakeLabels`, `appsapi.IsKindOrLegacy`) and the delegate's operations are function parameters. Their outputs are not modelled, and neither is any state the delegate changes on the objects it handles.
- Generator implementations are opaque values.
- `CacheDir.Join` does not model the cleaning step of `filepath.Join` (collapsing `..`, `.` and repeated `/`). So the shape `ComputeDiscoverCacheDir` promises (the parent, a `/`, then a segment as long as the host) holds only for the join as modelled. `/` and `.` are kept characters, so the host `https://../../x` gives the segment `../../x`, and Go's cleaning then turns the joined path into one outside the parent directory.
- `CacheDir.Sanitize` counts Unicode characters. Go's regexp matches runes, so a multi-byte character also becomes one `_`. The length it preserves is in characters, not bytes, and invalid UTF-8 is not modelled.
- `Factory.PortsForObject` and `Factory.ProtocolsForObject` require an internal config to have a template. The source dereferences `Spec.Template` without a nil check and panics, and a panic is not modelled.
- The "pause the deployer containers" TODOs (lines 266 and 284) are unimplemented in the source and so are not modelled.
- Go map iteration order in `Generators` is not modelled: the loops pick keys in any order, and the proved result does not depend on it.

## Findings

| source | as written | input that shows it | evidently intended | confidence | as-written member | corrected member |
|---|---|---|---|---|---|---|
| pkg/oc/cli/util/clientcmd/factory_client_access.go:145-148 | when an internal DeploymentConfig has no template, `t.Spec.Template = template` assigns nil before the fresh template is created. The mutator then changes a template that is never attached, and the call still reports success | an internal DeploymentConfig with `Spec.Template == nil` and a mutator that adds a container and returns nil | create the template first and attach it, as the versioned branch does at lines 157-159, so the mutation is kept | not executed; medium (the two branches differ only in statement order) | `Factory.NilTemplateMutationIsLost` (over `Factory.UpdatePodSpecForObject`) | `Factory.UpdateInternalAttached` |
