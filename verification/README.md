# app-admission-controller: verified model

The controller defaults App resources in a mutating webhook, by answering an admission request with a list of
JSON Patch operations, and checks them in a validating webhook. This project models both webhooks and the security
inspector in Dafny, and proves what their parts promise each other.

`dafny verify dfyconfig.toml` checks the whole project.

## How the model is laid out

| file | content |
|---|---|
| `Wrappers`, `Text`, `Semver` | optional values and errors, string operations, versions and their precedence |
| `Json` | documents, JSON Pointer (RFC 6901 sections 3 and 4), "add" (RFC 6902 section 4.1) |
| `Apps`, `Clusters` | the App resource and how a raw document decodes to it; the cluster snapshot and the ConfigMap store |
| `Encoding` | the document of an App, which decodes to it |
| `Edits`, `EditLists` | the nine kinds of patch, what each means for a raw document and for the decoded App, and lists of them |
| `Defaulting` | the decisions of the mutator as functions, and `DefaultedApp`, the App it is meant to produce |
| `Mutator` | the mutator itself: a class whose methods append patches step by step and write ConfigMaps |
| `Behaviour` | what a call does to App and ConfigMaps, in literals and fields, without the functions of `Defaulting` |
| `Refinement`, `PatchList` | one call: the list applies, reaches `DefaultedApp`, and undoes nothing |
| `Convergence`, `Rounds` | repeated calls, in a fixed and in a changing cluster |
| `PspStore`, `Lookups` | ConfigMap names and references over all runs; kubeconfig secrets, the release cut-off, Releases |
| `Requests`, `Validator`, `Events` | requests, the validating webhook, its agreement with the mutator, its events |
| `Inspector` | the lookup tables of the inspector and the policy on the raw lists |
| `Samples`, `Counterexamples` | small documents, and for each property that needs a condition an input on which it fails |

The methods of `Mutator` are proved equal to the functions of `Defaulting`; everything else is proved about those
functions. `Behaviour` says independently of them what they come to. A patch goes into the model as the string path and the JSON value the program sends, and its effect is
what applying it to the raw document does.

Modelling choices:

- The accessors of the `key` package are field reads, except three that depend on the namespace and the cluster label:
  namespaces starting with `org-` belong to an organisation, and `<cluster>-cluster-values` and `<cluster>-kubeconfig`
  are built from the cluster label there and from the namespace elsewhere (pkg/app/mutate_app_test.go:296-300, 416-423).
- The version parser is an arbitrary function, of which only `""` (fails), `0.0.0` and `1.0.0` are fixed.
- The library that merges a cluster App's values is an arbitrary function of the App and the ConfigMaps, which may fail.
- An API call succeeds, finds nothing, or fails otherwise; `faults` in a snapshot lists the calls that fail.
- The validations behind the gates of `Validate` are arbitrary functions.
- A `char` stands for one byte.

Where comments and code disagree the code is followed: a `ConfigPatch` is matched against `spec.name`
(pkg/app/mutate_app_psp_removal.go:94), not the object's name as config/config.go:45 says.

## What turned out to need a condition

Each of these is an equivalence, with a concrete input on the failing side.

- A patch list fails to apply exactly when the call takes the full path, a kubeconfig secret is found for the App, and
  the raw document has no `spec.kubeConfig` object (`PatchList.ListRefinesDefault`, `Counterexamples.ListDoesNotApply`).
- The two webhooks agree on whether an App is past the version gate except when the chart-operator is labelled `0.0.0`
  and the App's version is to be defaulted; that App is defaulted on its next update (`Validator.WebhooksAgree`,
  `Convergence.PromotionIsDeferred`, `Counterexamples.PromotedAppIsUnfinished`).
- For such an App one run is enough exactly when its next run has nothing to write behind the gate
  (`Convergence.PromotedSettlesExactly`, `Counterexamples.PromotedAppIsUnfinished`).
- The inspector can reject what the mutator wrote into an App it would have accepted as sent, exactly for an added entry,
  a kubeconfig found or a catalog pinned that offends (`Validator.PatchedUnderInspection`,
  `Counterexamples.DefaultingGetsRejected`).
- Escaping label keys is right exactly for keys without `~` (`Json.LabelRoundTrip`, `Json.EscapeCollides`).
- PSP references stay intact over all runs exactly when selected patches of equal name carry equal values
  (`PspStore.IntegrityNeedsCompatibility`, with the failing run in its proof).
- A failed read of the App's own kubeconfig secret counts as absence (`Lookups.LookupFindsSecrets`,
  `Counterexamples.FailedReadHidesSecret`).
- A longer namespace blacklist can lift a rejection, exactly by making the App's namespace private
  (`Inspector.NamespaceBlacklistLifts`, `Counterexamples.LongerBlacklistAdmits`).

## Model

| member | source | states |
|---|---|---|
| Json.LabelRoundTrip | pkg/app/mutate_app.go:343-347 | the pointer built for a label key parses to metadata, labels and the key if and only if the key has no `~` |
| Json.PointerRoundTrip | pkg/app/mutate_app.go:390-392 | the same for locations of any length: parsing inverts rendering exactly when no token has a `~` |
| Json.EscapeInjective | pkg/app/mutate_app.go:390-392 | distinct keys without `~` have distinct escapes |
| Json.EscapeCollides | pkg/app/mutate_app.go:390-392 | with `~` two different keys can share one escape |
| Json.StandardRoundTrip | pkg/mutator/patch.go:3-9 | the reading of pointers is the one of sections 3 and 4 of RFC 6901: what they prescribe to write parses to its tokens, whatever those contain |
| Json.AddThenRead | pkg/mutator/patch.go:20-37 | whatever the target, the value added is the value found at the location afterwards; at the end of an array it is the new last element behind the old ones |
| Json.AddNeedsParent | pkg/app/mutate_app.go:120-129 | an "add" succeeds only below an existing object or array, at any depth: hence the order of the list |
| Json.AddInsertsElement | pkg/mutator/patch.go:25-26 | at an array index the value is inserted and later elements move up; past the end it fails; `-` is the end |
| Json.IndexIsDecimal | pkg/mutator/patch.go:25-26 | an array index is the number in decimal; a leading zero or another character is not one |
| Mutator.PspLabelEscaped | pkg/app/mutate_app_psp_removal.go:46-48 | the hand-escaped constant is the escape of the plain label key |
| Encoding.EncodedAppDecodes | pkg/app/mutate_app.go:87-99 | every field of an App is read from its own member of the document: the document of any App decodes to it |
| Edits.PointerReachesTokens | pkg/app/mutate_app.go:120-129 | every path the mutator writes parses to the location it is meant for |
| Edits.PatchIsDocEdit | pkg/mutator/patch.go:20-37 | each kind of patch changes one location of a decodable document, and fails exactly when its parent is missing |
| Edits.DecodeEdit | pkg/app/mutate_app.go:114-227 | decoding after the patch equals changing one field of the decoded App, for absent, null, empty and filled containers |
| EditLists.ListRefines | pkg/app/mutate_app.go:114-227 | any list applies exactly when each patch finds its parent, given the containers at the start, and then edits the App |
| EditLists.WrittenStays | pkg/app/mutate_app.go:120-123 | in a list whose members do not disturb each other, every annotation and label patch is still in force at the end |
| Refinement.EditsReachDefault | pkg/app/mutate_app.go:114-227 | carried out one by one, the patches of a successful call give the App defined field by field |
| Refinement.EditsInOrder | pkg/app/mutate_app.go:120-224 | no member of a returned list overwrites an earlier one or a container it went into |
| PatchList.ListRefinesDefault | pkg/app/mutate_app.go:114-227 | refinement: on every raw document the returned list applies and decodes to the defaulted App, except exactly when a kubeconfig is found and the document has no kubeConfig object |
| PatchList.RestIsUntouched | pkg/app/mutate_app.go:114-227 | everything in the raw document outside the six members the mutator writes is unchanged, and inside them annotations, labels other than the three managed ones, existing list elements and kubeConfig members other than context and secret |
| PatchList.NoPatchUndoesAnother | pkg/app/mutate_app.go:120-224 | for i < j pointer j is no proper prefix of pointer i, and they are equal only for appends to extraConfigs |
| PatchList.ContainerInitialisedExactly | pkg/app/mutate_app.go:187-208 | the extraConfigs container patch occurs at most once, before every append, if and only if the App has none and something is appended |
| Convergence.SecondCall | pkg/app/mutate_app.go:131-173 | a second call succeeds, writes no ConfigMap, and repeats only annotation and label patches of the first |
| Convergence.OneRunSettles | pkg/app/mutate_app.go:114-227 | convergence: a second run leaves raw document and ConfigMaps as the first left them, unless the first promoted the App |
| Convergence.TwoRunsSettle | pkg/app/mutate_app.go:131-173 | in every case the third run changes nothing |
| Convergence.PromotionIsDeferred | pkg/app/mutate_app.go:162-173 | with a chart-operator labelled 0.0.0 the first run sets labels only and the next takes the full path |
| Convergence.PromotedSettlesExactly | pkg/app/mutate_app.go:131-173 | such a run always succeeds and stores nothing; if the next succeeds too, it changes nothing if and only if it finds no kubeconfig, no release to pin and no PSP entry, label or ConfigMap to write |
| Convergence.NeverPromotedTwice | pkg/app/mutate_app.go:131-143 | a defaulted App is not promoted again |
| Convergence.ClusterValuesPresent | pkg/app/mutate_app.go:249-293 | after a full run every App but one labelled 0.0.0 references its cluster values somewhere |
| Convergence.EnsuredTwice | pkg/app/mutate_app_psp_removal.go:208-238 | after a successful call the ConfigMap holds the values, and calling again changes nothing |
| Rounds.GrowthIsBounded | pkg/app/mutate_app.go:256-293 | over any rounds in any changing cluster the original extraConfigs stay in front and at most one cluster-values and one PSP entry follow, neither present before |
| Rounds.SettledFieldsNeverChange | pkg/app/mutate_app.go:295-351 | over any such rounds a settled version label, name label, kubeconfig secret or context name and every unmanaged label keep their values |
| PspStore.NamesFit | pkg/app/mutate_app_psp_removal.go:89-106 | effective names have at most 60 bytes, and the default name is used exactly when there is no custom patch |
| PspStore.CustomNamesCoincide | pkg/app/mutate_app_psp_removal.go:96-103 | two custom names are equal if and only if the first 42 bytes of their suffixes are |
| PspStore.CompatibleApps | pkg/app/mutate_app_psp_removal.go:92-106 | if selected patches of one name agree, any two Apps whose ConfigMaps share a name want the same values |
| PspStore.CallWritesOwnConfigMap | pkg/app/mutate_app_psp_removal.go:197-200 | a call, even a failing one, writes at most the App's own ConfigMap with the App's own values |
| PspStore.CarryingAppIsBacked | pkg/app/mutate_app_psp_removal.go:108-123 | a list with the psp-status label leaves an App that lists its ConfigMap and a ConfigMap that holds its values |
| PspStore.ReferencesStayIntact | pkg/app/mutate_app_psp_removal.go:193-202 | reference integrity over every sequence of admissions, accepted, rejected or failing, in any clusters: an App whose list carried the psp-status label stays backed for as long as its later versions list the same ConfigMap |
| PspStore.BackingPersists | pkg/app/mutate_app_psp_removal.go:210-238 | over every such sequence a ConfigMap once filled for an App stays filled with its values, whatever becomes of the App |
| PspStore.IntegrityNeedsCompatibility | pkg/app/mutate_app_psp_removal.go:243-251 | integrity over all runs from an empty cluster holds if and only if selected patches of one name carry equal values |
| Semver.PrecedenceTransitive | pkg/app/mutate_app_psp_removal.go:175 | precedence of section 11 is transitive over pre-release lists of any length |
| Semver.PrecedenceAntisymmetric | pkg/app/mutate_app_psp_removal.go:175 | swapping the arguments flips the sign of the comparison |
| Semver.PrecedenceZero | pkg/app/mutate_app_psp_removal.go:175 | only equal versions tie |
| Semver.PrecedenceByCore | pkg/app/mutate_app_psp_removal.go:175 | a smaller major is lower, then a smaller minor, then a smaller patch, and a pre-release is below its release |
| Semver.PrecedenceByIdentifiers | pkg/app/mutate_app_psp_removal.go:175 | between pre-releases the first identifier that differs decides, numbers by value and before texts, and a list is below its extensions |
| Lookups.VersionIsInherited | pkg/app/mutate_app.go:131-173 | an App without a version of its own ends up with the version label of its namespace's chart-operator, and is left alone when there is none that parses; an unreadable chart-operator is an error |
| Lookups.DropsPspExactly | pkg/app/mutate_app_psp_removal.go:158-190 | a cluster counts as rid of PSPs if and only if its release is at or above 19.3.0, on CAPI if its label says disabled; as still having them if the release is below, on CAPI if there is no label; otherwise an error |
| Lookups.PspPatchesFromCutoff | pkg/app/mutate_app_psp_removal.go:158-178 | on vintage providers patches are produced exactly from 19.3.0 on, or for an entry already listed |
| Lookups.CutoffIsUpwardClosed | pkg/app/mutate_app_psp_removal.go:158-178 | patches for one release are the patches for every release of equal or higher precedence |
| Lookups.CutoffForWholeCall | pkg/app/mutate_app_psp_removal.go:158-202 | the same for the whole returned list |
| Lookups.LookupFindsSecrets | pkg/app/mutate_app.go:353-379 | a namespace found holds such a secret, the own namespace wins, and nothing is found exactly when nothing is there or the own secret cannot be read |
| Lookups.DefaultedSecretExists | pkg/app/mutate_app.go:308-333 | a kubeconfig secret reference that was written names an existing secret |
| Lookups.ConfiguredReleaseExactly | pkg/app/mutate_cluster_app.go:29-98 | a cluster App is pinned exactly when its merged values hold a text at global.release.version, left alone exactly when they have a global object without release, and refused otherwise |
| Lookups.ClusterAppFollowsRelease | pkg/app/mutate_cluster_app.go:100-142 | the patched App has the version and catalog of the first Release component of its name |
| Behaviour.LabelsAfterCall | pkg/app/mutate_app.go:131-158 | whatever the major version, an App managed in an organisation namespace or whose counting version parses gets its `spec.name` as name label if it has neither kind, and the counting version if it has none; otherwise nothing changes |
| Behaviour.LowVersionsGetLabelsOnly | pkg/app/mutate_app.go:162-173 | below version 3, outside organisations and not labelled 0.0.0, the call succeeds, its list applies, and spec, ConfigMaps and all other labels stay |
| Behaviour.ContainersArePresent | pkg/app/mutate_app.go:120-129 | a patched document has objects for labels and for annotations, whatever it was sent with |
| Behaviour.KubeConfigIsKept | pkg/app/mutate_app.go:298-306 | an in-cluster App, or one with a secret name or namespace, keeps its kubeconfig in any cluster |
| Behaviour.KubeConfigIsSupplied | pkg/app/mutate_app.go:308-379 | on the full path a missing one names the secret of the App's own namespace, else the first labelled for it, else stays; an empty context becomes the cluster: the label inside `org-`, the namespace outside |
| Behaviour.ExtraConfigsAfterCall | pkg/app/mutate_app.go:256-293 | the patched list is the one sent, the cluster values if not referred to in config, user config or the list, and the PSP entry if decided; with the status label |
| Behaviour.PspDecision | pkg/app/mutate_app_psp_removal.go:59-190 | the decision spelled out: provider, cluster label, management bundles, a listed entry by name and priority, the first cluster of the name, a release of at least 19.3.0 by its numbers |
| Behaviour.ConfigMapsAfterCall | pkg/app/mutate_app_psp_removal.go:193-238 | the ConfigMaps after a full call that succeeds or fails: the App's own one holds its values, created or corrected with the managed-by label, also when a later part fails |
| Behaviour.ClusterAppAfterCall | pkg/app/mutate_cluster_app.go:100-142 | for `cluster-` and a provider, from either catalog: the Release of the lower-cased provider and the release without its v decides; its first component of the name is what the App gets, and anything missing refuses the request |
| Behaviour.SpellingsAgree | pkg/app/mutate_cluster_app.go:102-107 | a release spelled with and without a leading v gives the same patches or error |
| Behaviour.OthersAreNotPinned | pkg/app/mutate_cluster_app.go:19-24 | any other App, and a cluster App without release values, is neither pinned nor refused |
| Behaviour.FullCallSucceedsExactly | pkg/app/mutate_app.go:175-226 | a full call succeeds if and only if decision, ConfigMap, kubeconfig search and pin do, each with its failing API calls |
| Mutator.Mutator.Mutate | pkg/app/mutate_app.go:78-112 | dry runs and deletions are answered with no patches and unreadable objects with an error, and store nothing; every other list takes the raw document to the defaulted App, or does not apply in the one case stated |
| Mutator.Mutator.MutateApp | pkg/app/mutate_app.go:114-173 | the gates, in program order, return the list of the outcome and leave its ConfigMaps; the Behaviour rows say what that outcome is |
| Mutator.Mutator.InitContainers | pkg/app/mutate_app.go:120-129 | annotations before labels, each only when empty |
| Mutator.Mutator.DefaultSpec | pkg/app/mutate_app.go:175-226 | behind the gate the sub-mutators are joined into the full list; a failure keeps what was stored |
| Mutator.Mutator.WithExtraConfigs | pkg/app/mutate_app.go:196-208 | the container patch is put in by looking at the paths of both lists |
| Mutator.Mutator.HasPatchAddToExtraConfigs | pkg/app/mutate_app.go:381-388 | true if and only if some path lies below /spec/extraConfigs/ |
| Mutator.Mutator.MutateLabels | pkg/app/mutate_app.go:338-351 | the label patches wanted, with their escaped paths |
| Mutator.Mutator.MutateExtraConfigs | pkg/app/mutate_app.go:256-293 | an append exactly for Apps outside the management cluster that reference the cluster values nowhere |
| Mutator.Mutator.MutateKubeConfig | pkg/app/mutate_app.go:295-336 | context and secret patches exactly when neither is excluded and a secret is found |
| Mutator.Mutator.FindKubeConfigNamespace | pkg/app/mutate_app.go:353-379 | the loop finds the first labelled secret of the name, after the own namespace |
| Mutator.Mutator.MutateConfigForPSPRemoval | pkg/app/mutate_app_psp_removal.go:55-206 | label first, ConfigMap next, entry last and only when not listed; nothing is returned when the ConfigMap cannot be written |
| Mutator.Mutator.DecidePspRemoval | pkg/app/mutate_app_psp_removal.go:59-190 | the decision tree: provider, cluster label, listed entry, missing cluster, release or label |
| Mutator.Mutator.PspExtraConfig | pkg/app/mutate_app_psp_removal.go:83-106 | entry and values of the first custom patch, or the defaults |
| Mutator.Mutator.AppRequiresCustomPatch | pkg/app/mutate_app_psp_removal.go:243-251 | the loop returns the first patch for the App name |
| Mutator.Mutator.FindCluster | pkg/app/mutate_app_psp_removal.go:137-144 | the loop returns the first Cluster of the name |
| Mutator.Mutator.EnsureConfigMap | pkg/app/mutate_app_psp_removal.go:210-238 | keep, update or create, touching one ConfigMap only |
| Mutator.Mutator.MutateClusterApp | pkg/app/mutate_cluster_app.go:19-143 | version and catalog patches towards the Release component, and every error on the way |
| Validator.Validator.Validate | pkg/app/validate_app.go:104-187 | allowed without error exactly when every check that applies agrees; each failing check, the inspector, an unreadable new or old object give their own verdict; events exactly for updates past the checks without error |
| Validator.GatesAgreeOnApps | pkg/app/validate_app.go:120-134 | the validator's gates on the defaulted App and the mutator's full path coincide if and only if the App was not promoted |
| Validator.WebhooksAgree | pkg/app/validate_app.go:120-134 | the same for requests and patched raw documents |
| Validator.PatchedUnderInspection | pkg/app/validate_app.go:144-155 | the inspector sees a patched App if it would have seen the one sent or the mutator promoted it; it turns from accepting to rejecting if and only if actor and namespace have no exception and an added entry, a kubeconfig found or a pinned catalog offends |
| Events.EmitChanges | pkg/app/validate_app.go:218-229 | for any order of the map the emitted events are, with multiplicity, one per field whose text changed |
| Events.PairIsFaithful | pkg/app/validate_app.go:203-214 | between slash-free namespaces the text of a reference is equal exactly when the reference is |
| Events.PairCollides | pkg/app/validate_app.go:203-214 | with a slash in a namespace a changed reference can render the same |
| Events.EventsMeanChanges | pkg/app/validate_app.go:201-229 | for slash-free namespaces an event about a field is expected exactly when that field changed |
| Events.EventTexts | pkg/app/validate_app.go:201-229 | each changed field is reported under its own name, a reference emptied as a reset and anything else with its new value |
| Inspector.Inspector.New | internal/security/inspector/spec.go:33-70 | the tables hold exactly the members of the raw lists, namespaces split into fixed and dynamic |
| Inspector.Inspector.Inspect | internal/security/inspector/inspector.go:21-55 | rejects if and only if the policy on the raw lists does, naming the App or the first offending namespace |
| Inspector.Inspector.HasBlacklistedReference | internal/security/inspector/inspector.go:60-88 | the two passes reject if and only if some reference matches some raw entry; the first fixed hit is reported, else the first dynamic one |
| Inspector.Inspector.FirstFixedHit | internal/security/inspector/inspector.go:73-77 | the first reference equal to an entry that neither starts nor ends with a dash |
| Inspector.Inspector.FirstDynamicHit | internal/security/inspector/inspector.go:79-85 | the first reference that begins or ends with an entry that does |
| Inspector.Inspector.IsWhitelistedActor | internal/security/inspector/inspector.go:115-129 | by user name prefix or by group |
| Inspector.Inspector.IsWhitelistedUser | internal/security/inspector/inspector.go:136-144 | some configured user is a prefix of the name |
| Inspector.RejectsExactly | internal/security/inspector/inspector.go:21-144 | the policy spelled out: no listed user prefix or group, not from a listed namespace, and a listed App of a listed catalog or one of six kinds of reference that a listed entry meets |
| Inspector.HitsAreMatches | internal/security/inspector/spec.go:49-55 | the split into fixed and dynamic entries loses and adds nothing |
| Inspector.VerdictDependsOnMembers | internal/security/inspector/spec.go:33-70 | order and repetition in the five lists change neither verdict nor reported namespace |
| Inspector.WhitelistsOnlyAdmit | internal/security/inspector/inspector.go:115-144 | longer whitelists never turn acceptance into rejection |
| Inspector.BlacklistsOnlyReject | internal/security/inspector/inspector.go:93-102 | longer App and catalog blacklists never turn rejection into acceptance |
| Inspector.NamespaceBlacklistLifts | internal/security/inspector/inspector.go:107-110 | a longer namespace blacklist lifts a rejection exactly when the App's own namespace becomes a fixed entry |
| Counterexamples.ListDoesNotApply | pkg/app/mutate_app.go:308-333 | an App without a kubeConfig object whose secret is found: the call succeeds and its list does not apply |
| Counterexamples.PromotedAppIsUnfinished | pkg/app/mutate_app.go:162-173 | an App validated though not yet defaulted, which the second run changes |
| Counterexamples.FailedReadHidesSecret | pkg/app/mutate_app.go:353-379 | a labelled secret that is not found because the own namespace could not be read |
| Counterexamples.LongerBlacklistAdmits | internal/security/inspector/inspector.go:107-110 | an App rejected under one blacklist and admitted under a longer one, for every user |
| Counterexamples.DefaultingGetsRejected | pkg/app/mutate_app_psp_removal.go:193-202 | an App the inspector accepts as sent and rejects as patched, for every user |

## Left out

- HTTP handlers, TLS, health check, metrics, flags, YAML parsing, Helm templates: input and output only.
- Logging, error texts and wrapping, delivery of events: an error is its kind, an event its field and value.
- Nil checks in `NewMutator`, `NewValidator` and `New`, and the difference between a nil and an empty list.
- Retries of the values lookup and its timing: within one call the lookup answers the same every time.
- Two requests running `ensureConfigMap` at the same moment: calls are one after the other.
- The parser of version strings, the merging of cluster App values, and the validations behind the gates: other libraries.
- Decoding details of Go: fields matched regardless of case, fractional numbers, malformed timestamps.
- Lower-casing outside ASCII, and truncation in the middle of a multi-byte character.
- `PatchReplace` and the arguments `oldApp` and `operation` of `MutateApp`, which the program does not use.
- Convergence.OneRunSettles: assumes that the release lookup answers for the patched App as for the original, since values may depend on the catalog being patched.
