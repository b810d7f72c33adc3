/**
 What a call of the mutator does, said in terms of the document, the cluster and the configuration: literals and
 fields take the place of the functions that decide it. Where one statement builds on a decision or a pin, another
 one spells that out.
 */
module Behaviour {
  import opened Wrappers
  import opened Json
  import opened Apps
  import opened Clusters
  import opened Edits
  import opened EditLists
  import opened Defaulting
  import opened Refinement
  import opened PatchList
  import opened Convergence
  import opened Lookups
  import opened Semver
  import Text

  /** The label keys behind the names used below. */
  lemma LabelKeys()
    ensures NAME_LABEL == "app.kubernetes.io/name" && APP_LABEL == "app" && CLUSTER_LABEL == "giantswarm.io/cluster"
    ensures VERSION_LABEL == "app-operator.giantswarm.io/version" && PSP_LABEL == "policy.giantswarm.io/psp-status"
  {
  }

  // ---------------------------------------------------------------- which path a call takes

  predicate OrgManaged(app: App) {
    !app.spec.kubeConfig.inCluster && "org-" <= app.metadata.namespace
  }

  /** No version of its own: the chart-operator of the namespace is asked. */
  predicate Unversioned(app: App) {
    !OrgManaged(app) && (app.Label(VERSION_LABEL) == "" || app.Label(VERSION_LABEL) == "1.0.0")
  }

  predicate ChartOperatorReadable(snap: Snapshot, app: App) {
    Unversioned(app) ==> GetApp(ObjRef("chart-operator", app.metadata.namespace)) !in snap.faults
  }

  /** The version that counts for an App, None when it is to come from a chart-operator that is not there. */
  function CountingLabel(snap: Snapshot, app: App): Option<string> {
    var chartOperator := ObjRef("chart-operator", app.metadata.namespace);
    if !Unversioned(app) then Some(app.Label(VERSION_LABEL))
    else if chartOperator in snap.apps then Some(snap.apps[chartOperator].Label(VERSION_LABEL))
    else None
  }

  function CountingVersion(cfg: Config, snap: Snapshot, app: App): Option<Version> {
    var text :- CountingLabel(snap, app);
    cfg.parse(text)
  }

  predicate FullyDefaulted(cfg: Config, snap: Snapshot, app: App) {
    var version := CountingVersion(cfg, snap, app);
    OrgManaged(app) || (version.Some? && (app.Label(VERSION_LABEL) == "0.0.0" || version.value.major >= 3))
  }

  lemma GateByVersion(cfg: Config, snap: Snapshot, app: App)
    requires ParsesConstants(cfg.parse)
    ensures var gate := GateOf(cfg, snap, app);
            && (gate.Ok? <==> ChartOperatorReadable(snap, app))
            && (gate.Ok? ==> (gate.value.Full? <==> FullyDefaulted(cfg, snap, app)))
            && (gate.Ok? && !gate.value.Skip? ==> CountingLabel(snap, app) == Some(gate.value.version))
            && (gate == Ok(Skip) && CountingVersion(cfg, snap, app).Some? ==>
                  LabelEdits(app, CountingLabel(snap, app).value) == [])
            && (gate.Ok? && gate.value.LabelsOnly? ==> CountingVersion(cfg, snap, app).Some?)
  {
  }

  // ---------------------------------------------------------------- labels

  /**
   Labels on every path. Whatever the version, an App that is managed in an organisation namespace or whose
   counting version parses gets the name label unless it has one of the two kinds, and the counting version
   unless it has one; any other document and the ConfigMaps stay as they are.
   */
  lemma LabelsAfterCall(cfg: Config, snap: Snapshot, store: Store, doc: Json, app: App)
    requires ParsesConstants(cfg.parse) && Shaped(doc) && Decode(doc) == Some(app)
    ensures var run := Run(cfg, snap, store, doc);
            run.Some? ==>
              if OrgManaged(app) || CountingVersion(cfg, snap, app).Some? then
                && Decode(run.value.0).Some?
                && var b := Decode(run.value.0).value;
                   && b.Label(NAME_LABEL) ==
                      (if app.Label(NAME_LABEL) == "" && app.Label(APP_LABEL) == "" then app.spec.name else app.Label(NAME_LABEL))
                   && b.Label(VERSION_LABEL) ==
                      (if Unversioned(app) then CountingLabel(snap, app).value else app.Label(VERSION_LABEL))
              else run == Some((doc, store))
  {
    GateByVersion(cfg, snap, app);
    RunRefines(cfg, snap, store, doc, app);
    var gate := GateOf(cfg, snap, app);
    if Run(cfg, snap, store, doc).Some? && !gate.value.Skip? {
      DefaultedLabelValues(cfg, snap, Run(cfg, snap, store, doc).value.1, app, gate.value.version);
    }
  }

  predicate LowVersion(cfg: Config, snap: Snapshot, app: App) {
    var version := CountingVersion(cfg, snap, app);
    !OrgManaged(app) && app.Label(VERSION_LABEL) != "0.0.0" && version.Some? && version.value.major < 3
  }

  /** Nothing but the name and the version label differs. */
  predicate OnlyLabelsDiffer(app: App, b: App) {
    && b.spec == app.spec && b.metadata == app.metadata.(labels := b.metadata.labels)
    && b.metadata.labels - {NAME_LABEL, VERSION_LABEL} == app.metadata.labels - {NAME_LABEL, VERSION_LABEL}
  }

  lemma DefaultedLabelsDiffer(app: App, version: string)
    ensures DefaultedLabels(app, version) - {NAME_LABEL, VERSION_LABEL} == app.metadata.labels - {NAME_LABEL, VERSION_LABEL}
  {
  }

  lemma LowVersionDefaults(cfg: Config, snap: Snapshot, store: Store, app: App)
    requires ParsesConstants(cfg.parse) && LowVersion(cfg, snap, app) && GateOf(cfg, snap, app).Ok?
    ensures MutateOutcome(cfg, snap, store, app).result.Ok? && MutateOutcome(cfg, snap, store, app).store == store
    ensures !WritesKubeConfig(cfg, snap, app) && OnlyLabelsDiffer(app, DefaultedApp(cfg, snap, store, app))
  {
    GateByVersion(cfg, snap, app);
    var gate := GateOf(cfg, snap, app).value;
    if gate.LabelsOnly? {
      DefaultedLabelsDiffer(app, gate.version);
    }
  }

  /** Below version 3 the call always succeeds, its list applies, and it writes those two labels only. */
  lemma LowVersionsGetLabelsOnly(cfg: Config, snap: Snapshot, store: Store, doc: Json, app: App)
    requires ParsesConstants(cfg.parse) && Shaped(doc) && Decode(doc) == Some(app)
    requires LowVersion(cfg, snap, app)
    requires ChartOperatorReadable(snap, app)
    ensures var run := Run(cfg, snap, store, doc);
            && run.Some? && run.value.1 == store
            && Decode(run.value.0).Some? && OnlyLabelsDiffer(app, Decode(run.value.0).value)
  {
    GateByVersion(cfg, snap, app);
    LowVersionDefaults(cfg, snap, store, app);
    var o := MutateOutcome(cfg, snap, store, app);
    ListRefinesDefault(cfg, snap, store, doc, app, o.result.value, o.store);
  }

  // ---------------------------------------------------------------- containers

  /** After a call on any path that writes, the raw document has objects for annotations and labels. */
  lemma ContainersArePresent(cfg: Config, snap: Snapshot, store: Store, doc: Json, app: App)
    requires ParsesConstants(cfg.parse) && Shaped(doc) && Decode(doc) == Some(app)
    ensures var run := Run(cfg, snap, store, doc);
            run.Some? && run != Some((doc, store)) ==>
              && Shaped(run.value.0) && HasLabels(run.value.0) && HasObj(Meta(run.value.0), "annotations")
  {
    var run := Run(cfg, snap, store, doc);
    if run.Some? {
      var o := MutateOutcome(cfg, snap, store, app);
      RunRefines(cfg, snap, store, doc, app);
      if !GateOf(cfg, snap, app).value.Skip? {
        DefaultedLabelValues(cfg, snap, run.value.1, app, GateOf(cfg, snap, app).value.version);
        ContainersExist(run.value.0);
        if app.metadata.annotations == map[] {
          AnnotationsFirst(cfg, snap, store, app, o.result.value);
          EditsInOrder(cfg, snap, store, app);
          WrittenStays(doc, o.result.value, InitAnnotations);
        } else {
          RestIsUntouched(cfg, snap, store, doc, app, o.result.value, o.store);
          EmptyContainers(doc);
          AnnotationsKept(doc, run.value.0);
        }
      }
    }
  }

  lemma AnnotationsFirst(cfg: Config, snap: Snapshot, store: Store, app: App, edits: seq<Edit>)
    requires MutateOutcome(cfg, snap, store, app).result == Ok(edits)
    requires !GateOf(cfg, snap, app).value.Skip? && app.metadata.annotations == map[]
    ensures InitAnnotations in edits
  {
    assert Header(app)[0] == InitAnnotations;
    var version := GateOf(cfg, snap, app).value.version;
    assert LabelsOnlyEdits(app, version)[0] == InitAnnotations;
  }

  lemma AnnotationsKept(doc: Json, next: Json)
    requires Shaped(doc) && Shaped(next) && InsideFramed(doc, next)
    requires Decode(doc).Some? && Decode(doc).value.metadata.annotations != map[]
    ensures HasObj(Meta(next), "annotations")
  {
    DecodeParts(doc);
    var j := Member(Meta(doc), "annotations");
    assert StrMapOf(JNull) == Some(map[]);
    SameKeys(j);
    assert j.JObj? && MembersAt(Meta(doc), "annotations") != map[];
  }

  // ---------------------------------------------------------------- the parts of a full call

  lemma FullCallParts(cfg: Config, snap: Snapshot, store: Store, app: App)
    requires GateOf(cfg, snap, app).Ok? && GateOf(cfg, snap, app).value.Full?
    ensures var o, psp := MutateOutcome(cfg, snap, store, app), PspOutcome(cfg, snap, store, app);
            o.store == psp.store
            && (o.result.Ok? <==> psp.result.Ok? && KubeConfigEdits(snap, app).Ok? && Pin(snap, psp.store, app).Ok?)
  {
  }

  /** What a successful full call did, part by part. */
  lemma FullRunParts(cfg: Config, snap: Snapshot, store: Store, doc: Json, app: App)
    requires ParsesConstants(cfg.parse) && Shaped(doc) && Decode(doc) == Some(app)
    requires FullyDefaulted(cfg, snap, app)
    ensures var run := Run(cfg, snap, store, doc);
            run.Some? ==>
              var after := run.value.1;
              && Decode(run.value.0) == Some(DefaultedApp(cfg, snap, after, app))
              && GateOf(cfg, snap, app).Ok? && GateOf(cfg, snap, app).value.Full?
              && PspOutcome(cfg, snap, store, app).result.Ok? && PspOutcome(cfg, snap, store, app).store == after
              && KubeConfigEdits(snap, app).Ok? && Pin(snap, after, app).Ok?
  {
    GateByVersion(cfg, snap, app);
    RunRefines(cfg, snap, store, doc, app);
    if Run(cfg, snap, store, doc).Some? {
      FullCallParts(cfg, snap, store, app);
    }
  }

  // ---------------------------------------------------------------- kubeconfig

  /** The name of the workload cluster an App belongs to. */
  function Cluster(app: App): string {
    if "org-" <= app.metadata.namespace then app.Label(CLUSTER_LABEL) else app.metadata.namespace
  }

  /** A kubeconfig an App brings, or does not need, is left alone on every path. */
  lemma KubeConfigIsKept(cfg: Config, snap: Snapshot, store: Store, doc: Json, app: App)
    requires Shaped(doc) && Decode(doc) == Some(app)
    requires var k := app.spec.kubeConfig; k.inCluster || k.secret.name != "" || k.secret.namespace != ""
    ensures var run := Run(cfg, snap, store, doc);
            run.Some? ==> Decode(run.value.0).Some? && Decode(run.value.0).value.spec.kubeConfig == app.spec.kubeConfig
  {
    RunRefines(cfg, snap, store, doc, app);
  }

  /** A secret of the name that the cluster's label selects. */
  predicate LabelledWith(secret: Secret, cluster: string, name: string) {
    && secret.ref.name == name && "cluster.x-k8s.io/cluster-name" in secret.labels
    && secret.labels["cluster.x-k8s.io/cluster-name"] == cluster
  }

  lemma {:induction false} FirstNamedAt(secrets: seq<Secret>, cluster: string, name: string, i: nat)
    requires i <= |secrets| && forall j :: 0 <= j < i ==> !LabelledWith(secrets[j], cluster, name)
    requires i < |secrets| ==> LabelledWith(secrets[i], cluster, name)
    ensures FirstNamed(SelectedSecrets(secrets, CAPI_CLUSTER_LABEL, cluster), name) ==
            if i < |secrets| then secrets[i].ref.namespace else ""
    decreases |secrets|
  {
    if secrets != [] {
      var rest := SelectedSecrets(secrets[1..], CAPI_CLUSTER_LABEL, cluster);
      assert ([secrets[0]] + rest)[1..] == rest && [] + rest == rest;
      if i > 0 {
        FirstNamedAt(secrets[1..], cluster, name, i - 1);
      }
    }
  }

  /** The kubeconfig an App in need of one has after a call that found it in `namespace`. */
  function Supplied(app: App, namespace: string): KubeConfig {
    KubeConfig(false,
               if app.spec.kubeConfig.contextName == "" then Cluster(app) else app.spec.kubeConfig.contextName,
               ObjRef(Cluster(app) + "-kubeconfig", namespace))
  }

  lemma KubeConfigFound(snap: Snapshot, app: App, i: nat)
    requires app.metadata.namespace != "" && KubeConfigEdits(snap, app).Ok?
    requires !app.spec.kubeConfig.inCluster && app.spec.kubeConfig.secret == ObjRef("", "")
    requires i <= |snap.secrets| && (i < |snap.secrets| ==> snap.secrets[i].ref.namespace != "")
    requires var name := Cluster(app) + "-kubeconfig";
             && (forall j :: 0 <= j < i ==> !LabelledWith(snap.secrets[j], app.metadata.namespace, name))
             && (i < |snap.secrets| ==> LabelledWith(snap.secrets[i], app.metadata.namespace, name))
    ensures var own := ObjRef(Cluster(app) + "-kubeconfig", app.metadata.namespace);
            DefaultedKubeConfig(snap, app) ==
              if GetSecret(own) in snap.faults then app.spec.kubeConfig
              else if exists s :: s in snap.secrets && s.ref == own then Supplied(app, app.metadata.namespace)
              else if i < |snap.secrets| then Supplied(app, snap.secrets[i].ref.namespace)
              else app.spec.kubeConfig
  {
    var own := ObjRef(Cluster(app) + "-kubeconfig", app.metadata.namespace);
    FirstNamedAt(snap.secrets, app.metadata.namespace, Cluster(app) + "-kubeconfig", i);
    assert SecretExists(snap, own) <==> exists s :: s in snap.secrets && s.ref == own;
  }

  /**
   A kubeconfig that is missing is supplied on the full path: from the App's own namespace if the secret is there,
   else from the first secret labelled for it, else not at all.
   */
  lemma KubeConfigIsSupplied(cfg: Config, snap: Snapshot, store: Store, doc: Json, app: App, i: nat)
    requires ParsesConstants(cfg.parse) && Shaped(doc) && Decode(doc) == Some(app)
    requires FullyDefaulted(cfg, snap, app) && app.metadata.namespace != ""
    requires !app.spec.kubeConfig.inCluster && app.spec.kubeConfig.secret == ObjRef("", "")
    requires i <= |snap.secrets| && (i < |snap.secrets| ==> snap.secrets[i].ref.namespace != "")
    requires var name := Cluster(app) + "-kubeconfig";
             && (forall j :: 0 <= j < i ==> !LabelledWith(snap.secrets[j], app.metadata.namespace, name))
             && (i < |snap.secrets| ==> LabelledWith(snap.secrets[i], app.metadata.namespace, name))
    ensures var own := ObjRef(Cluster(app) + "-kubeconfig", app.metadata.namespace);
            var run := Run(cfg, snap, store, doc);
            run.Some? ==>
              && Decode(run.value.0).Some?
              && Decode(run.value.0).value.spec.kubeConfig ==
                 if GetSecret(own) in snap.faults then app.spec.kubeConfig
                 else if exists s :: s in snap.secrets && s.ref == own then Supplied(app, app.metadata.namespace)
                 else if i < |snap.secrets| then Supplied(app, snap.secrets[i].ref.namespace)
                 else app.spec.kubeConfig
  {
    FullRunParts(cfg, snap, store, doc, app);
    if Run(cfg, snap, store, doc).Some? {
      KubeConfigFound(snap, app, i);
    }
  }

  // ---------------------------------------------------------------- pod security policies

  /** `k` is the first patch configured for an application, or the number of patches when there is none. */
  predicate FirstPatch(patches: seq<ConfigPatch>, appName: string, k: nat) {
    k <= |patches| && (forall j :: 0 <= j < k ==> patches[j].appName != appName) && (k < |patches| ==> patches[k].appName == appName)
  }

  function EntryName(patches: seq<ConfigPatch>, k: nat): string {
    if k >= |patches| then "psp-removal-patch"
    else
      var name := "psp-removal-patch-" +
                  if patches[k].configMapSuffix == "" then patches[k].appName else patches[k].configMapSuffix;
      if |name| > 60 then name[..60] else name
  }

  function EntryValues(patches: seq<ConfigPatch>, k: nat): string {
    if k >= |patches| then "global:\n  podSecurityStandards:\n    enforced: true" else patches[k].values
  }

  function Entry(cfg: Config, app: App, k: nat): ExtraConfig {
    ExtraConfig("configMap", EntryName(cfg.patches, k), app.metadata.namespace, 150)
  }

  lemma {:induction false} CustomPatchAt(patches: seq<ConfigPatch>, appName: string, k: nat)
    requires FirstPatch(patches, appName, k)
    ensures CustomPatch(patches, appName) == if k < |patches| then Some(patches[k]) else None
    decreases |patches|
  {
    if patches != [] && k > 0 {
      CustomPatchAt(patches[1..], appName, k - 1);
    }
  }

  lemma EntryIsEffective(cfg: Config, app: App, k: nat)
    requires FirstPatch(cfg.patches, app.spec.name, k)
    ensures PspEntry(cfg, app) == Entry(cfg, app, k) && PspRef(cfg, app) == ObjRef(EntryName(cfg.patches, k), app.metadata.namespace)
    ensures PspConfigValues(cfg.patches, app.spec.name) == EntryValues(cfg.patches, k)
  {
    CustomPatchAt(cfg.patches, app.spec.name, k);
    if k < |cfg.patches| {
      var suffix := Suffix(cfg.patches[k]);
      assert PSP_CONFIG_NAME + "-" + suffix == "psp-removal-patch-" + suffix;
    }
  }

  /** `c` is the first cluster of a name, or the number of clusters when there is none. */
  predicate FirstOfName(clusters: seq<ClusterCR>, name: string, c: nat) {
    c <= |clusters| && (forall j :: 0 <= j < c ==> clusters[j].name != name) && (c < |clusters| ==> clusters[c].name == name)
  }

  lemma {:induction false} FirstClusterAt(clusters: seq<ClusterCR>, name: string, c: nat)
    requires FirstOfName(clusters, name, c)
    ensures FirstCluster(clusters, name) == if c < |clusters| then Some(clusters[c]) else None
    decreases |clusters|
  {
    if clusters != [] && c > 0 {
      FirstClusterAt(clusters[1..], name, c - 1);
    }
  }

  predicate AtLeast19Dot3(v: Version) {
    v.major > 19 || (v.major == 19 && (v.minor > 3 || (v.minor == 3 && (v.patch > 0 || v.prerelease == []))))
  }

  lemma CutoffByNumbers(v: Version)
    ensures LessThan(v, PSS_CUTOFF) <==> !AtLeast19Dot3(v)
  {
  }

  predicate VintageProvider(cfg: Config) {
    Text.ToLower(cfg.provider) in ["aws", "azure", "kvm"]
  }

  predicate CapiProvider(cfg: Config) {
    Text.ToLower(cfg.provider) in ["capa", "capz", "cloud-director", "vsphere"]
  }

  /** The answer of a cluster, by its release on vintage providers and by its psp-status label on the others. */
  function ClusterAnswer(cfg: Config, labels: map<string, string>): Result<PspCase> {
    if VintageProvider(cfg) then
      var release := if "release.giantswarm.io/version" in labels then cfg.parse(labels["release.giantswarm.io/version"]) else None;
      if release.None? then Err(PspRemoval) else Ok(if AtLeast19Dot3(release.value) then Unlisted else NotAffected)
    else if "policy.giantswarm.io/psp-status" !in labels then Ok(NotAffected)
    else if labels["policy.giantswarm.io/psp-status"] == "disabled" then Ok(Unlisted) else Err(PspRemoval)
  }

  /**
   The decision in full, with numbers for the cut-off and positions for what is found first: an unsupported
   provider is refused, an App of no workload cluster is let be, a listed entry settles it, then the cluster is asked.
   */
  lemma PspDecision(cfg: Config, snap: Snapshot, app: App, k: nat, c: nat)
    requires FirstPatch(cfg.patches, app.spec.name, k) && FirstOfName(snap.clusters, app.Label(CLUSTER_LABEL), c)
    ensures PspCaseOf(cfg, snap, app) ==
            if !VintageProvider(cfg) && !CapiProvider(cfg) then Err(PspRemoval)
            else if app.Label(CLUSTER_LABEL) == "" then Ok(NotAffected)
            else if app.Label(VERSION_LABEL) == "0.0.0" && app.metadata.namespace == "giantswarm" then Ok(NotAffected)
            else if Entry(cfg, app, k) in app.spec.extraConfigs then Ok(AlreadyListed)
            else if ListClusters in snap.faults then Err(PspRemoval)
            else if c < |snap.clusters| then ClusterAnswer(cfg, snap.clusters[c].labels)
            else if VintageProvider(cfg) then Err(PspRemoval) else Ok(NotAffected)
  {
    EntryIsEffective(cfg, app, k);
    FirstClusterAt(snap.clusters, app.Label(CLUSTER_LABEL), c);
    if c < |snap.clusters| && RELEASE_LABEL in snap.clusters[c].labels {
      var release := cfg.parse(snap.clusters[c].labels[RELEASE_LABEL]);
      if release.Some? {
        CutoffByNumbers(release.value);
      }
    }
  }

  /** The ConfigMaps with one made to hold some values: left alone, labels and all, if it holds them already. */
  function Holding(store: Store, ref: ObjRef, values: string): Store {
    if ref in store && store[ref].data == map["values" := values] then store
    else store[ref := ConfigMap(map["giantswarm.io/managed-by" := "app-admission-controller"], map["values" := values])]
  }

  /** Some API call that is needed to make a ConfigMap hold some values fails. */
  predicate CannotHold(snap: Snapshot, store: Store, ref: ObjRef, values: string) {
    || GetConfigMap(ref) in snap.faults
    || (ref !in store && CreateConfigMap(ref) in snap.faults)
    || (ref in store && store[ref].data != map["values" := values] && UpdateConfigMap(ref) in snap.faults)
  }

  /**
   What becomes of the ConfigMaps on the full path, whether the call succeeds or not: nothing unless the decision
   concerns the App, and else its own ConfigMap holds its values, also when a later part of the call fails.
   */
  lemma ConfigMapsAfterCall(cfg: Config, snap: Snapshot, store: Store, app: App, k: nat)
    requires ParsesConstants(cfg.parse) && FirstPatch(cfg.patches, app.spec.name, k)
    requires FullyDefaulted(cfg, snap, app) && ChartOperatorReadable(snap, app)
    ensures var o, decision := MutateOutcome(cfg, snap, store, app), PspCaseOf(cfg, snap, app);
            var ref, values := ObjRef(EntryName(cfg.patches, k), app.metadata.namespace), EntryValues(cfg.patches, k);
            if decision.Err? then o == Outcome(Err(decision.error), store)
            else if decision.value.NotAffected? then o.store == store
            else if CannotHold(snap, store, ref, values) then o == Outcome(Err(ApiFailure), store)
            else o.store == Holding(store, ref, values)
  {
    GateByVersion(cfg, snap, app);
    FullCallParts(cfg, snap, store, app);
    EntryIsEffective(cfg, app, k);
  }

  /** And what becomes of the App: the psp-status label, and the entry at the end of its list unless it is there. */
  lemma ExtraConfigsAfterCall(cfg: Config, snap: Snapshot, store: Store, doc: Json, app: App, k: nat)
    requires ParsesConstants(cfg.parse) && Shaped(doc) && Decode(doc) == Some(app)
    requires FullyDefaulted(cfg, snap, app) && FirstPatch(cfg.patches, app.spec.name, k)
    ensures var run := Run(cfg, snap, store, doc);
            run.Some? ==>
              var decision := PspCaseOf(cfg, snap, app);
              && Decode(run.value.0).Some? && decision.Ok?
              && var b := Decode(run.value.0).value;
                 && b.spec.extraConfigs == app.spec.extraConfigs + ClusterValues(app) +
                    (if decision.value.Unlisted? then [Entry(cfg, app, k)] else [])
                 && b.Label("policy.giantswarm.io/psp-status") ==
                    (if decision.value.NotAffected? then app.Label("policy.giantswarm.io/psp-status") else "disabled")
  {
    FullRunParts(cfg, snap, store, doc, app);
    EntryIsEffective(cfg, app, k);
    var run := Run(cfg, snap, store, doc);
    if run.Some? {
      DefaultedLists(cfg, snap, run.value.1, app);
    }
  }

  /** The entry for the cluster values, for Apps outside the management cluster that refer to them nowhere. */
  function ClusterValues(app: App): seq<ExtraConfig> {
    var ref := ObjRef(Cluster(app) + "-cluster-values", app.metadata.namespace);
    if app.Label(VERSION_LABEL) == "0.0.0" || app.spec.config.configMap == ref || app.spec.userConfig.configMap == ref ||
       exists e :: e in app.spec.extraConfigs && e.name == ref.name && e.namespace == ref.namespace
    then [] else [ExtraConfig("configMap", ref.name, ref.namespace, 1)]
  }

  lemma ClusterValuesIsWanted(app: App)
    ensures ClusterValues(app) == if WantsClusterValues(app) then [ClusterValuesEntry(app)] else []
  {
  }

  lemma DefaultedLists(cfg: Config, snap: Snapshot, after: Store, app: App)
    requires GateOf(cfg, snap, app).Ok? && GateOf(cfg, snap, app).value.Full? && PspCaseOf(cfg, snap, app).Ok?
    ensures var b, decision := DefaultedApp(cfg, snap, after, app), PspCaseOf(cfg, snap, app).value;
            && b.spec.extraConfigs == app.spec.extraConfigs + ClusterValues(app) +
               (if decision.Unlisted? then [PspEntry(cfg, app)] else [])
            && b.Label("policy.giantswarm.io/psp-status") ==
               (if decision.NotAffected? then app.Label("policy.giantswarm.io/psp-status") else "disabled")
  {
    DistinctLabels();
    ClusterValuesIsWanted(app);
  }

  // ---------------------------------------------------------------- cluster apps

  /** The first component of a name in a Release, or the number of components when there is none. */
  predicate FirstComponentAt(components: seq<Component>, name: string, i: nat) {
    && i <= |components| && (forall j :: 0 <= j < i ==> components[j].name != name)
    && (i < |components| ==> components[i].name == name)
  }

  lemma {:induction false} ComponentAt(components: seq<Component>, name: string, i: nat)
    requires FirstComponentAt(components, name, i)
    ensures FirstComponent(components, name) == if i < |components| then Some(components[i]) else None
    decreases |components|
  {
    if components != [] && i > 0 {
      ComponentAt(components[1..], name, i - 1);
    }
  }

  /** The App installs `cluster-` and a provider from one of the two catalogs of cluster Apps. */
  predicate ClusterAppOf(app: App, provider: string) {
    (app.spec.catalog == "cluster" || app.spec.catalog == "cluster-test") && app.spec.name == "cluster-" + provider
  }

  /** Its merged values can be read and hold a release. */
  predicate Configures(snap: Snapshot, store: Store, app: App, text: string) {
    && GetCatalog(app.spec.catalog) !in snap.faults && app.spec.catalog in snap.catalogs
    && var values := snap.mergedValues(app, store);
       values.Some? && At(JObj(values.value), ["global", "release", "version"]) == Some(JStr(text))
  }

  /** A release is spelled with or without a leading `v`. */
  predicate Spells(text: string, release: string) {
    text == "v" + release || (text == release && !("v" <= release))
  }

  lemma ReleaseIsNamed(app: App, provider: string, text: string, release: string)
    requires app.spec.name == "cluster-" + provider && Spells(text, release)
    ensures ReleaseName(app, text) == Text.ToLower(provider) + "-" + release
  {
  }

  /**
   The Release consulted is the one of the lower-cased provider and the release without its leading `v`. The pin is
   its first component of the App's name; a Release that is missing or cannot be read, and a component that is missing
   or has no version, refuse the request.
   */
  lemma PinFromRelease(snap: Snapshot, store: Store, app: App, provider: string, text: string, release: string, i: nat)
    requires ClusterAppOf(app, provider) && Configures(snap, store, app, text) && Spells(text, release)
    requires var key := Text.ToLower(provider) + "-" + release;
             key in snap.releases ==> FirstComponentAt(snap.releases[key], app.spec.name, i)
    ensures var key := Text.ToLower(provider) + "-" + release;
            Pin(snap, store, app) ==
            if GetRelease(key) in snap.faults then Err(ApiFailure)
            else if key !in snap.releases then Err(NotFound)
            else if i == |snap.releases[key]| || snap.releases[key][i].version == "" then Err(ClusterAppVersionNotFound)
            else Ok(Some(snap.releases[key][i]))
  {
    var key := Text.ToLower(provider) + "-" + release;
    assert app.spec.name[..|"cluster-"|] == "cluster-";
    ConfiguredReleaseExactly(snap, store, app);
    ReleaseIsNamed(app, provider, text, release);
    if key in snap.releases {
      ComponentAt(snap.releases[key], app.spec.name, i);
    }
  }

  /** Other Apps, and cluster Apps without a release in their values, are never pinned and never refused for it. */
  lemma OthersAreNotPinned(snap: Snapshot, store: Store, app: App)
    requires || !(app.spec.catalog == "cluster" || app.spec.catalog == "cluster-test") || !("cluster-" <= app.spec.name)
             || (&& GetCatalog(app.spec.catalog) !in snap.faults && app.spec.catalog in snap.catalogs
                 && var values := snap.mergedValues(app, store);
                    values.Some? && HasObj(values.value, "global") && "release" !in values.value["global"].members)
    ensures Pin(snap, store, app) == Ok(None)
  {
  }

  /** The patched App has the version and catalog of the pin, and keeps its own when it is not pinned. */
  lemma VersionAfterCall(cfg: Config, snap: Snapshot, store: Store, doc: Json, app: App)
    requires ParsesConstants(cfg.parse) && Shaped(doc) && Decode(doc) == Some(app) && FullyDefaulted(cfg, snap, app)
    ensures var run := Run(cfg, snap, store, doc);
            run.Some? ==>
              var pin := Pin(snap, run.value.1, app);
              && Decode(run.value.0).Some? && pin.Ok?
              && var b := Decode(run.value.0).value;
                 (b.spec.version, b.spec.catalog) ==
                 if pin.value.None? then (app.spec.version, app.spec.catalog) else (pin.value.value.version, pin.value.value.catalog)
  {
    FullRunParts(cfg, snap, store, doc, app);
  }

  /** A Release that has the App's component with a version, and can be read. */
  predicate Releases(snap: Snapshot, key: string, name: string, i: nat) {
    && GetRelease(key) !in snap.faults && key in snap.releases
    && i < |snap.releases[key]| && FirstComponentAt(snap.releases[key], name, i) && snap.releases[key][i].version != ""
  }

  /** The whole call for a cluster App with a release: towards the component of its Release, or refused for want of it. */
  lemma ClusterAppAfterCall(cfg: Config, snap: Snapshot, store: Store, doc: Json, app: App,
                            provider: string, text: string, release: string, i: nat)
    requires ParsesConstants(cfg.parse) && Shaped(doc) && Decode(doc) == Some(app)
    requires FullyDefaulted(cfg, snap, app) && ChartOperatorReadable(snap, app)
    requires ClusterAppOf(app, provider) && Spells(text, release)
    requires Configures(snap, MutateOutcome(cfg, snap, store, app).store, app, text)
    requires var key := Text.ToLower(provider) + "-" + release;
             key in snap.releases ==> FirstComponentAt(snap.releases[key], app.spec.name, i)
    ensures var o, run := MutateOutcome(cfg, snap, store, app), Run(cfg, snap, store, doc);
            var key := Text.ToLower(provider) + "-" + release;
            if Releases(snap, key, app.spec.name, i) then
              && (o.result.Ok? <==> PspOutcome(cfg, snap, store, app).result.Ok? && KubeConfigEdits(snap, app).Ok?)
              && (run.Some? ==>
                    && Decode(run.value.0).Some?
                    && Decode(run.value.0).value.spec.version == snap.releases[key][i].version
                    && Decode(run.value.0).value.spec.catalog == snap.releases[key][i].catalog)
            else o.result.Err?
  {
    var after := MutateOutcome(cfg, snap, store, app).store;
    GateByVersion(cfg, snap, app);
    FullCallParts(cfg, snap, store, app);
    PinFromRelease(snap, after, app, provider, text, release, i);
    VersionAfterCall(cfg, snap, store, doc, app);
  }

  /** Both spellings of a release lead to the same patches, or the same error. */
  lemma SpellingsAgree(snap: Snapshot, other: Snapshot, store: Store, app: App, provider: string, release: string)
    requires ClusterAppOf(app, provider) && !("v" <= release)
    requires other == snap.(mergedValues := other.mergedValues)
    requires Configures(snap, store, app, release) && Configures(other, store, app, "v" + release)
    ensures ClusterAppEdits(other, store, app) == ClusterAppEdits(snap, store, app)
  {
  }

  // ---------------------------------------------------------------- when a full call succeeds

  /** A full call succeeds exactly when the decision, its ConfigMap, the search for a kubeconfig and the pin all do. */
  lemma FullCallSucceedsExactly(cfg: Config, snap: Snapshot, store: Store, app: App, k: nat)
    requires ParsesConstants(cfg.parse) && FirstPatch(cfg.patches, app.spec.name, k)
    requires FullyDefaulted(cfg, snap, app) && ChartOperatorReadable(snap, app)
    ensures var o, decision := MutateOutcome(cfg, snap, store, app), PspCaseOf(cfg, snap, app);
            var ref, own := ObjRef(EntryName(cfg.patches, k), app.metadata.namespace),
                            ObjRef(Cluster(app) + "-kubeconfig", app.metadata.namespace);
            var searches := !app.spec.kubeConfig.inCluster && app.spec.kubeConfig.secret == ObjRef("", "") &&
                            GetSecret(own) !in snap.faults && !(exists s :: s in snap.secrets && s.ref == own);
            o.result.Ok? <==>
              && decision.Ok?
              && (!decision.value.NotAffected? ==> !CannotHold(snap, store, ref, EntryValues(cfg.patches, k)))
              && !(searches && ListSecrets in snap.faults)
              && Pin(snap, o.store, app).Ok?
  {
    var own := ObjRef(Cluster(app) + "-kubeconfig", app.metadata.namespace);
    GateByVersion(cfg, snap, app);
    FullCallParts(cfg, snap, store, app);
    EntryIsEffective(cfg, app, k);
    assert SecretExists(snap, own) <==> exists s :: s in snap.secrets && s.ref == own;
  }
}
