/** What the lookups in the cluster find: kubeconfig secrets, pod security cut-off, Release components. */
module Lookups {
  import opened Wrappers
  import opened Json
  import opened Apps
  import opened Clusters
  import opened Edits
  import opened Defaulting
  import opened Refinement
  import opened Convergence
  import opened PspStore
  import opened Semver

  // ---------------------------------------------------------------- version label

  /**
   An App that does not bring a version takes the one of the chart-operator in its namespace, whatever else
   is in the cluster; when there is none, or none that parses, the App is left as it is.
   */
  lemma VersionIsInherited(cfg: Config, snap: Snapshot, store: Store, app: App)
    requires ParsesConstants(cfg.parse) && AsksChartOperator(app)
    ensures var chartOperator := ObjRef(CHART_OPERATOR, app.Namespace());
            var o := MutateOutcome(cfg, snap, store, app);
            && (GetApp(chartOperator) in snap.faults ==> o == Outcome(Err(ApiFailure), store))
            && (o.result.Ok? ==>
                  var b := DefaultedApp(cfg, snap, o.store, app);
                  if chartOperator in snap.apps && cfg.parse(snap.apps[chartOperator].Label(VERSION_LABEL)).Some?
                  then b.Label(VERSION_LABEL) == snap.apps[chartOperator].Label(VERSION_LABEL)
                  else b == app && o == Outcome(Ok([]), store))
  {
    var o := MutateOutcome(cfg, snap, store, app);
    if o.result.Ok? {
      match GateOf(cfg, snap, app).value
      case Skip =>
      case LabelsOnly(version) => DefaultedLabelValues(cfg, snap, o.store, app, version);
      case Full(version) => DefaultedLabelValues(cfg, snap, o.store, app, version);
    }
  }

  // ---------------------------------------------------------------- kubeconfig

  /** Some secret of that name carries the cluster's label. */
  predicate LabelledSecretExists(snap: Snapshot, cluster: string, name: string) {
    exists i :: 0 <= i < |snap.secrets| && Selected(snap.secrets[i], CAPI_CLUSTER_LABEL, cluster) &&
      snap.secrets[i].ref.name == name
  }

  lemma {:induction false} SelectedMembers(secrets: seq<Secret>, key: string, value: string)
    ensures forall s :: s in SelectedSecrets(secrets, key, value) <==> s in secrets && Selected(s, key, value)
  {
    if secrets != [] {
      SelectedMembers(secrets[1..], key, value);
      assert secrets == [secrets[0]] + secrets[1..];
    }
  }

  lemma {:induction false} FirstNamedFinds(secrets: seq<Secret>, name: string)
    requires forall s :: s in secrets ==> s.ref.namespace != ""
    ensures FirstNamed(secrets, name) == "" <==> forall s :: s in secrets ==> s.ref.name != name
    ensures FirstNamed(secrets, name) != "" ==>
              exists s :: s in secrets && s.ref == ObjRef(name, FirstNamed(secrets, name))
  {
    if secrets != [] {
      FirstNamedFinds(secrets[1..], name);
      assert secrets == [secrets[0]] + secrets[1..];
    }
  }

  /**
   Sound and complete: a namespace found holds a secret of the wanted name, the App's own namespace wins,
   and nothing is found exactly when nothing is there, or when reading the own secret failed, which the
   program takes for absence.
   */
  lemma LookupFindsSecrets(snap: Snapshot, namespace: string, name: string)
    requires namespace != "" && forall s :: s in snap.secrets ==> s.ref.namespace != ""
    ensures var own := ObjRef(name, namespace);
            var found := KubeConfigNamespace(snap, namespace, name);
            && (found.Ok? && found.value != "" ==> SecretExists(snap, ObjRef(name, found.value)))
            && (SecretExists(snap, own) && GetSecret(own) !in snap.faults ==> found == Ok(namespace))
            && (found == Ok("") <==>
                || GetSecret(own) in snap.faults
                || (!SecretExists(snap, own) && ListSecrets !in snap.faults && !LabelledSecretExists(snap, namespace, name)))
  {
    var items := SelectedSecrets(snap.secrets, CAPI_CLUSTER_LABEL, namespace);
    SelectedMembers(snap.secrets, CAPI_CLUSTER_LABEL, namespace);
    FirstNamedFinds(items, name);
    if FirstNamed(items, name) != "" {
      var s :| s in items && s.ref == ObjRef(name, FirstNamed(items, name));
      var i :| 0 <= i < |snap.secrets| && snap.secrets[i] == s;
    }
    if LabelledSecretExists(snap, namespace, name) {
      var i :| 0 <= i < |snap.secrets| && Selected(snap.secrets[i], CAPI_CLUSTER_LABEL, namespace) &&
        snap.secrets[i].ref.name == name;
      assert snap.secrets[i] in items;
    }
  }

  /** A secret reference the mutator writes names a secret that exists. */
  lemma DefaultedSecretExists(cfg: Config, snap: Snapshot, store: Store, app: App)
    requires app.Namespace() != "" && forall s :: s in snap.secrets ==> s.ref.namespace != ""
    ensures var b := DefaultedApp(cfg, snap, store, app);
            b.spec.kubeConfig.secret != app.spec.kubeConfig.secret ==> SecretExists(snap, b.spec.kubeConfig.secret)
  {
    LookupFindsSecrets(snap, app.Namespace(), app.KubeConfigSecretName());
  }

  // ---------------------------------------------------------------- pod security cut-off

  /** The snapshot in which the named clusters run the given release. */
  function Relabelled(clusters: seq<ClusterCR>, name: string, release: string): seq<ClusterCR> {
    seq(|clusters|, i requires 0 <= i < |clusters| =>
      if clusters[i].name == name then clusters[i].(labels := clusters[i].labels[RELEASE_LABEL := release]) else clusters[i])
  }

  function OnRelease(snap: Snapshot, app: App, release: string): Snapshot {
    snap.(clusters := Relabelled(snap.clusters, app.Label(CLUSTER_LABEL), release))
  }

  lemma {:induction false} FirstRelabelled(clusters: seq<ClusterCR>, name: string, release: string)
    ensures var found := FirstCluster(clusters, name);
            FirstCluster(Relabelled(clusters, name, release), name) ==
            if found.None? then None else Some(found.value.(labels := found.value.labels[RELEASE_LABEL := release]))
  {
    if clusters != [] {
      FirstRelabelled(clusters[1..], name, release);
      assert Relabelled(clusters, name, release)[1..] == Relabelled(clusters[1..], name, release);
    }
  }

  /**
   When a cluster counts as rid of pod security policies, read off its labels: on vintage providers from a
   release at or above the cut-off, on the others from the psp-status label alone.
   */
  lemma DropsPspExactly(cfg: Config, cluster: ClusterCR)
    ensures var release := if RELEASE_LABEL in cluster.labels then cfg.parse(cluster.labels[RELEASE_LABEL]) else None;
            var status := if PSP_LABEL in cluster.labels then Some(cluster.labels[PSP_LABEL]) else None;
            && (DropsPsp(cfg, cluster) == Ok(true) <==>
                if Vintage(cfg) then release.Some? && Compare(PSS_CUTOFF, release.value) <= 0 else status == Some(PSP_DISABLED))
            && (DropsPsp(cfg, cluster) == Ok(false) <==>
                if Vintage(cfg) then release.Some? && Compare(PSS_CUTOFF, release.value) > 0 else status.None?)
  {
  }

  lemma CaseFromCutoff(cfg: Config, snap: Snapshot, app: App, release: string)
    requires Vintage(cfg) && cfg.parse(release).Some?
    ensures PspCaseOf(cfg, OnRelease(snap, app, release), app) ==
            if !WorkloadClusterApp(app) then Ok(NotAffected)
            else if PspEntry(cfg, app) in app.spec.extraConfigs then Ok(AlreadyListed)
            else if ListClusters in snap.faults then Err(PspRemoval)
            else if FirstCluster(snap.clusters, app.Label(CLUSTER_LABEL)).None? then Err(PspRemoval)
            else if Compare(PSS_CUTOFF, cfg.parse(release).value) <= 0 then Ok(Unlisted) else Ok(NotAffected)
  {
    FirstRelabelled(snap.clusters, app.Label(CLUSTER_LABEL), release);
    PrecedenceAntisymmetric(PSS_CUTOFF, cfg.parse(release).value);
  }

  /** Which releases get pod security patches: every one from the cut-off on, unless the App lists its entry already. */
  lemma PspPatchesFromCutoff(cfg: Config, snap: Snapshot, store: Store, app: App, release: string)
    requires Vintage(cfg) && cfg.parse(release).Some?
    requires PspOutcome(cfg, OnRelease(snap, app, release), store, app).result.Ok?
    ensures PspOutcome(cfg, OnRelease(snap, app, release), store, app).result.value != [] <==>
            WorkloadClusterApp(app) &&
            (PspEntry(cfg, app) in app.spec.extraConfigs || Compare(PSS_CUTOFF, cfg.parse(release).value) <= 0)
  {
    CaseFromCutoff(cfg, snap, app, release);
  }

  /** The cut-off is upward closed: patches for a release are the patches for every later one. */
  lemma CutoffIsUpwardClosed(cfg: Config, snap: Snapshot, store: Store, app: App, r: string, s: string)
    requires Vintage(cfg) && cfg.parse(r).Some? && cfg.parse(s).Some?
    requires Compare(cfg.parse(r).value, cfg.parse(s).value) <= 0
    requires var o := PspOutcome(cfg, OnRelease(snap, app, r), store, app);
             o.result.Ok? && o.result.value != []
    ensures PspOutcome(cfg, OnRelease(snap, app, s), store, app) == PspOutcome(cfg, OnRelease(snap, app, r), store, app)
  {
    CaseFromCutoff(cfg, snap, app, r);
    CaseFromCutoff(cfg, snap, app, s);
    if Compare(PSS_CUTOFF, cfg.parse(r).value) <= 0 {
      PrecedenceTransitive(PSS_CUTOFF, cfg.parse(r).value, cfg.parse(s).value);
    }
  }

  lemma GateIgnoresClusters(cfg: Config, snap: Snapshot, clusters: seq<ClusterCR>, app: App)
    ensures GateOf(cfg, snap.(clusters := clusters), app) == GateOf(cfg, snap, app)
  {
  }

  lemma TailIgnoresClusters(snap: Snapshot, clusters: seq<ClusterCR>, store: Store, app: App)
    ensures KubeConfigEdits(snap.(clusters := clusters), app) == KubeConfigEdits(snap, app)
    ensures ClusterAppEdits(snap.(clusters := clusters), store, app) == ClusterAppEdits(snap, store, app)
  {
  }

  lemma SameParts(cfg: Config, snap: Snapshot, other: Snapshot, store: Store, app: App, version: string)
    requires PspOutcome(cfg, other, store, app) == PspOutcome(cfg, snap, store, app)
    requires KubeConfigEdits(other, app) == KubeConfigEdits(snap, app)
    requires var after := PspOutcome(cfg, snap, store, app).store;
             ClusterAppEdits(other, after, app) == ClusterAppEdits(snap, after, app)
    ensures FullOutcome(cfg, other, store, app, version) == FullOutcome(cfg, snap, store, app, version)
  {
  }

  /** The same for the whole call: its list, once it carries the psp-status label, is the list of every later release. */
  lemma CutoffForWholeCall(cfg: Config, snap: Snapshot, store: Store, app: App, r: string, s: string)
    requires Vintage(cfg) && cfg.parse(r).Some? && cfg.parse(s).Some?
    requires Compare(cfg.parse(r).value, cfg.parse(s).value) <= 0
    requires var o := MutateOutcome(cfg, OnRelease(snap, app, r), store, app);
             o.result.Ok? && Carries(o.result.value)
    ensures MutateOutcome(cfg, OnRelease(snap, app, s), store, app) == MutateOutcome(cfg, OnRelease(snap, app, r), store, app)
  {
    var before, later := OnRelease(snap, app, r), OnRelease(snap, app, s);
    CarryingCallIsFull(cfg, before, store, app);
    PspOutcomeEdits(cfg, before, store, app);
    CutoffIsUpwardClosed(cfg, snap, store, app, r, s);
    GateIgnoresClusters(cfg, before, later.clusters, app);
    var after := PspOutcome(cfg, before, store, app).store;
    TailIgnoresClusters(before, later.clusters, after, app);
    SameParts(cfg, before, later, store, app, GateOf(cfg, before, app).value.version);
  }

  // ---------------------------------------------------------------- releases

  lemma {:induction false} FirstComponentIndex(components: seq<Component>, name: string) returns (i: nat)
    requires FirstComponent(components, name).Some?
    ensures i < |components| && FirstComponent(components, name) == Some(components[i]) && components[i].name == name
    ensures forall j :: 0 <= j < i ==> components[j].name != name
  {
    if components[0].name == name {
      i := 0;
    } else {
      i := FirstComponentIndex(components[1..], name);
      i := i + 1;
    }
  }

  const RELEASE_PATH := ["global", "release"]
  const RELEASE_VERSION_PATH := ["global", "release", "version"]

  /** The merged values of a cluster App, None when its catalog or its configuration cannot be read. */
  function MergedValues(snap: Snapshot, store: Store, app: App): Option<Json> {
    if GetCatalog(app.spec.catalog) in snap.faults || app.spec.catalog !in snap.catalogs then None
    else
      var values :- snap.mergedValues(app, store);
      Some(JObj(values))
  }

  /**
   A cluster App is pinned to a release exactly when its merged values hold a text at global.release.version,
   and left alone exactly when they have a global object without release; anything else is an error.
   */
  lemma ConfiguredReleaseExactly(snap: Snapshot, store: Store, app: App)
    ensures var release, values := ConfiguredRelease(snap, store, app), MergedValues(snap, store, app);
            && (forall v :: release == Ok(Some(v)) <==>
                  values.Some? && At(values.value, RELEASE_VERSION_PATH) == Some(JStr(v)))
            && (release == Ok(None) <==>
                  values.Some? && HasObj(values.value.members, "global") && At(values.value, RELEASE_PATH).None?)
  {
  }

  predicate IsFirstNamed(components: seq<Component>, i: int, name: string) {
    0 <= i < |components| && components[i].name == name && forall j :: 0 <= j < i ==> components[j].name != name
  }

  lemma PinIsFirstComponent(snap: Snapshot, store: Store, app: App, version: string)
    requires IsClusterApp(app) && ConfiguredRelease(snap, store, app) == Ok(Some(version))
    requires Pin(snap, store, app).Ok?
    ensures var name := ReleaseName(app, version);
            && name in snap.releases
            && exists i :: IsFirstNamed(snap.releases[name], i, app.spec.name) &&
                 Pin(snap, store, app) == Ok(Some(snap.releases[name][i])) && snap.releases[name][i].version != ""
  {
    var i := FirstComponentIndex(snap.releases[ReleaseName(app, version)], app.spec.name);
    assert IsFirstNamed(snap.releases[ReleaseName(app, version)], i, app.spec.name);
  }

  lemma PinReachesApp(cfg: Config, snap: Snapshot, store: Store, app: App)
    requires GateOf(cfg, snap, app).Ok? && GateOf(cfg, snap, app).value.Full?
    requires MutateOutcome(cfg, snap, store, app).result.Ok?
    ensures var after := MutateOutcome(cfg, snap, store, app).store;
            var b, pin := DefaultedApp(cfg, snap, after, app), Pin(snap, after, app);
            && pin.Ok?
            && (pin.value.Some? ==> b.spec.version == pin.value.value.version && b.spec.catalog == pin.value.value.catalog)
            && (pin.value.None? ==> b.spec.version == app.spec.version && b.spec.catalog == app.spec.catalog)
  {
  }

  /** A patched cluster App runs the version and catalog of the first component of its name in its Release. */
  lemma ClusterAppFollowsRelease(cfg: Config, snap: Snapshot, store: Store, doc: Json, app: App, gate: string, version: string)
    requires Shaped(doc) && Decode(doc) == Some(app)
    requires IsClusterApp(app) && GateOf(cfg, snap, app) == Ok(Full(gate))
    ensures var run := Run(cfg, snap, store, doc);
            run.Some? && ConfiguredRelease(snap, run.value.1, app) == Ok(Some(version)) ==>
              var patched := Decode(run.value.0);
              var name := ReleaseName(app, version);
              && patched.Some? && name in snap.releases
              && exists i :: IsFirstNamed(snap.releases[name], i, app.spec.name) &&
                   patched.value.spec.version == snap.releases[name][i].version != "" &&
                   patched.value.spec.catalog == snap.releases[name][i].catalog
  {
    var run := Run(cfg, snap, store, doc);
    if run.Some? && ConfiguredRelease(snap, run.value.1, app) == Ok(Some(version)) {
      RunRefines(cfg, snap, store, doc, app);
      PinReachesApp(cfg, snap, store, app);
      PinIsFirstComponent(snap, run.value.1, app, version);
    }
  }
}
