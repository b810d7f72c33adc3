/** Inputs on which a property that needs a condition fails, each in a call that succeeds. */
module Counterexamples {
  import opened Wrappers
  import opened Json
  import opened Apps
  import opened Clusters
  import opened Edits
  import opened Defaulting
  import opened Refinement
  import opened PatchList
  import opened Convergence
  import opened Lookups
  import opened Requests
  import opened Samples
  import opened Semver
  import opened Validator
  import Inspector
  import Text

  // ---------------------------------------------------------------- a small cluster

  function ParseTwo(s: string): Option<Version> {
    if s == UNIQUE_VERSION then Some(Version(0, 0, 0, []))
    else if s == LEGACY_VERSION then Some(Version(1, 0, 0, []))
    else None
  }

  const CAPA := Config("capa", [], ParseTwo)

  const CLUSTER := "c1"
  const ORG := "org-a"
  const KUBECONFIG := "c1-kubeconfig"

  lemma CapaIsCapi()
    ensures ParsesConstants(CAPA.parse) && Capi(CAPA) && !Vintage(CAPA)
  {
    assert UNIQUE_VERSION[0] != LEGACY_VERSION[0];
    assert Text.ToLower("capa") == "capa" == CAPI_PROVIDERS[0];
    assert |"capa"| == 4 && |"aws"| == 3 && |"azure"| == 5 && |"kvm"| == 3;
  }

  // ---------------------------------------------------------------- the list does not apply

  const WITH_SECRET :=
    Snapshot(map[], [Secret(ObjRef(KUBECONFIG, ORG), map[])], [], {}, map[], (a: App, s: Store) => None, {})

  const ORG_APP := App(SampleMeta("app", ORG, map[CLUSTER_LABEL := CLUSTER]), BARE_SPEC)

  lemma OrgAppFindsSecret()
    ensures FindsKubeConfig(WITH_SECRET, ORG_APP) && WritesKubeConfig(CAPA, WITH_SECRET, ORG_APP)
    ensures MutateOutcome(CAPA, WITH_SECRET, map[], ORG_APP).result.Ok?
  {
    CapaIsCapi();
    DistinctLabels();
    assert ORG[..4] == "org-";
    assert ORG_APP.KubeConfigSecretName() == KUBECONFIG;
    assert WITH_SECRET.secrets[0].ref == ObjRef(KUBECONFIG, ORG);
    assert GateOf(CAPA, WITH_SECRET, ORG_APP) == Ok(Full(""));
    assert PspCaseOf(CAPA, WITH_SECRET, ORG_APP) == Ok(NotAffected);
  }

  /** A kubeconfig is found for an App sent without a kubeConfig object: the call succeeds, its list does not apply. */
  lemma ListDoesNotApply()
    ensures var doc := Sample("app", ORG, map[CLUSTER_LABEL := CLUSTER], map[]);
            && Shaped(doc) && Decode(doc).Some?
            && var o := MutateOutcome(CAPA, WITH_SECRET, map[], Decode(doc).value);
               o.result.Ok? && ApplyAll(doc, ToPatches(o.result.value)).None?
  {
    var doc := Sample("app", ORG, map[CLUSTER_LABEL := CLUSTER], map[]);
    BareSpecDecodes();
    SampleDecodes("app", ORG, map[CLUSTER_LABEL := CLUSTER], map[]);
    OrgAppFindsSecret();
    var o := MutateOutcome(CAPA, WITH_SECRET, map[], ORG_APP);
    ListRefinesDefault(CAPA, WITH_SECRET, map[], doc, ORG_APP, o.result.value, o.store);
  }

  // ---------------------------------------------------------------- promotion

  const CHART_OPERATOR_APP := App(SampleMeta(CHART_OPERATOR, CLUSTER, map[VERSION_LABEL := UNIQUE_VERSION]), BARE_SPEC)

  /** The namespace's chart-operator carries 0.0.0, and the cluster has dropped pod security policies. */
  const PROMOTING := Snapshot(
    map[ObjRef(CHART_OPERATOR, CLUSTER) := CHART_OPERATOR_APP], [],
    [ClusterCR(CLUSTER, map[PSP_LABEL := PSP_DISABLED])], {}, map[], (a: App, s: Store) => None, {})

  const UNVERSIONED := Sample("app", CLUSTER, map[CLUSTER_LABEL := CLUSTER], RAW_IN_CLUSTER)

  const UNVERSIONED_APP := App(SampleMeta("app", CLUSTER, map[CLUSTER_LABEL := CLUSTER]), BARE_SPEC.(kubeConfig := IN_CLUSTER))

  lemma UnversionedIsPromoted()
    ensures Shaped(UNVERSIONED) && Decode(UNVERSIONED) == Some(UNVERSIONED_APP) && Promotes(PROMOTING, UNVERSIONED_APP)
  {
    InClusterDecodes();
    SampleDecodes("app", CLUSTER, map[CLUSTER_LABEL := CLUSTER], RAW_IN_CLUSTER);
    DistinctLabels();
  }

  lemma SecondCallAppends()
    requires Promotes(PROMOTING, UNVERSIONED_APP)
    ensures var b := Promoted(UNVERSIONED_APP);
            && PspCaseOf(CAPA, PROMOTING, b) == Ok(Unlisted)
            && MutateOutcome(CAPA, PROMOTING, map[], b).result.Ok?
            && !WritesKubeConfig(CAPA, PROMOTING, b)
  {
    var app, b := UNVERSIONED_APP, Promoted(UNVERSIONED_APP);
    CapaIsCapi();
    DistinctLabels();
    PromotionSetsLabels(CAPA, PROMOTING, map[], app);
    DefaultKeepsIdentity(CAPA, PROMOTING, map[], app);
    assert b.Namespace()[0] != "giantswarm"[0];
    assert PROMOTING.clusters[0].name == CLUSTER;
    assert KubeConfigEdits(PROMOTING, b) == Ok([]);
    assert !IsClusterApp(b);
  }

  /** For this App one run is not enough, and after it the webhooks disagree: validated, though not defaulted. */
  lemma PromotedAppIsUnfinished()
    ensures Shaped(UNVERSIONED) && Decode(UNVERSIONED).Some?
    ensures var run := Run(CAPA, PROMOTING, map[], UNVERSIONED);
            && run.Some? && Decode(run.value.0).Some?
            && PassesGates(CAPA.parse, Decode(run.value.0).value)
            && GateOf(CAPA, PROMOTING, Decode(UNVERSIONED).value) == Ok(LabelsOnly(UNIQUE_VERSION))
            && var again := Run(CAPA, PROMOTING, run.value.1, run.value.0);
               again.Some? && again != run
  {
    var app := UNVERSIONED_APP;
    CapaIsCapi();
    UnversionedIsPromoted();
    PromotionIsDeferred(CAPA, PROMOTING, map[], app);
    PromotedSettlesExactly(CAPA, PROMOTING, map[], UNVERSIONED, app);
    GatesAgreeOnApps(CAPA, PROMOTING, map[], app);
    PromotionSetsLabels(CAPA, PROMOTING, map[], app);
    SecondCallAppends();
    RunRefines(CAPA, PROMOTING, map[], UNVERSIONED, app);
    var doc1 := Run(CAPA, PROMOTING, map[], UNVERSIONED).value.0;
    var o := MutateOutcome(CAPA, PROMOTING, map[], Promoted(app));
    ListRefinesDefault(CAPA, PROMOTING, map[], doc1, Promoted(app), o.result.value, o.store);
  }

  // ---------------------------------------------------------------- a hidden secret

  const UNREADABLE := Snapshot(
    map[], [Secret(ObjRef(KUBECONFIG, ORG), map[CAPI_CLUSTER_LABEL := CLUSTER])], [], {}, map[],
    (a: App, s: Store) => None, {GetSecret(ObjRef(KUBECONFIG, CLUSTER))})

  /** The labelled secret is there, but the own namespace could not be read: nothing is found and no error reported. */
  lemma FailedReadHidesSecret()
    ensures LabelledSecretExists(UNREADABLE, CLUSTER, KUBECONFIG)
    ensures KubeConfigNamespace(UNREADABLE, CLUSTER, KUBECONFIG) == Ok("")
    ensures KubeConfigNamespace(UNREADABLE.(faults := {}), CLUSTER, KUBECONFIG) == Ok(ORG)
  {
    var secret := UNREADABLE.secrets[0];
    assert Selected(secret, CAPI_CLUSTER_LABEL, CLUSTER) && secret.ref.name == KUBECONFIG;
    assert CLUSTER != ORG by {
      assert |CLUSTER| == 2 && |ORG| == 5;
    }
    assert UNREADABLE.secrets[1..] == [];
    assert SelectedSecrets(UNREADABLE.secrets, CAPI_CLUSTER_LABEL, CLUSTER) == [secret];
  }

  // ---------------------------------------------------------------- the inspector

  const FORBIDDING := Inspector.RawConfig(["app"], ["catalog"], [], [], [])

  /** Protecting one more namespace admits what was rejected before. */
  lemma LongerBlacklistAdmits(user: User)
    ensures var app := App(SampleMeta("app", ORG, map[]), BARE_SPEC.(name := "app", catalog := "catalog"));
            && Inspector.Rejects(FORBIDDING, app, user)
            && !Inspector.Rejects(FORBIDDING.(namespaceBlacklist := [ORG]), app, user)
  {
    var app := App(SampleMeta("app", ORG, map[]), BARE_SPEC.(name := "app", catalog := "catalog"));
    assert FORBIDDING.appBlacklist[0] == "app" && FORBIDDING.catalogBlacklist[0] == "catalog";
    assert ORG[0] == 'o' && ORG[4] == 'a';
    assert !Inspector.Dynamic(ORG);
    assert [ORG][0] == ORG && Inspector.Matches(ORG, app.Namespace());
  }

  const MANAGEMENT_LABELS := map[CLUSTER_LABEL := CLUSTER, VERSION_LABEL := UNIQUE_VERSION]
  const MANAGEMENT_APP := App(SampleMeta("app", ORG, MANAGEMENT_LABELS), BARE_SPEC.(kubeConfig := IN_CLUSTER))

  lemma ManagementAppGainsEntry()
    ensures Inspected(MANAGEMENT_APP) && GateOf(CAPA, PROMOTING, MANAGEMENT_APP) == Ok(Full(UNIQUE_VERSION))
    ensures PspCaseOf(CAPA, PROMOTING, MANAGEMENT_APP) == Ok(Unlisted)
    ensures MutateOutcome(CAPA, PROMOTING, map[], MANAGEMENT_APP).result.Ok?
    ensures !WritesKubeConfig(CAPA, PROMOTING, MANAGEMENT_APP)
  {
    CapaIsCapi();
    DistinctLabels();
    assert UNIQUE_VERSION[0] != LEGACY_VERSION[0] && ORG[0] != "giantswarm"[0];
    assert PROMOTING.clusters[0].name == CLUSTER;
    assert KubeConfigEdits(PROMOTING, MANAGEMENT_APP) == Ok([]);
  }

  const PROTECTING := Inspector.RawConfig([], [], [], ["org-"], [])

  lemma OrgIsProtected()
    ensures Inspector.DynamicHit(PROTECTING, ORG) && !Inspector.FixedHit(PROTECTING, ORG) && !Inspector.Hit(PROTECTING, "")
  {
    assert "org-"[3..] == "-" && Inspector.Dynamic("org-");
    assert ORG[..4] == "org-" && Inspector.Matches("org-", ORG);
    assert PROTECTING.namespaceBlacklist[0] == "org-";
  }

  lemma ManagementAppIsAccepted(user: User)
    ensures !Inspector.Rejects(PROTECTING, MANAGEMENT_APP, user)
  {
  }

  lemma ManagementAppIsDefenceless(user: User)
    ensures !Inspector.Whitelisted(PROTECTING, user) && !Inspector.Private(PROTECTING, MANAGEMENT_APP)
    ensures forall after :: BringsViolation(CAPA, PROTECTING, PROMOTING, after, MANAGEMENT_APP)
  {
    OrgIsProtected();
    ManagementAppGainsEntry();
  }

  /** The inspector accepts an App without references; the mutator adds one to the App's own, protected namespace. */
  lemma DefaultingGetsRejected(user: User)
    ensures var doc := Sample("app", ORG, MANAGEMENT_LABELS, RAW_IN_CLUSTER);
            && Shaped(doc) && Decode(doc).Some? && Inspected(Decode(doc).value)
            && !Inspector.Rejects(PROTECTING, Decode(doc).value, user)
            && var run := Run(CAPA, PROMOTING, map[], doc);
               && run.Some? && Decode(run.value.0).Some? && Inspected(Decode(run.value.0).value)
               && Inspector.Rejects(PROTECTING, Decode(run.value.0).value, user)
  {
    var doc, app := Sample("app", ORG, MANAGEMENT_LABELS, RAW_IN_CLUSTER), MANAGEMENT_APP;
    CapaIsCapi();
    InClusterDecodes();
    SampleDecodes("app", ORG, MANAGEMENT_LABELS, RAW_IN_CLUSTER);
    ManagementAppGainsEntry();
    ManagementAppIsAccepted(user);
    ManagementAppIsDefenceless(user);
    var o := MutateOutcome(CAPA, PROMOTING, map[], app);
    ListRefinesDefault(CAPA, PROMOTING, map[], doc, app, o.result.value, o.store);
    PatchedUnderInspection(CAPA, PROTECTING, PROMOTING, map[], doc, app, user);
  }
}
