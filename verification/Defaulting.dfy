/**
 What the mutator decides for an App and a cluster: the edits of each part of it, the outcome of a
 whole call, and the App it is meant to produce.
 */
module Defaulting {
  import opened Wrappers
  import opened Json
  import opened Apps
  import opened Clusters
  import opened Edits
  import opened Semver
  import Text

  /** The result handed back and the ConfigMaps left behind; a failed call may have written some. */
  datatype Outcome = Outcome(result: Result<seq<Edit>>, store: Store)

  // ---------------------------------------------------------------- version gate

  const CHART_OPERATOR := "chart-operator"

  datatype Gate =
    | Skip
    | LabelsOnly(version: string)
    | Full(version: string)

  /** The version label of the chart-operator App in a namespace, "" when there is none. */
  function ChartOperatorVersion(snap: Snapshot, namespace: string): Result<string> {
    var ref := ObjRef(CHART_OPERATOR, namespace);
    if GetApp(ref) in snap.faults then Err(ApiFailure)
    else if ref !in snap.apps then Ok("")
    else Ok(snap.apps[ref].Label(VERSION_LABEL))
  }

  predicate AsksChartOperator(app: App) {
    !app.ManagedInOrg() && app.HasDefaultableVersion()
  }

  /** The version that counts for an App, before it is parsed. */
  function EffectiveVersion(snap: Snapshot, app: App): Result<string> {
    if AsksChartOperator(app) then ChartOperatorVersion(snap, app.Namespace()) else Ok(app.Label(VERSION_LABEL))
  }

  function GateOf(cfg: Config, snap: Snapshot, app: App): Result<Gate> {
    var version :- EffectiveVersion(snap, app);
    if app.ManagedInOrg() then Ok(Full(version))
    else if AsksChartOperator(app) && version == "" then Ok(Skip)
    else
      match cfg.parse(version)
      case None => Ok(Skip)
      case Some(v) =>
        if app.Label(VERSION_LABEL) == UNIQUE_VERSION || v.major >= 3 then Ok(Full(version))
        else if LabelEdits(app, version) != [] then Ok(LabelsOnly(version))
        else Ok(Skip)
  }

  // ---------------------------------------------------------------- labels

  predicate WantsNameLabel(app: App) {
    app.Label(NAME_LABEL) == "" && app.Label(APP_LABEL) == ""
  }

  predicate WantsVersionLabel(app: App, version: string) {
    app.HasDefaultableVersion() && version != ""
  }

  function Header(app: App): seq<Edit> {
    (if app.metadata.annotations == map[] then [InitAnnotations] else []) +
    (if app.metadata.labels == map[] then [InitLabels] else [])
  }

  function LabelEdits(app: App, version: string): seq<Edit> {
    (if WantsNameLabel(app) then [SetLabel(NAME_LABEL, app.spec.name)] else []) +
    (if WantsVersionLabel(app, version) then [SetLabel(VERSION_LABEL, version)] else [])
  }

  // ---------------------------------------------------------------- cluster values

  const BOTTOM_PRIORITY := 1
  const TOP_PRIORITY := 150

  function ClusterValuesEntry(app: App): ExtraConfig {
    ExtraConfig("configMap", app.ClusterConfigMapName(), app.Namespace(), BOTTOM_PRIORITY)
  }

  predicate Refers(entry: ExtraConfig, ref: ObjRef) {
    entry.name == ref.name && entry.namespace == ref.namespace
  }

  predicate ReferencesClusterValues(app: App) {
    var ref := ObjRef(app.ClusterConfigMapName(), app.Namespace());
    || app.spec.config.configMap == ref
    || app.spec.userConfig.configMap == ref
    || exists i :: 0 <= i < |app.spec.extraConfigs| && Refers(app.spec.extraConfigs[i], ref)
  }

  predicate WantsClusterValues(app: App) {
    app.Label(VERSION_LABEL) != UNIQUE_VERSION && !ReferencesClusterValues(app)
  }

  function ClusterValuesEdits(app: App): seq<Edit> {
    if WantsClusterValues(app) then [AppendExtraConfig(ClusterValuesEntry(app))] else []
  }

  // ---------------------------------------------------------------- pod security policies

  const PSS_CUTOFF := Version(19, 3, 0, [])
  const VINTAGE_PROVIDERS := ["aws", "azure", "kvm"]
  const CAPI_PROVIDERS := ["capa", "capz", "cloud-director", "vsphere"]
  const RELEASE_LABEL := "release.giantswarm.io/version"
  const PSP_DISABLED := "disabled"
  const PSP_CONFIG_NAME := "psp-removal-patch"
  const PSP_CONFIG_VALUES := "global:\n  podSecurityStandards:\n    enforced: true"
  const MAX_NAME := 60
  const MANAGED_BY_LABEL := "giantswarm.io/managed-by"
  const PROJECT := "app-admission-controller"

  predicate Vintage(cfg: Config) {
    Text.ToLower(cfg.provider) in VINTAGE_PROVIDERS
  }

  predicate Capi(cfg: Config) {
    Text.ToLower(cfg.provider) in CAPI_PROVIDERS
  }

  /** The first patch configured for an App's `spec.name`. */
  function CustomPatch(patches: seq<ConfigPatch>, appName: string): Option<ConfigPatch> {
    if patches == [] then None
    else if patches[0].appName == appName then Some(patches[0])
    else CustomPatch(patches[1..], appName)
  }

  function Suffix(patch: ConfigPatch): string {
    if patch.configMapSuffix == "" then patch.appName else patch.configMapSuffix
  }

  function CustomName(patch: ConfigPatch): string {
    Text.Truncate(PSP_CONFIG_NAME + "-" + Suffix(patch), MAX_NAME)
  }

  function PspConfigName(patches: seq<ConfigPatch>, appName: string): string {
    match CustomPatch(patches, appName)
    case None => PSP_CONFIG_NAME
    case Some(patch) => CustomName(patch)
  }

  function PspConfigValues(patches: seq<ConfigPatch>, appName: string): string {
    match CustomPatch(patches, appName)
    case None => PSP_CONFIG_VALUES
    case Some(patch) => patch.values
  }

  function PspRef(cfg: Config, app: App): ObjRef {
    ObjRef(PspConfigName(cfg.patches, app.spec.name), app.Namespace())
  }

  function PspEntry(cfg: Config, app: App): ExtraConfig {
    ExtraConfig("configMap", PspConfigName(cfg.patches, app.spec.name), app.Namespace(), TOP_PRIORITY)
  }

  function FirstCluster(clusters: seq<ClusterCR>, name: string): Option<ClusterCR> {
    if clusters == [] then None
    else if clusters[0].name == name then Some(clusters[0])
    else FirstCluster(clusters[1..], name)
  }

  /** Whether a cluster has lost pod security policies: by its release, or by its label on CAPI. */
  function DropsPsp(cfg: Config, cluster: ClusterCR): Result<bool> {
    if Vintage(cfg) then
      if RELEASE_LABEL !in cluster.labels then Err(PspRemoval)
      else
        match cfg.parse(cluster.labels[RELEASE_LABEL])
        case None => Err(PspRemoval)
        case Some(release) => Ok(!LessThan(release, PSS_CUTOFF))
    else if PSP_LABEL !in cluster.labels then Ok(false)
    else if cluster.labels[PSP_LABEL] == PSP_DISABLED then Ok(true)
    else Err(PspRemoval)
  }

  datatype PspCase = NotAffected | AlreadyListed | Unlisted

  predicate WorkloadClusterApp(app: App) {
    && app.Label(CLUSTER_LABEL) != ""
    && !(app.Label(VERSION_LABEL) == UNIQUE_VERSION && app.Namespace() == "giantswarm")
  }

  function PspCaseOf(cfg: Config, snap: Snapshot, app: App): Result<PspCase> {
    if !Vintage(cfg) && !Capi(cfg) then Err(PspRemoval)
    else if !WorkloadClusterApp(app) then Ok(NotAffected)
    else if PspEntry(cfg, app) in app.spec.extraConfigs then Ok(AlreadyListed)
    else if ListClusters in snap.faults then Err(PspRemoval)
    else
      match FirstCluster(snap.clusters, app.Label(CLUSTER_LABEL))
      case None => if Vintage(cfg) then Err(PspRemoval) else Ok(NotAffected)
      case Some(cluster) =>
        var drops :- DropsPsp(cfg, cluster);
        Ok(if drops then Unlisted else NotAffected)
  }

  function ValuesData(values: string): map<string, string> {
    map["values" := values]
  }

  /** Creates or corrects one ConfigMap; the flag tells whether every API call succeeded. */
  function Ensured(snap: Snapshot, store: Store, ref: ObjRef, values: string): (bool, Store) {
    var wanted := ConfigMap(map[MANAGED_BY_LABEL := PROJECT], ValuesData(values));
    if GetConfigMap(ref) in snap.faults then (false, store)
    else if ref in store && store[ref].data == ValuesData(values) then (true, store)
    else if ref in store then
      if UpdateConfigMap(ref) in snap.faults then (false, store) else (true, store[ref := wanted])
    else
      if CreateConfigMap(ref) in snap.faults then (false, store) else (true, store[ref := wanted])
  }

  function PspEdits(cfg: Config, app: App, c: PspCase): seq<Edit> {
    match c
    case NotAffected => []
    case AlreadyListed => [SetLabel(PSP_LABEL, PSP_DISABLED)]
    case Unlisted => [SetLabel(PSP_LABEL, PSP_DISABLED), AppendExtraConfig(PspEntry(cfg, app))]
  }

  function PspOutcome(cfg: Config, snap: Snapshot, store: Store, app: App): Outcome {
    match PspCaseOf(cfg, snap, app)
    case Err(e) => Outcome(Err(e), store)
    case Ok(NotAffected) => Outcome(Ok([]), store)
    case Ok(c) =>
      var (done, store') := Ensured(snap, store, PspRef(cfg, app), PspConfigValues(cfg.patches, app.spec.name));
      Outcome(if done then Ok(PspEdits(cfg, app, c)) else Err(ApiFailure), store')
  }

  // ---------------------------------------------------------------- kubeconfig

  const CAPI_CLUSTER_LABEL := "cluster.x-k8s.io/cluster-name"

  predicate SecretExists(snap: Snapshot, ref: ObjRef) {
    exists i :: 0 <= i < |snap.secrets| && snap.secrets[i].ref == ref
  }

  predicate Selected(secret: Secret, key: string, value: string) {
    key in secret.labels && secret.labels[key] == value
  }

  /** The answer of a label-selected list call. */
  function SelectedSecrets(secrets: seq<Secret>, key: string, value: string): seq<Secret> {
    if secrets == [] then []
    else (if Selected(secrets[0], key, value) then [secrets[0]] else []) + SelectedSecrets(secrets[1..], key, value)
  }

  /** The namespace of the first secret of that name, "" when there is none. */
  function FirstNamed(secrets: seq<Secret>, name: string): string {
    if secrets == [] then ""
    else if secrets[0].ref.name == name then secrets[0].ref.namespace
    else FirstNamed(secrets[1..], name)
  }

  function KubeConfigNamespace(snap: Snapshot, namespace: string, name: string): Result<string> {
    var ref := ObjRef(name, namespace);
    if GetSecret(ref) in snap.faults then Ok("")
    else if SecretExists(snap, ref) then Ok(namespace)
    else if ListSecrets in snap.faults then Err(ApiFailure)
    else Ok(FirstNamed(SelectedSecrets(snap.secrets, CAPI_CLUSTER_LABEL, namespace), name))
  }

  predicate WantsKubeConfig(app: App) {
    !app.spec.kubeConfig.inCluster && app.spec.kubeConfig.secret == NO_REF
  }

  function KubeConfigEdits(snap: Snapshot, app: App): Result<seq<Edit>> {
    if !WantsKubeConfig(app) then Ok([])
    else
      var namespace :- KubeConfigNamespace(snap, app.Namespace(), app.KubeConfigSecretName());
      if namespace == "" then Ok([])
      else Ok((if app.spec.kubeConfig.contextName == "" then [SetContext(app.ClusterName())] else []) +
              [SetKubeSecret(ObjRef(app.KubeConfigSecretName(), namespace))])
  }

  // ---------------------------------------------------------------- cluster apps

  predicate IsClusterApp(app: App) {
    (app.spec.catalog == "cluster" || app.spec.catalog == "cluster-test") && Text.HasPrefix(app.spec.name, "cluster-")
  }

  /** The release version in a cluster App's merged values, None when no release is configured. */
  function ConfiguredRelease(snap: Snapshot, store: Store, app: App): Result<Option<string>> {
    if GetCatalog(app.spec.catalog) in snap.faults then Err(ApiFailure)
    else if app.spec.catalog !in snap.catalogs then Err(NotFound)
    else
      match snap.mergedValues(app, store)
      case None => Err(ApiFailure)
      case Some(values) =>
        if "global" !in values || !values["global"].JObj? then Err(InvalidConfig)
        else
          var global := values["global"].members;
          if "release" !in global then Ok(None)
          else if !global["release"].JObj? then Err(InvalidConfig)
          else
            var release := global["release"].members;
            if "version" in release && release["version"].JStr? then Ok(Some(release["version"].text)) else Err(InvalidConfig)
  }

  function ReleaseName(app: App, version: string): string {
    Text.ToLower(Text.TrimPrefix(app.spec.name, "cluster-")) + "-" + Text.TrimPrefix(version, "v")
  }

  function FirstComponent(components: seq<Component>, name: string): Option<Component> {
    if components == [] then None
    else if components[0].name == name then Some(components[0])
    else FirstComponent(components[1..], name)
  }

  /** The Release component a cluster App is pinned to, None when the App is left alone. */
  function Pin(snap: Snapshot, store: Store, app: App): Result<Option<Component>> {
    if !IsClusterApp(app) then Ok(None)
    else
      var configured :- ConfiguredRelease(snap, store, app);
      match configured
      case None => Ok(None)
      case Some(version) =>
        var name := ReleaseName(app, version);
        if GetRelease(name) in snap.faults then Err(ApiFailure)
        else if name !in snap.releases then Err(NotFound)
        else
          match FirstComponent(snap.releases[name], app.spec.name)
          case None => Err(ClusterAppVersionNotFound)
          case Some(c) => if c.version == "" then Err(ClusterAppVersionNotFound) else Ok(Some(c))
  }

  function PinEdits(app: App, pin: Option<Component>): seq<Edit> {
    match pin
    case None => []
    case Some(c) =>
      (if app.spec.version != c.version then [SetVersion(c.version)] else []) +
      (if app.spec.catalog != c.catalog then [SetCatalog(c.catalog)] else [])
  }

  function ClusterAppEdits(snap: Snapshot, store: Store, app: App): Result<seq<Edit>> {
    var pin :- Pin(snap, store, app);
    Ok(PinEdits(app, pin))
  }

  // ---------------------------------------------------------------- the whole call

  predicate HasAppend(edits: seq<Edit>) {
    exists i :: 0 <= i < |edits| && edits[i].AppendExtraConfig?
  }

  function LabelsOnlyEdits(app: App, version: string): seq<Edit> {
    Header(app) + LabelEdits(app, version)
  }

  function InitEdits(app: App, psp: seq<Edit>): seq<Edit> {
    if app.spec.extraConfigs == [] && (HasAppend(ClusterValuesEdits(app)) || HasAppend(psp)) then [InitExtraConfigs] else []
  }

  /** The list of a full run: containers first, and the list container only when something goes in. */
  function FullEdits(app: App, version: string, psp: seq<Edit>, kube: seq<Edit>, pin: seq<Edit>): seq<Edit> {
    LabelsOnlyEdits(app, version) + InitEdits(app, psp) + ClusterValuesEdits(app) + psp + kube + pin
  }

  function FullOutcome(cfg: Config, snap: Snapshot, store: Store, app: App, version: string): Outcome {
    var psp := PspOutcome(cfg, snap, store, app);
    match psp.result
    case Err(e) => psp
    case Ok(pspEdits) =>
      match KubeConfigEdits(snap, app)
      case Err(e) => Outcome(Err(e), psp.store)
      case Ok(kube) =>
        match ClusterAppEdits(snap, psp.store, app)
        case Err(e) => Outcome(Err(e), psp.store)
        case Ok(pin) => Outcome(Ok(FullEdits(app, version, pspEdits, kube, pin)), psp.store)
  }

  function MutateOutcome(cfg: Config, snap: Snapshot, store: Store, app: App): Outcome {
    match GateOf(cfg, snap, app)
    case Err(e) => Outcome(Err(e), store)
    case Ok(Skip) => Outcome(Ok([]), store)
    case Ok(LabelsOnly(version)) => Outcome(Ok(LabelsOnlyEdits(app, version)), store)
    case Ok(Full(version)) => FullOutcome(cfg, snap, store, app, version)
  }

  // ---------------------------------------------------------------- the defaulted App

  function DefaultedLabels(app: App, version: string): map<string, string> {
    app.metadata.labels
    + (if WantsNameLabel(app) then map[NAME_LABEL := app.spec.name] else map[])
    + (if WantsVersionLabel(app, version) then map[VERSION_LABEL := version] else map[])
  }

  function DefaultedKubeConfig(snap: Snapshot, app: App): KubeConfig {
    var k := app.spec.kubeConfig;
    match KubeConfigNamespace(snap, app.Namespace(), app.KubeConfigSecretName())
    case Ok(namespace) =>
      if WantsKubeConfig(app) && namespace != "" then
        k.(contextName := if k.contextName == "" then app.ClusterName() else k.contextName,
           secret := ObjRef(app.KubeConfigSecretName(), namespace))
      else k
    case Err(_) => k
  }

  /** The fields of the App after a successful call, each stated on its own. `store` is the store after the call. */
  function DefaultedApp(cfg: Config, snap: Snapshot, store: Store, app: App): App {
    match GateOf(cfg, snap, app)
    case Ok(LabelsOnly(version)) =>
      app.(metadata := app.metadata.(labels := DefaultedLabels(app, version)))
    case Ok(Full(version)) =>
      var psp := PspCaseOf(cfg, snap, app);
      var pin := Pin(snap, store, app);
      app.(
        metadata := app.metadata.(labels :=
          DefaultedLabels(app, version) + if psp.Ok? && !psp.value.NotAffected? then map[PSP_LABEL := PSP_DISABLED] else map[]),
        spec := app.spec.(
          extraConfigs := app.spec.extraConfigs
                          + (if WantsClusterValues(app) then [ClusterValuesEntry(app)] else [])
                          + (if psp == Ok(Unlisted) then [PspEntry(cfg, app)] else []),
          kubeConfig := DefaultedKubeConfig(snap, app),
          version := if pin.Ok? && pin.value.Some? then pin.value.value.version else app.spec.version,
          catalog := if pin.Ok? && pin.value.Some? then pin.value.value.catalog else app.spec.catalog))
    case _ => app
  }
}
