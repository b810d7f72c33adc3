/** The mutating webhook: it builds its list of patches step by step and writes ConfigMaps as it goes. */
module Mutator {
  import opened Wrappers
  import opened Json
  import opened Apps
  import opened Clusters
  import opened Edits
  import opened Defaulting
  import opened PatchList
  import opened Refinement
  import opened Requests
  import Semver
  import Text

  const PSP_LABEL_FOR_PATCH := "policy.giantswarm.io~1psp-status"
  const EXTRA_CONFIGS_PREFIX := "/spec/extraConfigs/"

  /** The API server: everything a snapshot shows, and the ConfigMaps. */
  class K8sClient {
    var snapshot: Snapshot
    var configMaps: Store

    constructor (snapshot: Snapshot, configMaps: Store)
      ensures this.snapshot == snapshot && this.configMaps == configMaps
    {
      this.snapshot := snapshot;
      this.configMaps := configMaps;
    }
  }

  /** The patches, or the error, that an outcome's edits stand for. */
  function Answer(r: Result<seq<Edit>>): Result<seq<PatchOperation>> {
    match r
    case Ok(edits) => Ok(ToPatches(edits))
    case Err(e) => Err(e)
  }

  // The paths as written in the program are the pointers of the edits.

  lemma TwoTokenPath(path: string, a: string, b: string)
    requires '/' !in a && '/' !in b && path == "/" + a + ("/" + b)
    ensures path == Render([a, b])
  {
    assert [a, b][1..] == [b] && [b][1..] == [];
    EscapePlain(a);
    EscapePlain(b);
    assert Render([b]) == "/" + b;
  }

  lemma ThreeTokenPath(path: string, a: string, b: string, c: string)
    requires '/' !in a && '/' !in b && '/' !in c && path == "/" + a + ("/" + b + ("/" + c))
    ensures path == Render([a, b, c])
  {
    assert [a, b, c][1..] == [b, c];
    EscapePlain(a);
    TwoTokenPath("/" + b + ("/" + c), b, c);
  }

  lemma AnnotationsPatch()
    ensures PatchAdd("/metadata/annotations", JObj(map[])) == ToPatch(InitAnnotations)
  {
    TwoTokenPath("/metadata/annotations", "metadata", "annotations");
  }

  lemma LabelsPatch()
    ensures PatchAdd("/metadata/labels", JObj(map[])) == ToPatch(InitLabels)
  {
    TwoTokenPath("/metadata/labels", "metadata", "labels");
  }

  lemma ContainerPatch()
    ensures PatchAdd("/spec/extraConfigs", JArr([])) == ToPatch(InitExtraConfigs)
  {
    TwoTokenPath("/spec/extraConfigs", "spec", "extraConfigs");
  }

  lemma AppendPatch(entry: ExtraConfig)
    ensures PatchAdd("/spec/extraConfigs/-", ExtraConfigJson(entry)) == ToPatch(AppendExtraConfig(entry))
    ensures Text.HasPrefix(ToPatch(AppendExtraConfig(entry)).path, EXTRA_CONFIGS_PREFIX)
  {
    ThreeTokenPath("/spec/extraConfigs/-", "spec", "extraConfigs", "-");
    assert "/spec/extraConfigs/-"[..19] == EXTRA_CONFIGS_PREFIX;
  }

  lemma ContextPatch(name: string)
    ensures PatchAdd("/spec/kubeConfig/context", JObj(map["name" := JStr(name)])) == ToPatch(SetContext(name))
  {
    ThreeTokenPath("/spec/kubeConfig/context", "spec", "kubeConfig", "context");
  }

  lemma SecretPatch(ref: ObjRef)
    ensures PatchAdd("/spec/kubeConfig/secret",
                     JObj(map["namespace" := JStr(ref.namespace), "name" := JStr(ref.name)])) == ToPatch(SetKubeSecret(ref))
  {
    ThreeTokenPath("/spec/kubeConfig/secret", "spec", "kubeConfig", "secret");
  }

  lemma VersionPatch(version: string)
    ensures PatchAdd("/spec/version", JStr(version)) == ToPatch(SetVersion(version))
  {
    TwoTokenPath("/spec/version", "spec", "version");
  }

  lemma CatalogPatch(catalog: string)
    ensures PatchAdd("/spec/catalog", JStr(catalog)) == ToPatch(SetCatalog(catalog))
  {
    TwoTokenPath("/spec/catalog", "spec", "catalog");
  }

  lemma LabelPatch(key: string, value: string)
    ensures PatchAdd("/metadata/labels/" + ReplaceToEscape(key), JStr(value)) == ToPatch(SetLabel(key, value))
    ensures !Text.HasPrefix(ToPatch(SetLabel(key, value)).path, EXTRA_CONFIGS_PREFIX)
  {
    LabelPointer(key);
    assert ("/metadata/labels/" + ReplaceToEscape(key))[1] == 'm' && EXTRA_CONFIGS_PREFIX[1] == 's';
  }

  lemma OneMore(edits: seq<Edit>, e: Edit)
    ensures ToPatches(edits + [e]) == ToPatches(edits) + [ToPatch(e)]
  {
  }

  lemma NoPatches()
    ensures ToPatches([]) == []
  {
  }

  /** The hand-escaped constant is the escape of the plain label key. */
  lemma PspLabelEscaped()
    ensures ReplaceToEscape(PSP_LABEL) == PSP_LABEL_FOR_PATCH
  {
    EscapeConcat("policy.giantswarm.io", "/psp-status");
    EscapeConcat("/", "psp-status");
    EscapePlain("policy.giantswarm.io");
    EscapePlain("psp-status");
    assert "policy.giantswarm.io" + "/psp-status" == PSP_LABEL && "/" + "psp-status" == "/psp-status";
    EscapeSlash();
    assert "policy.giantswarm.io" + ("~1" + "psp-status") == PSP_LABEL_FOR_PATCH;
  }

  /** Only appends have a path below the container. */
  lemma PrefixedPaths(e: Edit)
    requires e.SetLabel? || e.AppendExtraConfig?
    ensures Text.HasPrefix(ToPatch(e).path, EXTRA_CONFIGS_PREFIX) <==> e.AppendExtraConfig?
  {
    if e.SetLabel? {
      LabelPatch(e.key, e.value);
    } else {
      AppendPatch(e.entry);
    }
  }

  class Mutator {
    const cfg: Config
    const k8s: K8sClient

    constructor (cfg: Config, k8s: K8sClient)
      ensures this.cfg == cfg && this.k8s == k8s
    {
      this.cfg := cfg;
      this.k8s := k8s;
    }

    method Mutate(request: Request) returns (r: Result<seq<PatchOperation>>)
      modifies k8s`configMaps
      ensures r == Answer(RequestOutcome(cfg, k8s.snapshot, old(k8s.configMaps), request).result)
      ensures k8s.configMaps == RequestOutcome(cfg, k8s.snapshot, old(k8s.configMaps), request).store
      // Dry runs and deletions are answered with nothing, unreadable objects with an error, and nothing is stored.
      ensures request.dryRun ==> r == Ok([]) && k8s.configMaps == old(k8s.configMaps)
      ensures var app, current := Decode(request.newDoc), Decode(request.oldDoc);
              && (!request.dryRun && (app.None? || current.None?) ==>
                    r == Err(ParsingFailed) && k8s.configMaps == old(k8s.configMaps))
              && (!request.dryRun && app.Some? && current.Some? &&
                  request.operation == Update && app.value.metadata.deleting ==>
                    r == Ok([]) && k8s.configMaps == old(k8s.configMaps))
      // Every other list takes the raw document to the defaulted App, or does not apply in the one case there is.
      ensures var app := Decode(request.newDoc);
              r.Ok? && !request.dryRun && app.Some? && !(request.operation == Update && app.value.metadata.deleting) &&
              Shaped(request.newDoc) ==>
                var patched := ApplyAll(request.newDoc, r.value);
                if WritesKubeConfig(cfg, k8s.snapshot, app.value) && !HasKubeConfig(request.newDoc) then patched.None?
                else patched.Some? && Decode(patched.value) == Some(DefaultedApp(cfg, k8s.snapshot, k8s.configMaps, app.value))
    {
      NoPatches();
      if request.dryRun {
        return Ok([]);
      }
      var newApp := Decode(request.newDoc);
      if newApp.None? {
        return Err(ParsingFailed);
      }
      var oldApp := Decode(request.oldDoc);
      if oldApp.None? {
        return Err(ParsingFailed);
      }
      if request.operation == Update && newApp.value.metadata.deleting {
        return Ok([]);
      }
      r := MutateApp(newApp.value);
      ghost var o := MutateOutcome(cfg, k8s.snapshot, old(k8s.configMaps), newApp.value);
      if o.result.Ok? && Shaped(request.newDoc) {
        ListRefinesDefault(cfg, k8s.snapshot, old(k8s.configMaps), request.newDoc, newApp.value, o.result.value, o.store);
      }
    }

    method MutateApp(app: App) returns (r: Result<seq<PatchOperation>>)
      modifies k8s`configMaps
      ensures r == Answer(MutateOutcome(cfg, k8s.snapshot, old(k8s.configMaps), app).result)
      ensures k8s.configMaps == MutateOutcome(cfg, k8s.snapshot, old(k8s.configMaps), app).store
    {
      NoPatches();
      var isManagedInOrg := !app.spec.kubeConfig.inCluster && app.InOrgNamespace();
      var result := InitContainers(app);

      var appVersionLabel := app.Label(VERSION_LABEL);
      if !isManagedInOrg && (appVersionLabel == "" || appVersionLabel == LEGACY_VERSION) {
        var chartOperatorVersion := GetChartOperatorAppVersion(app.Namespace());
        if chartOperatorVersion.Err? {
          return Err(chartOperatorVersion.error);
        }
        appVersionLabel := chartOperatorVersion.value;
        if appVersionLabel == "" {
          return Ok([]);
        }
      }

      var patchLabels := false;
      var labelPatches := MutateLabels(app, appVersionLabel);
      if |labelPatches| > 0 {
        result := result + labelPatches;
        patchLabels := true;
      }
      LabelsJoined(app, appVersionLabel);

      var ver := cfg.parse(appVersionLabel);
      if !isManagedInOrg && ver.None? {
        return Ok([]);
      }
      if !isManagedInOrg && app.Label(VERSION_LABEL) != UNIQUE_VERSION && ver.value.major < 3 {
        if patchLabels {
          return Ok(result);
        }
        return Ok([]);
      }
      r := DefaultSpec(app, appVersionLabel, result);
    }

    /** Later patches may go into these two objects, so they come first and only where nothing is lost. */
    method InitContainers(app: App) returns (result: seq<PatchOperation>)
      ensures result == ToPatches(Header(app))
    {
      NoPatches();
      result := [];
      ghost var edits := [];
      if |app.metadata.annotations| == 0 {
        result := result + [PatchAdd("/metadata/annotations", JObj(map[]))];
        AnnotationsPatch();
        OneMore(edits, InitAnnotations);
        edits := edits + [InitAnnotations];
      }
      if |app.metadata.labels| == 0 {
        result := result + [PatchAdd("/metadata/labels", JObj(map[]))];
        LabelsPatch();
        OneMore(edits, InitLabels);
        edits := edits + [InitLabels];
      }
      assert edits == Header(app);
    }

    /** The part of the call behind the version gate; `result` holds the patches so far. */
    method DefaultSpec(app: App, version: string, patches: seq<PatchOperation>) returns (r: Result<seq<PatchOperation>>)
      requires patches == ToPatches(LabelsOnlyEdits(app, version))
      modifies k8s`configMaps
      ensures r == Answer(FullOutcome(cfg, k8s.snapshot, old(k8s.configMaps), app, version).result)
      ensures k8s.configMaps == FullOutcome(cfg, k8s.snapshot, old(k8s.configMaps), app, version).store
    {
      var result := patches;
      var extraConfigPatches := MutateExtraConfigs(app);
      var pspConfigPatches := MutateConfigForPSPRemoval(app);
      if pspConfigPatches.Err? {
        return Err(pspConfigPatches.error);
      }
      ghost var psp := PspOutcome(cfg, k8s.snapshot, old(k8s.configMaps), app).result.value;
      PspPatchKinds(cfg, k8s.snapshot, old(k8s.configMaps), app);
      result := WithExtraConfigs(app, result, extraConfigPatches, pspConfigPatches.value, psp);
      var tail := DefaultTail(app, result);
      FullAnswer(cfg, k8s.snapshot, old(k8s.configMaps), app, version);
      return tail;
    }

    /** The container, when the two lists that follow it need one. */
    method WithExtraConfigs(app: App, patches: seq<PatchOperation>, values: seq<PatchOperation>,
                            psp: seq<PatchOperation>, ghost pspEdits: seq<Edit>) returns (result: seq<PatchOperation>)
      requires values == ToPatches(ClusterValuesEdits(app)) && psp == ToPatches(pspEdits)
      requires forall e :: e in pspEdits ==> e.SetLabel? || e.AppendExtraConfig?
      ensures result == patches + ToPatches(InitEdits(app, pspEdits)) + values + psp
    {
      ContainerPatch();
      NoPatches();
      OneMore([], InitExtraConfigs);
      assert [] + [InitExtraConfigs] == [InitExtraConfigs];
      AppendsAreSeen(ClusterValuesEdits(app));
      AppendsAreSeen(pspEdits);
      result := patches;
      var addsValues := HasPatchAddToExtraConfigs(values);
      var addsPsp := HasPatchAddToExtraConfigs(psp);
      var needsExtraConfigsSet := |app.spec.extraConfigs| == 0 && (addsValues || addsPsp);
      if needsExtraConfigsSet {
        result := result + [PatchAdd("/spec/extraConfigs", JArr([]))];
      }
      assert result == patches + ToPatches(InitEdits(app, pspEdits));
      if |values| > 0 {
        result := result + values;
      }
      assert result == patches + ToPatches(InitEdits(app, pspEdits)) + values;
      if |psp| > 0 {
        result := result + psp;
      }
    }

    /** The last two sub-mutators; they write no ConfigMap. */
    method DefaultTail(app: App, patches: seq<PatchOperation>) returns (r: Result<seq<PatchOperation>>)
      ensures r ==
        var kube := KubeConfigEdits(k8s.snapshot, app);
        var pin := ClusterAppEdits(k8s.snapshot, k8s.configMaps, app);
        if kube.Err? then Err(kube.error) else if pin.Err? then Err(pin.error)
        else Ok(patches + ToPatches(kube.value) + ToPatches(pin.value))
    {
      var result := patches;
      var kubeConfigPatches := MutateKubeConfig(app);
      if kubeConfigPatches.Err? {
        return Err(kubeConfigPatches.error);
      }
      if |kubeConfigPatches.value| > 0 {
        result := result + kubeConfigPatches.value;
      }
      assert result == patches + kubeConfigPatches.value;
      var clusterAppPatches := MutateClusterApp(app);
      if clusterAppPatches.Err? {
        return Err(clusterAppPatches.error);
      }
      if |clusterAppPatches.value| > 0 {
        result := result + clusterAppPatches.value;
      }
      assert result == patches + kubeConfigPatches.value + clusterAppPatches.value;
      return Ok(result);
    }

    method GetChartOperatorAppVersion(namespace: string) returns (r: Result<string>)
      ensures r == ChartOperatorVersion(k8s.snapshot, namespace)
    {
      var ref := ObjRef(CHART_OPERATOR, namespace);
      if GetApp(ref) in k8s.snapshot.faults {
        return Err(ApiFailure);
      }
      if ref !in k8s.snapshot.apps {
        return Ok("");
      }
      return Ok(k8s.snapshot.apps[ref].Label(VERSION_LABEL));
    }

    method MutateLabels(app: App, appVersionLabel: string) returns (result: seq<PatchOperation>)
      ensures result == ToPatches(LabelEdits(app, appVersionLabel))
    {
      LabelPatch(NAME_LABEL, app.spec.name);
      LabelPatch(VERSION_LABEL, appVersionLabel);
      result := [];
      if app.Label(NAME_LABEL) == "" && app.Label(APP_LABEL) == "" {
        result := result + [PatchAdd("/metadata/labels/" + ReplaceToEscape(NAME_LABEL), JStr(app.spec.name))];
      }
      if (app.Label(VERSION_LABEL) == "" || app.Label(VERSION_LABEL) == LEGACY_VERSION) && appVersionLabel != "" {
        result := result + [PatchAdd("/metadata/labels/" + ReplaceToEscape(VERSION_LABEL), JStr(appVersionLabel))];
      }
    }

    method MutateExtraConfigs(app: App) returns (result: seq<PatchOperation>)
      ensures result == ToPatches(ClusterValuesEdits(app))
    {
      AppendPatch(ClusterValuesEntry(app));
      result := [];
      if app.Label(VERSION_LABEL) == UNIQUE_VERSION {
        return;
      }
      var clusterConfigMap := app.ClusterConfigMapName();
      if app.spec.config.configMap.name == clusterConfigMap && app.spec.config.configMap.namespace == app.Namespace() {
        return;
      }
      ghost var ref := ObjRef(clusterConfigMap, app.Namespace());
      for i := 0 to |app.spec.extraConfigs|
        invariant forall j :: 0 <= j < i ==> !Refers(app.spec.extraConfigs[j], ref)
      {
        var c := app.spec.extraConfigs[i];
        if c.name == clusterConfigMap && c.namespace == app.Namespace() {
          assert Refers(app.spec.extraConfigs[i], ref);
          return;
        }
      }
      if app.spec.userConfig.configMap.name == clusterConfigMap && app.spec.userConfig.configMap.namespace == app.Namespace() {
        return;
      }
      result := result + [PatchAdd("/spec/extraConfigs/-",
        ExtraConfigJson(ExtraConfig("configMap", clusterConfigMap, app.Namespace(), BOTTOM_PRIORITY)))];
    }

    method HasPatchAddToExtraConfigs(patches: seq<PatchOperation>) returns (found: bool)
      ensures found <==> exists i :: 0 <= i < |patches| && Text.HasPrefix(patches[i].path, EXTRA_CONFIGS_PREFIX)
    {
      for i := 0 to |patches|
        invariant forall j :: 0 <= j < i ==> !Text.HasPrefix(patches[j].path, EXTRA_CONFIGS_PREFIX)
      {
        if Text.HasPrefix(patches[i].path, EXTRA_CONFIGS_PREFIX) {
          return true;
        }
      }
      return false;
    }

    method MutateConfigForPSPRemoval(app: App) returns (r: Result<seq<PatchOperation>>)
      modifies k8s`configMaps
      ensures r == Answer(PspOutcome(cfg, k8s.snapshot, old(k8s.configMaps), app).result)
      ensures k8s.configMaps == PspOutcome(cfg, k8s.snapshot, old(k8s.configMaps), app).store
    {
      NoPatches();
      PspPatches(cfg, app);
      var extraConfig, extraConfigValues := PspExtraConfig(app);
      var decision := DecidePspRemoval(app, extraConfig);
      if decision.Err? {
        return Err(decision.error);
      }
      if decision.value == NotAffected {
        return Ok([]);
      }
      var result := [PatchAdd("/metadata/labels/" + PSP_LABEL_FOR_PATCH, JStr(PSP_DISABLED))];
      var done := EnsureConfigMap(ObjRef(extraConfig.name, app.Namespace()), extraConfigValues);
      if !done {
        return Err(ApiFailure);
      }
      if decision.value == Unlisted {
        result := result + [PatchAdd("/spec/extraConfigs/-", ExtraConfigJson(extraConfig))];
      }
      assert result == ToPatches(PspEdits(cfg, app, decision.value));
      return Ok(result);
    }

    /** The decision tree in front of the patches: provider, cluster label, listed entry, cluster. */
    method DecidePspRemoval(app: App, extraConfig: ExtraConfig) returns (r: Result<PspCase>)
      requires extraConfig == PspEntry(cfg, app)
      ensures r == PspCaseOf(cfg, k8s.snapshot, app)
    {
      var isVintageCluster := Text.ToLower(cfg.provider) in VINTAGE_PROVIDERS;
      var isCAPICluster := Text.ToLower(cfg.provider) in CAPI_PROVIDERS;
      if !isVintageCluster && !isCAPICluster {
        return Err(PspRemoval);
      }
      var clusterID := app.Label(CLUSTER_LABEL);
      if clusterID == "" {
        return Ok(NotAffected);
      }
      if app.Label(VERSION_LABEL) == UNIQUE_VERSION && app.Namespace() == "giantswarm" {
        return Ok(NotAffected);
      }
      for i := 0 to |app.spec.extraConfigs|
        invariant extraConfig !in app.spec.extraConfigs[..i]
      {
        if app.spec.extraConfigs[i] == extraConfig {
          return Ok(AlreadyListed);
        }
      }
      assert app.spec.extraConfigs[..|app.spec.extraConfigs|] == app.spec.extraConfigs;
      if ListClusters in k8s.snapshot.faults {
        return Err(PspRemoval);
      }
      var clusterCR := FindCluster(clusterID);
      if clusterCR.None? {
        if isVintageCluster {
          return Err(PspRemoval);
        } else {
          return Ok(NotAffected);
        }
      }
      var drops := ClusterDropsPsp(clusterCR.value, isVintageCluster);
      if drops.Err? {
        return Err(drops.error);
      }
      return Ok(if drops.value then Unlisted else NotAffected);
    }

    /** The default entry and values, or those of a custom patch for the App. */
    method PspExtraConfig(app: App) returns (extraConfig: ExtraConfig, extraConfigValues: string)
      ensures extraConfig == PspEntry(cfg, app) && extraConfigValues == PspConfigValues(cfg.patches, app.spec.name)
    {
      extraConfig := ExtraConfig("configMap", PSP_CONFIG_NAME, app.Namespace(), TOP_PRIORITY);
      extraConfigValues := PSP_CONFIG_VALUES;
      var patch := AppRequiresCustomPatch(app.spec.name);
      if patch.Some? {
        var suffix := patch.value.configMapSuffix;
        if suffix == "" {
          suffix := patch.value.appName;
        }
        var extraConfigName := PSP_CONFIG_NAME + "-" + suffix;
        if |extraConfigName| > MAX_NAME {
          extraConfigName := extraConfigName[..MAX_NAME];
        }
        extraConfig := extraConfig.(name := extraConfigName);
        extraConfigValues := patch.value.values;
      }
    }

    method ClusterDropsPsp(clusterCR: ClusterCR, isVintageCluster: bool) returns (r: Result<bool>)
      requires isVintageCluster == Vintage(cfg)
      ensures r == DropsPsp(cfg, clusterCR)
    {
      if isVintageCluster {
        if RELEASE_LABEL !in clusterCR.labels {
          return Err(PspRemoval);
        }
        var releaseVersion := cfg.parse(clusterCR.labels[RELEASE_LABEL]);
        if releaseVersion.None? {
          return Err(PspRemoval);
        }
        if Semver.LessThan(releaseVersion.value, PSS_CUTOFF) {
          return Ok(false);
        }
      } else {
        if PSP_LABEL !in clusterCR.labels {
          return Ok(false);
        }
        if clusterCR.labels[PSP_LABEL] != PSP_DISABLED {
          return Err(PspRemoval);
        }
      }
      return Ok(true);
    }

    method FindCluster(clusterID: string) returns (clusterCR: Option<ClusterCR>)
      ensures clusterCR == FirstCluster(k8s.snapshot.clusters, clusterID)
    {
      var items := k8s.snapshot.clusters;
      clusterCR := None;
      for i := 0 to |items|
        invariant FirstCluster(items, clusterID) == FirstCluster(items[i..], clusterID)
        invariant clusterCR.None?
      {
        if items[i].name == clusterID {
          clusterCR := Some(items[i]);
          break;
        }
      }
    }

    /** The flag tells whether every API call succeeded. */
    method EnsureConfigMap(ref: ObjRef, values: string) returns (done: bool)
      modifies k8s`configMaps
      ensures (done, k8s.configMaps) == Ensured(k8s.snapshot, old(k8s.configMaps), ref, values)
    {
      var cm := ConfigMap(map[MANAGED_BY_LABEL := PROJECT], map["values" := values]);
      if GetConfigMap(ref) in k8s.snapshot.faults {
        return false;
      }
      if ref in k8s.configMaps {
        if k8s.configMaps[ref].data == cm.data {
          return true;
        }
        if UpdateConfigMap(ref) in k8s.snapshot.faults {
          return false;
        }
      } else if CreateConfigMap(ref) in k8s.snapshot.faults {
        return false;
      }
      k8s.configMaps := k8s.configMaps[ref := cm];
      return true;
    }

    method AppRequiresCustomPatch(appSpecName: string) returns (patch: Option<ConfigPatch>)
      ensures patch == CustomPatch(cfg.patches, appSpecName)
    {
      for i := 0 to |cfg.patches|
        invariant CustomPatch(cfg.patches, appSpecName) == CustomPatch(cfg.patches[i..], appSpecName)
      {
        if cfg.patches[i].appName == appSpecName {
          return Some(cfg.patches[i]);
        }
      }
      return None;
    }

    method MutateKubeConfig(app: App) returns (r: Result<seq<PatchOperation>>)
      ensures r == Answer(KubeConfigEdits(k8s.snapshot, app))
    {
      NoPatches();
      var result := [];
      if app.spec.kubeConfig.inCluster {
        return Ok([]);
      }
      if app.spec.kubeConfig.secret.name != "" || app.spec.kubeConfig.secret.namespace != "" {
        return Ok([]);
      }
      var kubeConfigNamespace := FindKubeConfigNamespace(app.Namespace(), app.KubeConfigSecretName());
      if kubeConfigNamespace.Err? {
        return Err(kubeConfigNamespace.error);
      }
      if kubeConfigNamespace.value == "" {
        return Ok([]);
      }
      var contextName := app.Namespace();
      var isManagedInOrg := !app.spec.kubeConfig.inCluster && app.InOrgNamespace();
      if isManagedInOrg {
        contextName := app.Label(CLUSTER_LABEL);
      }
      ghost var edits := [];
      if app.spec.kubeConfig.contextName == "" {
        result := result + [PatchAdd("/spec/kubeConfig/context", JObj(map["name" := JStr(contextName)]))];
        ContextPatch(contextName);
        edits := [SetContext(contextName)];
      }
      assert result == ToPatches(edits);
      result := result + [PatchAdd("/spec/kubeConfig/secret", JObj(map[
        "namespace" := JStr(kubeConfigNamespace.value),
        "name" := JStr(app.KubeConfigSecretName())]))];
      SecretPatch(ObjRef(app.KubeConfigSecretName(), kubeConfigNamespace.value));
      edits := edits + [SetKubeSecret(ObjRef(app.KubeConfigSecretName(), kubeConfigNamespace.value))];
      assert result == ToPatches(edits);
      return Ok(result);
    }

    method FindKubeConfigNamespace(appNamespace: string, kubeConfigName: string) returns (r: Result<string>)
      ensures r == KubeConfigNamespace(k8s.snapshot, appNamespace, kubeConfigName)
    {
      var ref := ObjRef(kubeConfigName, appNamespace);
      if GetSecret(ref) !in k8s.snapshot.faults {
        if exists i :: 0 <= i < |k8s.snapshot.secrets| && k8s.snapshot.secrets[i].ref == ref {
          return Ok(appNamespace);
        }
        if ListSecrets in k8s.snapshot.faults {
          return Err(ApiFailure);
        }
        var items := SelectedSecrets(k8s.snapshot.secrets, CAPI_CLUSTER_LABEL, appNamespace);
        for i := 0 to |items|
          invariant FirstNamed(items, kubeConfigName) == FirstNamed(items[i..], kubeConfigName)
        {
          if items[i].ref.name == kubeConfigName {
            return Ok(items[i].ref.namespace);
          }
        }
      }
      return Ok("");
    }

    method MutateClusterApp(app: App) returns (r: Result<seq<PatchOperation>>)
      ensures r == Answer(ClusterAppEdits(k8s.snapshot, k8s.configMaps, app))
    {
      NoPatches();
      var isClusterApp := (app.spec.catalog == "cluster" || app.spec.catalog == "cluster-test") &&
                          Text.HasPrefix(app.spec.name, "cluster-");
      if !isClusterApp {
        return Ok([]);
      }
      var configured := GetReleaseVersion(app);
      if configured.Err? {
        return Err(configured.error);
      }
      if configured.value.None? {
        return Ok([]);
      }
      var releaseVersion := Text.TrimPrefix(configured.value.value, "v");
      var providerName := Text.ToLower(Text.TrimPrefix(app.spec.name, "cluster-"));
      releaseVersion := providerName + "-" + releaseVersion;
      assert releaseVersion == ReleaseName(app, configured.value.value);
      if GetRelease(releaseVersion) in k8s.snapshot.faults {
        return Err(ApiFailure);
      }
      if releaseVersion !in k8s.snapshot.releases {
        return Err(NotFound);
      }
      var components := k8s.snapshot.releases[releaseVersion];
      var clusterAppCatalog, clusterAppVersion := "", "";
      ghost var first := FirstComponent(components, app.spec.name);
      for i := 0 to |components|
        invariant first == FirstComponent(components[i..], app.spec.name)
        invariant clusterAppVersion == ""
        invariant clusterAppCatalog == ""
      {
        if components[i].name == app.spec.name {
          clusterAppCatalog := components[i].catalog;
          clusterAppVersion := components[i].version;
          break;
        }
      }
      if clusterAppVersion == "" {
        return Err(ClusterAppVersionNotFound);
      }
      var result := [];
      if app.spec.version != clusterAppVersion {
        result := result + [PatchAdd("/spec/version", JStr(clusterAppVersion))];
        VersionPatch(clusterAppVersion);
      }
      if app.spec.catalog != clusterAppCatalog {
        result := result + [PatchAdd("/spec/catalog", JStr(clusterAppCatalog))];
        CatalogPatch(clusterAppCatalog);
      }
      assert result == ToPatches(PinEdits(app, first));
      return Ok(result);
    }

    /** The release version in the merged values of a cluster App. */
    method GetReleaseVersion(app: App) returns (r: Result<Option<string>>)
      ensures r == ConfiguredRelease(k8s.snapshot, k8s.configMaps, app)
    {
      if GetCatalog(app.spec.catalog) in k8s.snapshot.faults {
        return Err(ApiFailure);
      }
      if app.spec.catalog !in k8s.snapshot.catalogs {
        return Err(NotFound);
      }
      var clusterAppConfig := k8s.snapshot.mergedValues(app, k8s.configMaps);
      if clusterAppConfig.None? {
        return Err(ApiFailure);
      }
      if "global" !in clusterAppConfig.value || !clusterAppConfig.value["global"].JObj? {
        return Err(InvalidConfig);
      }
      var globalValues := clusterAppConfig.value["global"].members;
      if "release" !in globalValues {
        return Ok(None);
      }
      if !globalValues["release"].JObj? {
        return Err(InvalidConfig);
      }
      var releaseValues := globalValues["release"].members;
      if "version" !in releaseValues || !releaseValues["version"].JStr? {
        return Err(InvalidConfig);
      }
      return Ok(Some(releaseValues["version"].text));
    }
  }

  lemma AppendsAreSeen(edits: seq<Edit>)
    requires forall e :: e in edits ==> e.SetLabel? || e.AppendExtraConfig?
    ensures HasAppend(edits) <==>
            exists i :: 0 <= i < |ToPatches(edits)| && Text.HasPrefix(ToPatches(edits)[i].path, EXTRA_CONFIGS_PREFIX)
  {
    forall i | 0 <= i < |edits|
      ensures Text.HasPrefix(ToPatches(edits)[i].path, EXTRA_CONFIGS_PREFIX) <==> edits[i].AppendExtraConfig?
    {
      assert edits[i] in edits;
      PrefixedPaths(edits[i]);
    }
  }

  lemma LabelsJoined(app: App, version: string)
    ensures ToPatches(Header(app)) + ToPatches(LabelEdits(app, version)) == ToPatches(LabelsOnlyEdits(app, version))
    ensures ToPatches(LabelEdits(app, version)) == [] <==> LabelEdits(app, version) == []
  {
  }

  lemma PspPatches(cfg: Config, app: App)
    ensures var status := PatchAdd("/metadata/labels/" + PSP_LABEL_FOR_PATCH, JStr(PSP_DISABLED));
            && ToPatches(PspEdits(cfg, app, AlreadyListed)) == [status]
            && ToPatches(PspEdits(cfg, app, Unlisted)) ==
               [status, PatchAdd("/spec/extraConfigs/-", ExtraConfigJson(PspEntry(cfg, app)))]
  {
    PspLabelEscaped();
    LabelPatch(PSP_LABEL, PSP_DISABLED);
    AppendPatch(PspEntry(cfg, app));
  }

  lemma PspPatchKinds(cfg: Config, snap: Snapshot, store: Store, app: App)
    requires PspOutcome(cfg, snap, store, app).result.Ok?
    ensures forall e :: e in PspOutcome(cfg, snap, store, app).result.value ==> e.SetLabel? || e.AppendExtraConfig?
  {
  }

  lemma FullAnswer(cfg: Config, snap: Snapshot, store: Store, app: App, version: string)
    ensures var o := PspOutcome(cfg, snap, store, app);
            var kube, pin := KubeConfigEdits(snap, app), ClusterAppEdits(snap, o.store, app);
            Answer(FullOutcome(cfg, snap, store, app, version).result) ==
            if o.result.Err? then Err(o.result.error)
            else if kube.Err? then Err(kube.error)
            else if pin.Err? then Err(pin.error)
            else Ok(ToPatches(LabelsOnlyEdits(app, version)) + ToPatches(InitEdits(app, o.result.value))
                    + ToPatches(ClusterValuesEdits(app)) + ToPatches(o.result.value)
                    + ToPatches(kube.value) + ToPatches(pin.value))
  {
    var o := PspOutcome(cfg, snap, store, app);
    var kube, pin := KubeConfigEdits(snap, app), ClusterAppEdits(snap, o.store, app);
    if o.result.Ok? && kube.Ok? && pin.Ok? {
      SixPatches(LabelsOnlyEdits(app, version), InitEdits(app, o.result.value), ClusterValuesEdits(app),
                 o.result.value, kube.value, pin.value);
    }
  }

  lemma SixPatches(a: seq<Edit>, b: seq<Edit>, c: seq<Edit>, d: seq<Edit>, e: seq<Edit>, f: seq<Edit>)
    ensures ToPatches(a + b + c + d + e + f) ==
            ToPatches(a) + ToPatches(b) + ToPatches(c) + ToPatches(d) + ToPatches(e) + ToPatches(f)
  {
    ToPatchesConcat(a + b + c + d + e, f);
    ToPatchesConcat(a + b + c + d, e);
    ToPatchesConcat(a + b + c, d);
    ToPatchesConcat(a + b, c);
    ToPatchesConcat(a, b);
  }
}
