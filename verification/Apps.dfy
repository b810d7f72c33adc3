/** The App custom resource, its accessors, and how a raw document decodes to it. */
module Apps {
  import opened Wrappers
  import opened Json
  import Text

  const NAME_LABEL := "app.kubernetes.io/name"
  const APP_LABEL := "app"
  const VERSION_LABEL := "app-operator.giantswarm.io/version"
  const CLUSTER_LABEL := "giantswarm.io/cluster"
  const PSP_LABEL := "policy.giantswarm.io/psp-status"

  /** The labels the controller writes; every other label belongs to somebody else. */
  const MANAGED_LABELS := {NAME_LABEL, VERSION_LABEL, PSP_LABEL}

  const LEGACY_VERSION := "1.0.0"
  const UNIQUE_VERSION := "0.0.0"

  datatype ObjRef = ObjRef(name: string, namespace: string)

  const NO_REF := ObjRef("", "")

  datatype ConfigRefs = ConfigRefs(configMap: ObjRef, secret: ObjRef)

  datatype ExtraConfig = ExtraConfig(kind: string, name: string, namespace: string, priority: int)

  datatype KubeConfig = KubeConfig(inCluster: bool, contextName: string, secret: ObjRef)

  datatype Metadata = Metadata(
    name: string,
    namespace: string,
    deleting: bool,
    annotations: map<string, string>,
    labels: map<string, string>)

  datatype Spec = Spec(
    catalog: string,
    name: string,
    targetNamespace: string,
    version: string,
    config: ConfigRefs,
    userConfig: ConfigRefs,
    extraConfigs: seq<ExtraConfig>,
    kubeConfig: KubeConfig)

  datatype App = App(metadata: Metadata, spec: Spec) {

    function Label(key: string): string {
      if key in metadata.labels then metadata.labels[key] else ""
    }

    function Namespace(): string {
      metadata.namespace
    }

    predicate InOrgNamespace() {
      Text.HasPrefix(metadata.namespace, "org-")
    }

    predicate ManagedInOrg() {
      !spec.kubeConfig.inCluster && InOrgNamespace()
    }

    /** The workload cluster whose resources an app uses is named by the label in organisation namespaces. */
    function ClusterName(): string {
      if InOrgNamespace() then Label(CLUSTER_LABEL) else metadata.namespace
    }

    function ClusterConfigMapName(): string {
      ClusterName() + "-cluster-values"
    }

    function KubeConfigSecretName(): string {
      ClusterName() + "-kubeconfig"
    }

    predicate HasDefaultableVersion() {
      Label(VERSION_LABEL) == "" || Label(VERSION_LABEL) == LEGACY_VERSION
    }
  }

  lemma DistinctLabels()
    ensures NAME_LABEL != APP_LABEL && NAME_LABEL != VERSION_LABEL && NAME_LABEL != CLUSTER_LABEL
    ensures APP_LABEL != VERSION_LABEL && APP_LABEL != CLUSTER_LABEL && APP_LABEL != PSP_LABEL
    ensures VERSION_LABEL != CLUSTER_LABEL && VERSION_LABEL != PSP_LABEL
    ensures PSP_LABEL != NAME_LABEL && PSP_LABEL != CLUSTER_LABEL
    ensures '~' !in NAME_LABEL && '~' !in VERSION_LABEL && '~' !in PSP_LABEL
  {
  }

  // ---------------------------------------------------------------- decoding

  function Member(m: map<string, Json>, key: string): Json {
    if key in m then m[key] else JNull
  }

  /** Absent and null values decode to the zero value; a value of another kind is an error. */
  function ObjOf(j: Json): Option<map<string, Json>> {
    match j
    case JNull => Some(map[])
    case JObj(m) => Some(m)
    case _ => None
  }

  function StrOf(j: Json): Option<string> {
    match j
    case JNull => Some("")
    case JStr(s) => Some(s)
    case _ => None
  }

  function BoolOf(j: Json): Option<bool> {
    match j
    case JNull => Some(false)
    case JBool(b) => Some(b)
    case _ => None
  }

  function NumOf(j: Json): Option<int> {
    match j
    case JNull => Some(0)
    case JNum(n) => Some(n)
    case _ => None
  }

  function StrMapOf(j: Json): Option<map<string, string>> {
    var m :- ObjOf(j);
    if forall k :: k in m ==> StrOf(m[k]).Some?
    then Some(map k | k in m :: StrOf(m[k]).value)
    else None
  }

  function RefOf(j: Json): Option<ObjRef> {
    var m :- ObjOf(j);
    var name :- StrOf(Member(m, "name"));
    var namespace :- StrOf(Member(m, "namespace"));
    Some(ObjRef(name, namespace))
  }

  function ConfigRefsOf(j: Json): Option<ConfigRefs> {
    var m :- ObjOf(j);
    var configMap :- RefOf(Member(m, "configMap"));
    var secret :- RefOf(Member(m, "secret"));
    Some(ConfigRefs(configMap, secret))
  }

  function ExtraConfigOf(j: Json): Option<ExtraConfig> {
    var m :- ObjOf(j);
    var kind :- StrOf(Member(m, "kind"));
    var name :- StrOf(Member(m, "name"));
    var namespace :- StrOf(Member(m, "namespace"));
    var priority :- NumOf(Member(m, "priority"));
    Some(ExtraConfig(kind, name, namespace, priority))
  }

  function ExtraConfigsOf(j: Json): Option<seq<ExtraConfig>> {
    match j
    case JNull => Some([])
    case JArr(s) =>
      if forall i :: 0 <= i < |s| ==> ExtraConfigOf(s[i]).Some?
      then Some(seq(|s|, i requires 0 <= i < |s| => ExtraConfigOf(s[i]).value))
      else None
    case _ => None
  }

  function KubeConfigOf(j: Json): Option<KubeConfig> {
    var m :- ObjOf(j);
    var inCluster :- BoolOf(Member(m, "inCluster"));
    var context :- ObjOf(Member(m, "context"));
    var contextName :- StrOf(Member(context, "name"));
    var secret :- RefOf(Member(m, "secret"));
    Some(KubeConfig(inCluster, contextName, secret))
  }

  function MetadataOf(m: map<string, Json>): Option<Metadata> {
    var name :- StrOf(Member(m, "name"));
    var namespace :- StrOf(Member(m, "namespace"));
    var deletion :- StrOf(Member(m, "deletionTimestamp"));
    var annotations :- StrMapOf(Member(m, "annotations"));
    var labels :- StrMapOf(Member(m, "labels"));
    Some(Metadata(name, namespace, deletion != "", annotations, labels))
  }

  function SpecFrom(catalog: Option<string>, name: Option<string>, targetNamespace: Option<string>,
                    version: Option<string>, config: Option<ConfigRefs>, userConfig: Option<ConfigRefs>,
                    extraConfigs: Option<seq<ExtraConfig>>, kubeConfig: Option<KubeConfig>): Option<Spec>
  {
    if catalog.Some? && name.Some? && targetNamespace.Some? && version.Some? &&
       config.Some? && userConfig.Some? && extraConfigs.Some? && kubeConfig.Some?
    then Some(Spec(catalog.value, name.value, targetNamespace.value, version.value,
                   config.value, userConfig.value, extraConfigs.value, kubeConfig.value))
    else None
  }

  function SpecOf(m: map<string, Json>): Option<Spec> {
    SpecFrom(
      StrOf(Member(m, "catalog")),
      StrOf(Member(m, "name")),
      StrOf(Member(m, "namespace")),
      StrOf(Member(m, "version")),
      ConfigRefsOf(Member(m, "config")),
      ConfigRefsOf(Member(m, "userConfig")),
      ExtraConfigsOf(Member(m, "extraConfigs")),
      KubeConfigOf(Member(m, "kubeConfig")))
  }

  function Decode(doc: Json): Option<App> {
    var top :- ObjOf(doc);
    var meta :- ObjOf(Member(top, "metadata"));
    var spec :- ObjOf(Member(top, "spec"));
    var metadata :- MetadataOf(meta);
    var spec' :- SpecOf(spec);
    Some(App(metadata, spec'))
  }
}
