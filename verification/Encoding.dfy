/** The document of an App, member by member, and that it decodes to the App. */
module Encoding {
  import opened Wrappers
  import opened Json
  import opened Apps
  import opened Edits

  function RefJson(r: ObjRef): Json {
    JObj(map["name" := JStr(r.name), "namespace" := JStr(r.namespace)])
  }

  function ConfigJson(c: ConfigRefs): Json {
    JObj(map["configMap" := RefJson(c.configMap), "secret" := RefJson(c.secret)])
  }

  function ListJson(list: seq<ExtraConfig>): Json {
    JArr(seq(|list|, i requires 0 <= i < |list| => ExtraConfigJson(list[i])))
  }

  function KubeConfigJson(k: KubeConfig): Json {
    JObj(map["inCluster" := JBool(k.inCluster), "context" := JObj(map["name" := JStr(k.contextName)]), "secret" := RefJson(k.secret)])
  }

  function StringsJson(m: map<string, string>): Json {
    JObj(map k | k in m :: JStr(m[k]))
  }

  const SOME_TIME := "2024-01-01T00:00:00Z"

  function MetadataMembers(m: Metadata): map<string, Json> {
    map["name" := JStr(m.name), "namespace" := JStr(m.namespace), "annotations" := StringsJson(m.annotations),
        "labels" := StringsJson(m.labels), "deletionTimestamp" := if m.deleting then JStr(SOME_TIME) else JNull]
  }

  function SpecJson(s: Spec): map<string, Json> {
    map["catalog" := JStr(s.catalog), "name" := JStr(s.name), "namespace" := JStr(s.targetNamespace),
        "version" := JStr(s.version), "config" := ConfigJson(s.config), "userConfig" := ConfigJson(s.userConfig),
        "extraConfigs" := ListJson(s.extraConfigs), "kubeConfig" := KubeConfigJson(s.kubeConfig)]
  }

  function AppJson(app: App): Json {
    JObj(map["metadata" := JObj(MetadataMembers(app.metadata)), "spec" := JObj(SpecJson(app.spec))])
  }

  lemma ConfigDecodes(c: ConfigRefs)
    ensures ConfigRefsOf(ConfigJson(c)) == Some(c)
  {
  }

  lemma ListDecodes(list: seq<ExtraConfig>)
    ensures ExtraConfigsOf(ListJson(list)) == Some(list)
  {
    forall i | 0 <= i < |list| ensures ExtraConfigOf(ExtraConfigJson(list[i])) == Some(list[i]) {
      ExtraConfigRoundTrip(list[i]);
    }
    assert ExtraConfigsOf(ListJson(list)).value == list;
  }

  lemma KubeConfigDecodes(k: KubeConfig)
    ensures KubeConfigOf(KubeConfigJson(k)) == Some(k)
  {
  }

  lemma StringsDecode(m: map<string, string>)
    ensures StrMapOf(StringsJson(m)) == Some(m)
  {
    assert StrMapOf(StringsJson(m)).value == m;
  }

  lemma MetadataDecodes(m: Metadata)
    ensures MetadataOf(MetadataMembers(m)) == Some(m)
  {
    StringsDecode(m.annotations);
    StringsDecode(m.labels);
    assert |"name"| == 4 && |"namespace"| == 9 && |"annotations"| == 11 && |"labels"| == 6 && |"deletionTimestamp"| == 17;
  }

  lemma SpecMembersRead(s: Spec)
    ensures var m := SpecJson(s);
            && Member(m, "catalog") == JStr(s.catalog) && Member(m, "name") == JStr(s.name)
            && Member(m, "namespace") == JStr(s.targetNamespace) && Member(m, "version") == JStr(s.version)
            && Member(m, "config") == ConfigJson(s.config) && Member(m, "userConfig") == ConfigJson(s.userConfig)
            && Member(m, "extraConfigs") == ListJson(s.extraConfigs) && Member(m, "kubeConfig") == KubeConfigJson(s.kubeConfig)
  {
  }

  lemma SpecDecodes(m: map<string, Json>, s: Spec)
    requires Member(m, "catalog") == JStr(s.catalog) && Member(m, "name") == JStr(s.name)
    requires Member(m, "namespace") == JStr(s.targetNamespace) && Member(m, "version") == JStr(s.version)
    requires Member(m, "config") == ConfigJson(s.config) && Member(m, "userConfig") == ConfigJson(s.userConfig)
    requires Member(m, "extraConfigs") == ListJson(s.extraConfigs) && Member(m, "kubeConfig") == KubeConfigJson(s.kubeConfig)
    ensures SpecOf(m) == Some(s)
  {
    ConfigDecodes(s.config);
    ConfigDecodes(s.userConfig);
    ListDecodes(s.extraConfigs);
    KubeConfigDecodes(s.kubeConfig);
  }

  lemma EncodedIsShaped(app: App)
    ensures var doc := AppJson(app);
            Shaped(doc) && Meta(doc) == MetadataMembers(app.metadata) && SpecMembers(doc) == SpecJson(app.spec)
  {
  }

  /** Every field of an App is read from its own member of the document. */
  lemma EncodedAppDecodes(app: App)
    ensures Decode(AppJson(app)) == Some(app)
  {
    EncodedIsShaped(app);
    MetadataDecodes(app.metadata);
    SpecMembersRead(app.spec);
    SpecDecodes(SpecJson(app.spec), app.spec);
    DecodeParts(AppJson(app));
  }
}
