/** Small documents with a few members filled, and the Apps they decode to. */
module Samples {
  import opened Wrappers
  import opened Json
  import opened Apps
  import opened Edits

  const NO_REFS := ConfigRefs(NO_REF, NO_REF)
  const BARE_SPEC := Spec("", "", "", "", NO_REFS, NO_REFS, [], KubeConfig(false, "", NO_REF))

  function RawLabels(labels: map<string, string>): map<string, Json> {
    map k | k in labels :: JStr(labels[k])
  }

  function RawMeta(name: string, namespace: string, labels: map<string, string>): map<string, Json> {
    map["name" := JStr(name), "namespace" := JStr(namespace), "labels" := JObj(RawLabels(labels))]
  }

  function Sample(name: string, namespace: string, labels: map<string, string>, spec: map<string, Json>): Json {
    JObj(map["metadata" := JObj(RawMeta(name, namespace, labels)), "spec" := JObj(spec)])
  }

  function SampleMeta(name: string, namespace: string, labels: map<string, string>): Metadata {
    Metadata(name, namespace, false, map[], labels)
  }

  lemma LabelsDecode(labels: map<string, string>)
    ensures StrMapOf(JObj(RawLabels(labels))) == Some(labels)
  {
    assert StrMapOf(JObj(RawLabels(labels))).value == labels;
  }

  lemma MetaDecodes(name: string, namespace: string, labels: map<string, string>)
    ensures MetadataOf(RawMeta(name, namespace, labels)) == Some(SampleMeta(name, namespace, labels))
  {
    LabelsDecode(labels);
    assert StrMapOf(JNull) == Some(map[]);
    var m := RawMeta(name, namespace, labels);
    assert "name" != "namespace" && "name" != "labels" && "namespace" != "labels";
    assert "annotations" !in m && "deletionTimestamp" !in m;
  }

  lemma SampleDecodes(name: string, namespace: string, labels: map<string, string>, spec: map<string, Json>)
    requires SpecOf(spec).Some?
    ensures var doc := Sample(name, namespace, labels, spec);
            && Shaped(doc) && SpecMembers(doc) == spec
            && Decode(doc) == Some(App(SampleMeta(name, namespace, labels), SpecOf(spec).value))
  {
    MetaDecodes(name, namespace, labels);
    DecodeParts(Sample(name, namespace, labels, spec));
  }

  lemma BareSpecDecodes()
    ensures SpecOf(map[]) == Some(BARE_SPEC)
  {
  }

  const IN_CLUSTER := KubeConfig(true, "", NO_REF)
  const RAW_IN_CLUSTER: map<string, Json> := map["kubeConfig" := JObj(map["inCluster" := JBool(true)])]

  lemma InClusterDecodes()
    ensures SpecOf(RAW_IN_CLUSTER) == Some(BARE_SPEC.(kubeConfig := IN_CLUSTER))
  {
  }

  lemma SpecName(m: map<string, Json>, name: string)
    requires SpecOf(m).Some?
    ensures SpecOf(m["name" := JStr(name)]) == Some(SpecOf(m).value.(name := name))
  {
  }
}
