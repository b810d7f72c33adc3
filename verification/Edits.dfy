/**
 The nine kinds of change the mutator makes. Each one has a patch (a JSON Pointer and a value, as sent
 to the API server) and a meaning on the decoded App; this module proves that the patch, applied to any
 raw document, has that meaning.
 */
module Edits {
  import opened Wrappers
  import opened Json
  import opened Apps

  datatype Edit =
    | InitAnnotations
    | InitLabels
    | SetLabel(key: string, value: string)
    | InitExtraConfigs
    | AppendExtraConfig(entry: ExtraConfig)
    | SetContext(name: string)
    | SetKubeSecret(ref: ObjRef)
    | SetVersion(version: string)
    | SetCatalog(catalog: string)

  function ExtraConfigJson(e: ExtraConfig): Json {
    JObj(map["kind" := JStr(e.kind), "name" := JStr(e.name), "namespace" := JStr(e.namespace), "priority" := JNum(e.priority)])
  }

  /** The location an edit writes. */
  function Tokens(e: Edit): seq<string> {
    match e
    case InitAnnotations => ["metadata", "annotations"]
    case InitLabels => ["metadata", "labels"]
    case SetLabel(k, _) => ["metadata", "labels", k]
    case InitExtraConfigs => ["spec", "extraConfigs"]
    case AppendExtraConfig(_) => ["spec", "extraConfigs", "-"]
    case SetContext(_) => ["spec", "kubeConfig", "context"]
    case SetKubeSecret(_) => ["spec", "kubeConfig", "secret"]
    case SetVersion(_) => ["spec", "version"]
    case SetCatalog(_) => ["spec", "catalog"]
  }

  function ToPatch(e: Edit): PatchOperation {
    PatchAdd(Render(Tokens(e)), Value(e))
  }

  function Value(e: Edit): Json {
    match e
    case InitAnnotations => JObj(map[])
    case InitLabels => JObj(map[])
    case SetLabel(_, v) => JStr(v)
    case InitExtraConfigs => JArr([])
    case AppendExtraConfig(entry) => ExtraConfigJson(entry)
    case SetContext(n) => JObj(map["name" := JStr(n)])
    case SetKubeSecret(r) => JObj(map["namespace" := JStr(r.namespace), "name" := JStr(r.name)])
    case SetVersion(v) => JStr(v)
    case SetCatalog(c) => JStr(c)
  }

  function ToPatches(edits: seq<Edit>): seq<PatchOperation> {
    seq(|edits|, i requires 0 <= i < |edits| => ToPatch(edits[i]))
  }

  predicate TouchesMetadata(e: Edit) {
    e.InitAnnotations? || e.InitLabels? || e.SetLabel?
  }

  function EditMetadata(m: Metadata, e: Edit): Metadata
    requires TouchesMetadata(e)
  {
    match e
    case InitAnnotations => m.(annotations := map[])
    case InitLabels => m.(labels := map[])
    case SetLabel(k, v) => m.(labels := m.labels[k := v])
  }

  function EditSpec(s: Spec, e: Edit): Spec
    requires !TouchesMetadata(e)
  {
    match e
    case InitExtraConfigs => s.(extraConfigs := [])
    case AppendExtraConfig(entry) => s.(extraConfigs := s.extraConfigs + [entry])
    case SetContext(n) => s.(kubeConfig := s.kubeConfig.(contextName := n))
    case SetKubeSecret(r) => s.(kubeConfig := s.kubeConfig.(secret := r))
    case SetVersion(v) => s.(version := v)
    case SetCatalog(c) => s.(catalog := c)
  }

  /** What an edit means for the App a document decodes to. */
  function EditApp(a: App, e: Edit): App {
    if TouchesMetadata(e) then a.(metadata := EditMetadata(a.metadata, e)) else a.(spec := EditSpec(a.spec, e))
  }

  function EditAll(a: App, edits: seq<Edit>): App
    decreases |edits|
  {
    if edits == [] then a else EditAll(EditApp(a, edits[0]), edits[1..])
  }

  lemma ToPatchesConcat(a: seq<Edit>, b: seq<Edit>)
    ensures ToPatches(a + b) == ToPatches(a) + ToPatches(b)
  {
  }

  lemma {:induction false} EditAllConcat(a: App, x: seq<Edit>, y: seq<Edit>)
    ensures EditAll(a, x + y) == EditAll(EditAll(a, x), y)
    decreases |x|
  {
    if x == [] {
      assert x + y == y;
    } else {
      assert (x + y)[1..] == x[1..] + y;
      EditAllConcat(EditApp(a, x[0]), x[1..], y);
    }
  }

  // ---------------------------------------------------------------- pointers

  predicate WellFormed(e: Edit) {
    e.SetLabel? ==> '~' !in e.key
  }

  predicate AllWellFormed(edits: seq<Edit>) {
    forall e :: e in edits ==> WellFormed(e)
  }

  /** The pointer of every patch parses to the location it is meant for. */
  lemma PointerReachesTokens(e: Edit)
    requires WellFormed(e)
    ensures ParsePointer(ToPatch(e).path) == Some(Tokens(e))
  {
    forall t | t in Tokens(e)
      ensures '~' !in t
    {
    }
    PointerRoundTrip(Tokens(e));
  }

  // ---------------------------------------------------------------- documents

  predicate HasObj(m: map<string, Json>, key: string) {
    key in m && m[key].JObj?
  }

  predicate HasArr(m: map<string, Json>, key: string) {
    key in m && m[key].JArr?
  }

  /** `metadata` and `spec` are objects, which the API server guarantees before it calls a webhook. */
  predicate Shaped(doc: Json) {
    doc.JObj? && HasObj(doc.members, "metadata") && HasObj(doc.members, "spec")
  }

  function Meta(doc: Json): map<string, Json>
    requires Shaped(doc)
  {
    doc.members["metadata"].members
  }

  function SpecMembers(doc: Json): map<string, Json>
    requires Shaped(doc)
  {
    doc.members["spec"].members
  }

  function WithMeta(doc: Json, meta: map<string, Json>): (r: Json)
    requires Shaped(doc)
    ensures Shaped(r) && Meta(r) == meta && SpecMembers(r) == SpecMembers(doc)
  {
    assert "metadata" != "spec";
    JObj(doc.members["metadata" := JObj(meta)])
  }

  function WithSpec(doc: Json, spec: map<string, Json>): (r: Json)
    requires Shaped(doc)
    ensures Shaped(r) && SpecMembers(r) == spec && Meta(r) == Meta(doc)
  {
    assert "metadata" != "spec";
    JObj(doc.members["spec" := JObj(spec)])
  }

  predicate HasLabels(doc: Json) requires Shaped(doc) {
    HasObj(Meta(doc), "labels")
  }

  predicate HasExtraConfigs(doc: Json) requires Shaped(doc) {
    HasArr(SpecMembers(doc), "extraConfigs")
  }

  predicate HasKubeConfig(doc: Json) requires Shaped(doc) {
    HasObj(SpecMembers(doc), "kubeConfig")
  }

  /** The parent of the edited location exists. */
  predicate Ready(doc: Json, e: Edit)
    requires Shaped(doc)
  {
    match e
    case SetLabel(_, _) => HasLabels(doc)
    case AppendExtraConfig(_) => HasExtraConfigs(doc)
    case SetContext(_) => HasKubeConfig(doc)
    case SetKubeSecret(_) => HasKubeConfig(doc)
    case _ => true
  }

  function MetaEdit(meta: map<string, Json>, e: Edit): map<string, Json>
    requires TouchesMetadata(e) && (e.SetLabel? ==> HasObj(meta, "labels"))
  {
    match e
    case InitAnnotations => meta["annotations" := Value(e)]
    case InitLabels => meta["labels" := Value(e)]
    case SetLabel(k, _) => meta["labels" := JObj(meta["labels"].members[k := Value(e)])]
  }

  function SpecEdit(spec: map<string, Json>, e: Edit): map<string, Json>
    requires !TouchesMetadata(e)
    requires e.AppendExtraConfig? ==> HasArr(spec, "extraConfigs")
    requires e.SetContext? || e.SetKubeSecret? ==> HasObj(spec, "kubeConfig")
  {
    match e
    case InitExtraConfigs => spec["extraConfigs" := Value(e)]
    case AppendExtraConfig(_) => spec["extraConfigs" := JArr(spec["extraConfigs"].items + [Value(e)])]
    case SetContext(_) => spec["kubeConfig" := JObj(spec["kubeConfig"].members["context" := Value(e)])]
    case SetKubeSecret(_) => spec["kubeConfig" := JObj(spec["kubeConfig"].members["secret" := Value(e)])]
    case SetVersion(_) => spec["version" := Value(e)]
    case SetCatalog(_) => spec["catalog" := Value(e)]
  }

  /** The document after the edit: exactly one location differs. */
  function DocEdit(doc: Json, e: Edit): Json
    requires Shaped(doc) && Ready(doc, e)
  {
    if TouchesMetadata(e) then WithMeta(doc, MetaEdit(Meta(doc), e)) else WithSpec(doc, SpecEdit(SpecMembers(doc), e))
  }

  lemma AddTwo(doc: Json, a: string, b: string, value: Json)
    requires doc.JObj? && HasObj(doc.members, a)
    ensures AddAt(doc, [a, b], value) == Some(JObj(doc.members[a := JObj(doc.members[a].members[b := value])]))
  {
  }

  lemma AddThree(doc: Json, a: string, b: string, c: string, value: Json)
    requires doc.JObj? && HasObj(doc.members, a)
    ensures var m := doc.members[a].members;
            AddAt(doc, [a, b, c], value) ==
            if b !in m || AddAt(m[b], [c], value).None? then None
            else Some(JObj(doc.members[a := JObj(m[b := AddAt(m[b], [c], value).value])]))
  {
  }

  lemma AddIsDocEdit(doc: Json, e: Edit)
    requires Shaped(doc) && Decode(doc).Some?
    ensures AddAt(doc, Tokens(e), Value(e)) == if Ready(doc, e) then Some(DocEdit(doc, e)) else None
  {
    var t := Tokens(e);
    if |t| == 2 {
      AddTwo(doc, t[0], t[1], Value(e));
    } else {
      AddThree(doc, t[0], t[1], t[2], Value(e));
    }
  }

  /** The patch of an edit changes a decodable document at its location, or fails for want of a parent. */
  lemma PatchIsDocEdit(doc: Json, e: Edit)
    requires Shaped(doc) && Decode(doc).Some? && WellFormed(e)
    ensures Apply(doc, ToPatch(e)) == if Ready(doc, e) then Some(DocEdit(doc, e)) else None
  {
    PointerReachesTokens(e);
    AddIsDocEdit(doc, e);
  }

  lemma DecodeParts(doc: Json)
    requires Shaped(doc)
    ensures Decode(doc) ==
            if MetadataOf(Meta(doc)).Some? && SpecOf(SpecMembers(doc)).Some?
            then Some(App(MetadataOf(Meta(doc)).value, SpecOf(SpecMembers(doc)).value)) else None
  {
  }

  lemma StrMapUpdate(m: map<string, Json>, k: string, v: string)
    requires StrMapOf(JObj(m)).Some?
    ensures StrMapOf(JObj(m[k := JStr(v)])) == Some(StrMapOf(JObj(m)).value[k := v])
  {
    var n := m[k := JStr(v)];
    assert forall x :: x in n ==> StrOf(n[x]).Some?;
    assert StrMapOf(JObj(n)).value == StrMapOf(JObj(m)).value[k := v];
  }

  lemma ExtraConfigRoundTrip(e: ExtraConfig)
    ensures ExtraConfigOf(ExtraConfigJson(e)) == Some(e)
  {
  }

  lemma ExtraConfigsAppend(s: seq<Json>, e: ExtraConfig)
    requires ExtraConfigsOf(JArr(s)).Some?
    ensures ExtraConfigsOf(JArr(s + [ExtraConfigJson(e)])) == Some(ExtraConfigsOf(JArr(s)).value + [e])
  {
    ExtraConfigRoundTrip(e);
    var t := s + [ExtraConfigJson(e)];
    assert forall i :: 0 <= i < |t| ==> ExtraConfigOf(t[i]).Some?;
    assert ExtraConfigsOf(JArr(t)).value == ExtraConfigsOf(JArr(s)).value + [e];
  }

  lemma KubeConfigUpdate(m: map<string, Json>, e: Edit)
    requires e.SetContext? || e.SetKubeSecret?
    requires KubeConfigOf(JObj(m)).Some?
    ensures var k := KubeConfigOf(JObj(m)).value;
            var value := Value(e);
            if e.SetContext? then KubeConfigOf(JObj(m["context" := value])) == Some(k.(contextName := e.name))
            else KubeConfigOf(JObj(m["secret" := value])) == Some(k.(secret := e.ref))
  {
  }

  lemma MetadataUpdate(m: map<string, Json>, key: string, value: Json)
    requires MetadataOf(m).Some?
    requires key == "annotations" || key == "labels"
    requires StrMapOf(value).Some?
    ensures MetadataOf(m[key := value]) ==
            Some(if key == "labels" then MetadataOf(m).value.(labels := StrMapOf(value).value)
                 else MetadataOf(m).value.(annotations := StrMapOf(value).value))
  {
    assert "annotations" != "labels" && "name" != "labels" && "namespace" != "labels" && "deletionTimestamp" != "labels";
    assert "name" != "annotations" && "namespace" != "annotations" && "deletionTimestamp" != "annotations";
  }

  lemma SpecKeysDistinct()
    ensures "catalog" != "version" && "userConfig" != "kubeConfig" && "extraConfigs" != "kubeConfig"
    ensures forall k :: k in ["name", "namespace", "config", "userConfig"] ==>
              k != "extraConfigs" && k != "kubeConfig" && k != "version" && k != "catalog"
    ensures "extraConfigs" != "version" && "extraConfigs" != "catalog" && "kubeConfig" != "version" && "kubeConfig" != "catalog"
  {
  }

  lemma OtherMembers(m: map<string, Json>, key: string, value: Json)
    ensures Member(m[key := value], key) == value
    ensures forall k :: k != key ==> Member(m[key := value], k) == Member(m, k)
  {
  }

  lemma SpecExtraConfigs(m: map<string, Json>, value: Json)
    requires SpecOf(m).Some? && ExtraConfigsOf(value).Some?
    ensures SpecOf(m["extraConfigs" := value]) == Some(SpecOf(m).value.(extraConfigs := ExtraConfigsOf(value).value))
  {
    SpecKeysDistinct();
    OtherMembers(m, "extraConfigs", value);
  }

  lemma SpecKubeConfig(m: map<string, Json>, value: Json)
    requires SpecOf(m).Some? && KubeConfigOf(value).Some?
    ensures SpecOf(m["kubeConfig" := value]) == Some(SpecOf(m).value.(kubeConfig := KubeConfigOf(value).value))
  {
  }

  lemma SpecVersion(m: map<string, Json>, value: Json)
    requires SpecOf(m).Some? && StrOf(value).Some?
    ensures SpecOf(m["version" := value]) == Some(SpecOf(m).value.(version := StrOf(value).value))
  {
    SpecKeysDistinct();
    OtherMembers(m, "version", value);
  }

  lemma SpecCatalog(m: map<string, Json>, value: Json)
    requires SpecOf(m).Some? && StrOf(value).Some?
    ensures SpecOf(m["catalog" := value]) == Some(SpecOf(m).value.(catalog := StrOf(value).value))
  {
  }

  lemma MetaEditDecodes(meta: map<string, Json>, e: Edit)
    requires TouchesMetadata(e) && (e.SetLabel? ==> HasObj(meta, "labels"))
    requires MetadataOf(meta).Some?
    ensures MetadataOf(MetaEdit(meta, e)) == Some(EditMetadata(MetadataOf(meta).value, e))
    ensures HasObj(MetaEdit(meta, e), "labels") == (HasObj(meta, "labels") || e.InitLabels?)
  {
    assert "annotations" != "labels";
    match e {
      case InitAnnotations =>
        MetadataUpdate(meta, "annotations", Value(e));
      case InitLabels =>
        MetadataUpdate(meta, "labels", Value(e));
      case SetLabel(k, v) =>
        StrMapUpdate(meta["labels"].members, k, v);
        MetadataUpdate(meta, "labels", JObj(meta["labels"].members[k := JStr(v)]));
    }
  }

  lemma SpecEditDecodes(spec: map<string, Json>, e: Edit)
    requires !TouchesMetadata(e)
    requires e.AppendExtraConfig? ==> HasArr(spec, "extraConfigs")
    requires e.SetContext? || e.SetKubeSecret? ==> HasObj(spec, "kubeConfig")
    requires SpecOf(spec).Some?
    ensures SpecOf(SpecEdit(spec, e)) == Some(EditSpec(SpecOf(spec).value, e))
  {
    match e {
      case InitExtraConfigs =>
        assert ExtraConfigsOf(JArr([])).value == [];
        SpecExtraConfigs(spec, Value(e));
      case AppendExtraConfig(entry) =>
        ExtraConfigsAppend(spec["extraConfigs"].items, entry);
        SpecExtraConfigs(spec, JArr(spec["extraConfigs"].items + [Value(e)]));
      case SetContext(_) =>
        KubeConfigUpdate(spec["kubeConfig"].members, e);
        SpecKubeConfig(spec, JObj(spec["kubeConfig"].members["context" := Value(e)]));
      case SetKubeSecret(_) =>
        KubeConfigUpdate(spec["kubeConfig"].members, e);
        SpecKubeConfig(spec, JObj(spec["kubeConfig"].members["secret" := Value(e)]));
      case SetVersion(_) =>
        SpecVersion(spec, Value(e));
      case SetCatalog(_) =>
        SpecCatalog(spec, Value(e));
    }
  }

  lemma SpecEditParents(spec: map<string, Json>, e: Edit)
    requires !TouchesMetadata(e)
    requires e.AppendExtraConfig? ==> HasArr(spec, "extraConfigs")
    requires e.SetContext? || e.SetKubeSecret? ==> HasObj(spec, "kubeConfig")
    ensures HasObj(SpecEdit(spec, e), "kubeConfig") == HasObj(spec, "kubeConfig")
    ensures HasArr(SpecEdit(spec, e), "extraConfigs") == (HasArr(spec, "extraConfigs") || e.InitExtraConfigs?)
  {
  }

  /** Decoding commutes with editing. */
  lemma DecodeEdit(doc: Json, e: Edit)
    requires Shaped(doc) && Decode(doc).Some? && Ready(doc, e)
    ensures Shaped(DocEdit(doc, e))
    ensures Decode(DocEdit(doc, e)) == Some(EditApp(Decode(doc).value, e))
    ensures HasLabels(DocEdit(doc, e)) == (HasLabels(doc) || e.InitLabels?)
    ensures HasExtraConfigs(DocEdit(doc, e)) == (HasExtraConfigs(doc) || e.InitExtraConfigs?)
    ensures HasKubeConfig(DocEdit(doc, e)) == HasKubeConfig(doc)
  {
    DecodeParts(doc);
    DecodeParts(DocEdit(doc, e));
    if TouchesMetadata(e) {
      MetaEditDecodes(Meta(doc), e);
    } else {
      SpecEditDecodes(SpecMembers(doc), e);
      SpecEditParents(SpecMembers(doc), e);
    }
  }
}
