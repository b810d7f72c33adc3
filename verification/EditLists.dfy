/** Lists of edits: when a whole list applies, what it does, and when no member disturbs another. */
module EditLists {
  import opened Wrappers
  import opened Json
  import opened Apps
  import opened Edits

  /** Every edit finds its parent, given which of the three containers exist beforehand. */
  predicate Applies(labels: bool, extraConfigs: bool, kubeConfig: bool, edits: seq<Edit>)
    decreases |edits|
  {
    edits == [] ||
    (&& (edits[0].SetLabel? ==> labels)
     && (edits[0].AppendExtraConfig? ==> extraConfigs)
     && (edits[0].SetContext? || edits[0].SetKubeSecret? ==> kubeConfig)
     && Applies(labels || edits[0].InitLabels?, extraConfigs || edits[0].InitExtraConfigs?, kubeConfig, edits[1..]))
  }

  lemma {:induction false} AppliesConcat(l: bool, x: bool, k: bool, a: seq<Edit>, b: seq<Edit>)
    ensures Applies(l, x, k, a + b) ==
            (Applies(l, x, k, a) && Applies(l || InitLabels in a, x || InitExtraConfigs in a, k, b))
    decreases |a|
  {
    if a == [] {
      assert a + b == b;
    } else {
      assert (a + b)[1..] == a[1..] + b;
      assert a == [a[0]] + a[1..];
      AppliesConcat(l || a[0].InitLabels?, x || a[0].InitExtraConfigs?, k, a[1..], b);
    }
  }

  lemma ToPatchesCons(edits: seq<Edit>)
    requires edits != []
    ensures ToPatches(edits)[0] == ToPatch(edits[0]) && ToPatches(edits)[1..] == ToPatches(edits[1..])
  {
  }

  /** One patch: it applies exactly when its parent exists, and then decoding commutes with the edit. */
  lemma EditStep(doc: Json, e: Edit)
    requires Shaped(doc) && Decode(doc).Some? && WellFormed(e)
    ensures var r := Apply(doc, ToPatch(e));
            && (r.Some? <==> Ready(doc, e))
            && (r.Some? ==>
                && Shaped(r.value)
                && Decode(r.value) == Some(EditApp(Decode(doc).value, e))
                && HasLabels(r.value) == (HasLabels(doc) || e.InitLabels?)
                && HasExtraConfigs(r.value) == (HasExtraConfigs(doc) || e.InitExtraConfigs?)
                && HasKubeConfig(r.value) == HasKubeConfig(doc))
  {
    PatchIsDocEdit(doc, e);
    if Ready(doc, e) {
      DecodeEdit(doc, e);
    }
  }

  /** A list applies to a raw document exactly when every edit finds its parent, and then edits the App. */
  lemma {:induction false} ListRefines(doc: Json, edits: seq<Edit>)
    requires Shaped(doc) && Decode(doc).Some? && AllWellFormed(edits)
    ensures var r := ApplyAll(doc, ToPatches(edits));
            && (r.Some? <==> Applies(HasLabels(doc), HasExtraConfigs(doc), HasKubeConfig(doc), edits))
            && (r.Some? ==> Shaped(r.value) && Decode(r.value) == Some(EditAll(Decode(doc).value, edits)))
    decreases |edits|
  {
    if edits != [] {
      ToPatchesCons(edits);
      EditStep(doc, edits[0]);
      var next := Apply(doc, ToPatch(edits[0]));
      if next.Some? {
        ListRefines(next.value, edits[1..]);
      }
    }
  }

  // ---------------------------------------------------------------- frame

  /** The members of a contained object; one that is absent or null has none. */
  function MembersAt(m: map<string, Json>, key: string): map<string, Json> {
    if HasObj(m, key) then m[key].members else map[]
  }

  function ItemsAt(m: map<string, Json>, key: string): seq<Json> {
    if HasArr(m, key) then m[key].items else []
  }

  /** Nothing in the raw document differs outside the six members patches may write or write into. */
  predicate OutsideFramed(a: Json, b: Json)
    requires Shaped(a) && Shaped(b)
  {
    && a.members - {"metadata", "spec"} == b.members - {"metadata", "spec"}
    && Meta(a) - {"annotations", "labels"} == Meta(b) - {"annotations", "labels"}
    && SpecMembers(a) - {"extraConfigs", "kubeConfig", "version", "catalog"} ==
       SpecMembers(b) - {"extraConfigs", "kubeConfig", "version", "catalog"}
  }

  /** Inside them annotations, labels of others, list elements and the rest of the kubeconfig are kept as they were sent. */
  predicate InsideFramed(a: Json, b: Json)
    requires Shaped(a) && Shaped(b)
  {
    && MembersAt(Meta(a), "annotations") == MembersAt(Meta(b), "annotations")
    && MembersAt(Meta(a), "labels") - MANAGED_LABELS == MembersAt(Meta(b), "labels") - MANAGED_LABELS
    && ItemsAt(SpecMembers(a), "extraConfigs") <= ItemsAt(SpecMembers(b), "extraConfigs")
    && MembersAt(SpecMembers(a), "kubeConfig") - {"context", "secret"} ==
       MembersAt(SpecMembers(b), "kubeConfig") - {"context", "secret"}
  }

  /** An edit that throws nothing away: containers are initialised only when empty, labels of others are not set. */
  predicate Harmless(app: App, e: Edit) {
    match e
    case InitAnnotations => app.metadata.annotations == map[]
    case InitLabels => app.metadata.labels == map[]
    case InitExtraConfigs => app.spec.extraConfigs == []
    case SetLabel(k, _) => k in MANAGED_LABELS
    case _ => true
  }

  /** Each edit is harmless to the App as the edits before it left it. */
  predicate AllHarmless(app: App, edits: seq<Edit>)
    decreases |edits|
  {
    edits == [] || (Harmless(app, edits[0]) && AllHarmless(EditApp(app, edits[0]), edits[1..]))
  }

  lemma {:induction false} AllHarmlessConcat(app: App, x: seq<Edit>, y: seq<Edit>)
    ensures AllHarmless(app, x + y) <==> AllHarmless(app, x) && AllHarmless(EditAll(app, x), y)
    decreases |x|
  {
    if x == [] {
      assert x + y == y;
    } else {
      assert (x + y)[1..] == x[1..] + y;
      AllHarmlessConcat(EditApp(app, x[0]), x[1..], y);
    }
  }

  lemma EditFramesOutside(doc: Json, e: Edit)
    requires Shaped(doc) && Ready(doc, e)
    ensures OutsideFramed(doc, DocEdit(doc, e))
  {
  }

  /** What decodes to nothing holds nothing. */
  lemma EmptyContainers(doc: Json)
    requires Shaped(doc) && Decode(doc).Some?
    ensures var app := Decode(doc).value;
            && (app.metadata.annotations == map[] ==> MembersAt(Meta(doc), "annotations") == map[])
            && (app.metadata.labels == map[] ==> MembersAt(Meta(doc), "labels") == map[])
            && (app.spec.extraConfigs == [] ==> ItemsAt(SpecMembers(doc), "extraConfigs") == [])
  {
    DecodeParts(doc);
    SameKeys(Member(Meta(doc), "annotations"));
    SameKeys(Member(Meta(doc), "labels"));
  }

  lemma SameKeys(j: Json)
    ensures j.JObj? && StrMapOf(j).Some? ==> StrMapOf(j).value.Keys == j.members.Keys
    ensures j.JObj? && StrMapOf(j) == Some(map[]) ==> j.members == map[]
  {
  }

  lemma EditFramesInside(doc: Json, e: Edit)
    requires Shaped(doc) && Decode(doc).Some? && Ready(doc, e) && Harmless(Decode(doc).value, e)
    ensures InsideFramed(doc, DocEdit(doc, e))
  {
    EmptyContainers(doc);
    if TouchesMetadata(e) {
      MetaEditFrames(Meta(doc), e);
    } else {
      SpecEditFrames(SpecMembers(doc), e);
    }
  }

  lemma MetaEditFrames(meta: map<string, Json>, e: Edit)
    requires TouchesMetadata(e) && (e.SetLabel? ==> HasObj(meta, "labels") && e.key in MANAGED_LABELS)
    requires e.InitAnnotations? ==> MembersAt(meta, "annotations") == map[]
    requires e.InitLabels? ==> MembersAt(meta, "labels") == map[]
    ensures var next := MetaEdit(meta, e);
            && MembersAt(meta, "annotations") == MembersAt(next, "annotations")
            && MembersAt(meta, "labels") - MANAGED_LABELS == MembersAt(next, "labels") - MANAGED_LABELS
  {
  }

  lemma SpecEditFrames(spec: map<string, Json>, e: Edit)
    requires !TouchesMetadata(e)
    requires e.InitExtraConfigs? ==> ItemsAt(spec, "extraConfigs") == []
    requires e.AppendExtraConfig? ==> HasArr(spec, "extraConfigs")
    requires e.SetContext? || e.SetKubeSecret? ==> HasObj(spec, "kubeConfig")
    ensures var next := SpecEdit(spec, e);
            && ItemsAt(spec, "extraConfigs") <= ItemsAt(next, "extraConfigs")
            && MembersAt(spec, "kubeConfig") - {"context", "secret"} == MembersAt(next, "kubeConfig") - {"context", "secret"}
  {
  }

  /** A list that applies and harms nothing leaves the rest of the raw document as it was. */
  lemma {:induction false} ListFrames(doc: Json, edits: seq<Edit>)
    requires Shaped(doc) && Decode(doc).Some? && AllWellFormed(edits) && AllHarmless(Decode(doc).value, edits)
    requires ApplyAll(doc, ToPatches(edits)).Some?
    ensures var r := ApplyAll(doc, ToPatches(edits)).value;
            Shaped(r) && OutsideFramed(doc, r) && InsideFramed(doc, r)
    decreases |edits|
  {
    if edits != [] {
      ToPatchesCons(edits);
      EditStep(doc, edits[0]);
      PatchFrames(doc, edits[0]);
      ListFrames(Apply(doc, ToPatch(edits[0])).value, edits[1..]);
    }
  }

  lemma PatchFrames(doc: Json, e: Edit)
    requires Shaped(doc) && Decode(doc).Some? && WellFormed(e) && Harmless(Decode(doc).value, e)
    ensures var next := Apply(doc, ToPatch(e));
            next.Some? ==> Shaped(next.value) && OutsideFramed(doc, next.value) && InsideFramed(doc, next.value)
  {
    PatchIsDocEdit(doc, e);
    if Ready(doc, e) {
      EditFramesOutside(doc, e);
      EditFramesInside(doc, e);
    }
  }

  // ---------------------------------------------------------------- non-interference

  /** A later edit `f` neither overwrites what `e` wrote nor a container it wrote into. */
  predicate Undisturbed(e: Edit, f: Edit) {
    (e.AppendExtraConfig? && f.AppendExtraConfig?) || !(Tokens(f) <= Tokens(e))
  }

  predicate NoneDisturbed(edits: seq<Edit>) {
    forall i, j :: 0 <= i < j < |edits| ==> Undisturbed(edits[i], edits[j])
  }

  lemma NoneDisturbedConcat(a: seq<Edit>, b: seq<Edit>)
    requires NoneDisturbed(a) && NoneDisturbed(b)
    requires forall e, f :: e in a && f in b ==> Undisturbed(e, f)
    ensures NoneDisturbed(a + b)
  {
  }

  /** The document already holds what the edit would write. */
  predicate Settled(doc: Json, e: Edit)
    requires Shaped(doc)
  {
    match e
    case InitAnnotations => "annotations" in Meta(doc) && Meta(doc)["annotations"] == Value(e)
    case SetLabel(k, v) =>
      HasLabels(doc) && k in Meta(doc)["labels"].members && Meta(doc)["labels"].members[k] == Value(e)
    case _ => false
  }

  lemma SettledIsNoOp(doc: Json, e: Edit)
    requires Shaped(doc) && Settled(doc, e)
    ensures Ready(doc, e) && DocEdit(doc, e) == doc
  {
    var meta := Meta(doc);
    if e.InitAnnotations? {
      assert meta["annotations" := Value(e)] == meta;
    } else {
      var labels := meta["labels"].members;
      assert labels[e.key := Value(e)] == labels;
      assert meta["labels" := JObj(labels)] == meta;
    }
    assert doc.members["metadata" := JObj(meta)] == doc.members;
  }

  lemma EditSettles(doc: Json, e: Edit)
    requires Shaped(doc) && Ready(doc, e) && (e.InitAnnotations? || e.SetLabel?)
    ensures Settled(DocEdit(doc, e), e)
  {
  }

  lemma SettledPersists(doc: Json, e: Edit, f: Edit)
    requires Shaped(doc) && Ready(doc, f) && Settled(doc, e) && Undisturbed(e, f)
    ensures Settled(DocEdit(doc, f), e)
  {
  }

  /** One patch settles its own edit and unsettles no edit it leaves undisturbed. */
  lemma SettleStep(doc: Json, e: Edit, f: Edit)
    requires Shaped(doc) && Decode(doc).Some? && WellFormed(f)
    requires Apply(doc, ToPatch(f)).Some?
    requires e.InitAnnotations? || e.SetLabel?
    requires e == f || (Settled(doc, e) && Undisturbed(e, f))
    ensures var next := Apply(doc, ToPatch(f)).value;
            Shaped(next) && Settled(next, e)
  {
    PatchIsDocEdit(doc, f);
    if e == f {
      EditSettles(doc, e);
    } else {
      SettledPersists(doc, e, f);
    }
  }

  /** The first patch of a list that applies, and the list left to apply. */
  lemma FirstStep(doc: Json, edits: seq<Edit>)
    requires Shaped(doc) && Decode(doc).Some? && AllWellFormed(edits) && edits != []
    ensures ApplyAll(doc, ToPatches(edits)).Some? ==>
              var step := Apply(doc, ToPatch(edits[0]));
              && step.Some? && Shaped(step.value) && Decode(step.value).Some? && AllWellFormed(edits[1..])
              && ApplyAll(doc, ToPatches(edits)) == ApplyAll(step.value, ToPatches(edits[1..]))
  {
    ToPatchesCons(edits);
    EditStep(doc, edits[0]);
  }

  /** What a list wrote into annotations and labels is still there at its end. */
  lemma {:induction false} WrittenStays(doc: Json, edits: seq<Edit>, e: Edit)
    requires Shaped(doc) && Decode(doc).Some? && AllWellFormed(edits) && NoneDisturbed(edits)
    requires e in edits && (e.InitAnnotations? || e.SetLabel?)
    ensures var r := ApplyAll(doc, ToPatches(edits));
            r.Some? ==> Shaped(r.value) && Settled(r.value, e)
    decreases |edits|
  {
    FirstStep(doc, edits);
    if ApplyAll(doc, ToPatches(edits)).Some? {
      var step := Apply(doc, ToPatch(edits[0])).value;
      TailUndisturbed(edits);
      if e == edits[0] {
        SettleStep(doc, e, e);
        SettledThroughout(step, edits[1..], e);
      } else {
        assert e in edits[1..];
        WrittenStays(step, edits[1..], e);
      }
    }
  }

  lemma TailUndisturbed(edits: seq<Edit>)
    requires NoneDisturbed(edits) && edits != []
    ensures NoneDisturbed(edits[1..])
    ensures forall f :: f in edits[1..] ==> Undisturbed(edits[0], f)
  {
  }

  lemma {:induction false} SettledThroughout(doc: Json, edits: seq<Edit>, e: Edit)
    requires Shaped(doc) && Decode(doc).Some? && AllWellFormed(edits)
    requires Settled(doc, e) && forall f :: f in edits ==> Undisturbed(e, f)
    ensures var r := ApplyAll(doc, ToPatches(edits));
            r.Some? ==> Shaped(r.value) && Settled(r.value, e)
    decreases |edits|
  {
    if edits != [] {
      FirstStep(doc, edits);
      if ApplyAll(doc, ToPatches(edits)).Some? {
        SettleStep(doc, e, edits[0]);
        SettledThroughout(Apply(doc, ToPatch(edits[0])).value, edits[1..], e);
      }
    }
  }

  /** A list of settled edits leaves the document as it is. */
  lemma {:induction false} SettledListIsNoOp(doc: Json, edits: seq<Edit>)
    requires Shaped(doc) && Decode(doc).Some? && AllWellFormed(edits)
    requires forall e :: e in edits ==> Settled(doc, e)
    ensures ApplyAll(doc, ToPatches(edits)) == Some(doc)
    decreases |edits|
  {
    if edits != [] {
      ToPatchesCons(edits);
      PatchIsDocEdit(doc, edits[0]);
      SettledIsNoOp(doc, edits[0]);
      SettledListIsNoOp(doc, edits[1..]);
    }
  }
}
