/** The main results about the list one successful `MutateApp` call returns. */
module PatchList {
  import opened Wrappers
  import opened Json
  import opened Apps
  import opened Clusters
  import opened Edits
  import opened EditLists
  import opened Defaulting
  import opened Refinement

  /** The call reaches the branch that writes below `/spec/kubeConfig`. */
  predicate WritesKubeConfig(cfg: Config, snap: Snapshot, app: App) {
    var gate := GateOf(cfg, snap, app);
    gate.Ok? && gate.value.Full? && FindsKubeConfig(snap, app)
  }

  lemma HeaderApplies(l: bool, x: bool, k: bool, app: App, version: string)
    requires app.metadata.labels != map[] ==> l
    ensures Applies(l, x, k, Header(app) + LabelEdits(app, version))
    ensures var edits := Header(app) + LabelEdits(app, version);
            InitExtraConfigs !in edits && (l || InitLabels in edits)
  {
    AppliesConcat(l, x, k, Header(app), LabelEdits(app, version));
    ShortApplies(l, x, k, app.metadata.annotations == map[], InitAnnotations, app.metadata.labels == map[], InitLabels);
    ShortApplies(true, x, k, WantsNameLabel(app), SetLabel(NAME_LABEL, app.spec.name),
                 WantsVersionLabel(app, version), SetLabel(VERSION_LABEL, version));
    if app.metadata.labels == map[] {
      assert Header(app)[|Header(app)| - 1] == InitLabels;
    }
  }

  predicate ParentExists(l: bool, x: bool, k: bool, e: Edit) {
    && (e.SetLabel? ==> l)
    && (e.AppendExtraConfig? ==> x)
    && (e.SetContext? || e.SetKubeSecret? ==> k)
  }

  lemma ShortApplies(l: bool, x: bool, k: bool, p: bool, e: Edit, q: bool, f: Edit)
    requires !e.InitLabels? && !e.InitExtraConfigs?
    ensures Applies(l, x, k, (if p then [e] else []) + (if q then [f] else [])) ==
            ((p ==> ParentExists(l, x, k, e)) && (q ==> ParentExists(l, x, k, f)))
  {
    var a, b := if p then [e] else [], if q then [f] else [];
    AppliesConcat(l, x, k, a, b);
    assert [f][1..] == [] && [e][1..] == [];
  }

  lemma FullApplies(cfg: Config, snap: Snapshot, app: App, version: string, c: PspCase, pin: Option<Component>,
                    l: bool, x: bool, k: bool)
    requires KubeConfigEdits(snap, app).Ok?
    requires app.metadata.labels != map[] ==> l
    requires app.spec.extraConfigs != [] ==> x
    ensures var kube := KubeConfigEdits(snap, app).value;
            Applies(l, x, k, FullEdits(app, version, PspEdits(cfg, app, c), kube, PinEdits(app, pin))) ==
            (k || !FindsKubeConfig(snap, app))
  {
    var psp, kube, pins := PspEdits(cfg, app, c), KubeConfigEdits(snap, app).value, PinEdits(app, pin);
    var x' := x || InitExtraConfigs in InitEdits(app, psp);
    HeaderApplies(l, x, k, app, version);
    InitApplies(app, psp, x, k);
    PartsApply(cfg, snap, app, c, pin, x', k);
    SixApply(l, x, k, Header(app) + LabelEdits(app, version), InitEdits(app, psp), ClusterValuesEdits(app), psp, kube, pins);
  }

  lemma SixApply(l: bool, x: bool, k: bool, a: seq<Edit>, b: seq<Edit>, c: seq<Edit>, d: seq<Edit>, e: seq<Edit>, f: seq<Edit>)
    requires Applies(l, x, k, a) && InitExtraConfigs !in a && (l || InitLabels in a)
    requires Applies(true, x, k, b)
    requires var x' := x || InitExtraConfigs in b;
             Applies(true, x', k, c) && Applies(true, x', k, d) && Applies(true, x', k, f)
    requires InitExtraConfigs !in c && InitExtraConfigs !in d && InitExtraConfigs !in e
    ensures Applies(l, x, k, a + b + c + d + e + f) == Applies(true, x || InitExtraConfigs in b, k, e)
  {
    var x' := x || InitExtraConfigs in b;
    AppliesConcat(l, x, k, a + b + c + d + e, f);
    AppliesConcat(l, x, k, a + b + c + d, e);
    AppliesConcat(l, x, k, a + b + c, d);
    AppliesConcat(l, x, k, a + b, c);
    AppliesConcat(l, x, k, a, b);
  }

  lemma InitApplies(app: App, psp: seq<Edit>, x: bool, k: bool)
    requires app.spec.extraConfigs != [] ==> x
    ensures Applies(true, x, k, InitEdits(app, psp))
    ensures InitLabels !in InitEdits(app, psp)
    ensures HasAppend(ClusterValuesEdits(app)) || HasAppend(psp) ==> x || InitExtraConfigs in InitEdits(app, psp)
  {
  }

  lemma PartsApply(cfg: Config, snap: Snapshot, app: App, c: PspCase, pin: Option<Component>, x: bool, k: bool)
    requires KubeConfigEdits(snap, app).Ok?
    requires HasAppend(ClusterValuesEdits(app)) || HasAppend(PspEdits(cfg, app, c)) ==> x
    ensures Applies(true, x, k, ClusterValuesEdits(app))
    ensures Applies(true, x, k, PspEdits(cfg, app, c))
    ensures Applies(true, x, k, KubeConfigEdits(snap, app).value) == (k || !FindsKubeConfig(snap, app))
    ensures Applies(true, x, k, PinEdits(app, pin))
    ensures InitExtraConfigs !in ClusterValuesEdits(app) && InitExtraConfigs !in PspEdits(cfg, app, c)
    ensures InitExtraConfigs !in KubeConfigEdits(snap, app).value
  {
    var add := AppendExtraConfig(ClusterValuesEntry(app));
    assert [add][1..] == [] && [add][0] == add;
    var own := AppendExtraConfig(PspEntry(cfg, app));
    assert [SetLabel(PSP_LABEL, PSP_DISABLED), own][1..] == [own] && [own][1..] == [];
    assert c.Unlisted? ==> PspEdits(cfg, app, c)[1] == own;
    KubeConfigShape(snap, app);
    if FindsKubeConfig(snap, app) {
      var namespace := KubeConfigNamespace(snap, app.Namespace(), app.KubeConfigSecretName()).value;
      ShortApplies(true, x, k, app.spec.kubeConfig.contextName == "", SetContext(app.ClusterName()),
                   true, SetKubeSecret(ObjRef(app.KubeConfigSecretName(), namespace)));
    }
    if pin.Some? {
      ShortApplies(true, x, k, app.spec.version != pin.value.version, SetVersion(pin.value.version),
                   app.spec.catalog != pin.value.catalog, SetCatalog(pin.value.catalog));
    }
  }

  /** A container that decodes to something non-empty exists in the document. */
  lemma ContainersExist(doc: Json)
    requires Shaped(doc) && Decode(doc).Some?
    ensures Decode(doc).value.metadata.labels != map[] ==> HasLabels(doc)
    ensures Decode(doc).value.spec.extraConfigs != [] ==> HasExtraConfigs(doc)
  {
    DecodeParts(doc);
    assert StrMapOf(JNull) == Some(map[]);
  }

  lemma CallApplies(cfg: Config, snap: Snapshot, store: Store, doc: Json, app: App, edits: seq<Edit>, after: Store)
    requires Shaped(doc) && Decode(doc) == Some(app)
    requires MutateOutcome(cfg, snap, store, app) == Outcome(Ok(edits), after)
    ensures Applies(HasLabels(doc), HasExtraConfigs(doc), HasKubeConfig(doc), edits) ==
            (HasKubeConfig(doc) || !WritesKubeConfig(cfg, snap, app))
  {
    var l, x, k := HasLabels(doc), HasExtraConfigs(doc), HasKubeConfig(doc);
    ContainersExist(doc);
    match GateOf(cfg, snap, app).value
    case Skip =>
    case LabelsOnly(version) =>
      HeaderApplies(l, x, k, app, version);
    case Full(version) =>
      PspOutcomeEdits(cfg, snap, store, app);
      var o := PspOutcome(cfg, snap, store, app);
      FullApplies(cfg, snap, app, version, PspCaseOf(cfg, snap, app).value, Pin(snap, o.store, app).value, l, x, k);
  }

  /**
   Refinement. For every raw document, the list of a successful call applies operation by operation,
   and the patched document decodes to the directly defined App; the one exception is a document
   without a `spec.kubeConfig` object for which a kubeconfig secret is found.
   */
  lemma ListRefinesDefault(cfg: Config, snap: Snapshot, store: Store, doc: Json, app: App, edits: seq<Edit>, after: Store)
    requires Shaped(doc) && Decode(doc) == Some(app)
    requires MutateOutcome(cfg, snap, store, app) == Outcome(Ok(edits), after)
    ensures var patched := ApplyAll(doc, ToPatches(edits));
            && (patched.Some? <==> HasKubeConfig(doc) || !WritesKubeConfig(cfg, snap, app))
            && (patched.Some? ==>
                && Shaped(patched.value)
                && Decode(patched.value) == Some(DefaultedApp(cfg, snap, after, app)))
  {
    EditsInOrder(cfg, snap, store, app);
    ListRefines(doc, edits);
    CallApplies(cfg, snap, store, doc, app, edits, after);
    EditsReachDefault(cfg, snap, store, app);
  }

  predicate SetsNoForeignLabel(edits: seq<Edit>) {
    forall e :: e in edits ==>
      !e.InitAnnotations? && !e.InitLabels? && !e.InitExtraConfigs? && (e.SetLabel? ==> e.key in MANAGED_LABELS)
  }

  lemma {:induction false} AlwaysHarmless(app: App, edits: seq<Edit>)
    requires SetsNoForeignLabel(edits)
    ensures AllHarmless(app, edits)
    decreases |edits|
  {
    if edits != [] {
      AlwaysHarmless(EditApp(app, edits[0]), edits[1..]);
    }
  }

  lemma HeaderHarmless(app: App, version: string)
    ensures AllHarmless(app, LabelsOnlyEdits(app, version))
  {
    var annotations := if app.metadata.annotations == map[] then [InitAnnotations] else [];
    var labels := if app.metadata.labels == map[] then [InitLabels] else [];
    EditAllShort(app, InitAnnotations, InitLabels);
    AllHarmlessConcat(app, annotations, labels);
    AlwaysHarmless(EditAll(app, Header(app)), LabelEdits(app, version));
    AllHarmlessConcat(app, Header(app), LabelEdits(app, version));
  }

  lemma PartsHarmless(cfg: Config, snap: Snapshot, app: App, c: PspCase, pin: Option<Component>)
    requires KubeConfigEdits(snap, app).Ok?
    ensures SetsNoForeignLabel(ClusterValuesEdits(app)) && SetsNoForeignLabel(PspEdits(cfg, app, c))
    ensures SetsNoForeignLabel(KubeConfigEdits(snap, app).value) && SetsNoForeignLabel(PinEdits(app, pin))
  {
  }

  lemma SixHarmless(app: App, a: seq<Edit>, b: seq<Edit>, c: seq<Edit>, d: seq<Edit>, e: seq<Edit>, f: seq<Edit>)
    requires AllHarmless(app, a + b)
    requires SetsNoForeignLabel(c) && SetsNoForeignLabel(d) && SetsNoForeignLabel(e) && SetsNoForeignLabel(f)
    ensures AllHarmless(app, a + b + c + d + e + f)
  {
    AlwaysHarmless(EditAll(app, a + b), c + d + e + f);
    AllHarmlessConcat(app, a + b, c + d + e + f);
    assert a + b + c + d + e + f == a + b + (c + d + e + f);
  }

  lemma FullHarmless(cfg: Config, snap: Snapshot, app: App, version: string, c: PspCase, pin: Option<Component>)
    requires KubeConfigEdits(snap, app).Ok?
    ensures AllHarmless(app, FullEdits(app, version, PspEdits(cfg, app, c), KubeConfigEdits(snap, app).value, PinEdits(app, pin)))
  {
    var psp := PspEdits(cfg, app, c);
    var header, init := LabelsOnlyEdits(app, version), InitEdits(app, psp);
    HeaderHarmless(app, version);
    LabelsOnlyEffect(app, version);
    AllHarmlessConcat(app, header, init);
    PartsHarmless(cfg, snap, app, c, pin);
    SixHarmless(app, header, init, ClusterValuesEdits(app), psp, KubeConfigEdits(snap, app).value, PinEdits(app, pin));
  }

  lemma CallHarmless(cfg: Config, snap: Snapshot, store: Store, app: App)
    requires MutateOutcome(cfg, snap, store, app).result.Ok?
    ensures AllHarmless(app, MutateOutcome(cfg, snap, store, app).result.value)
  {
    match GateOf(cfg, snap, app).value
    case Skip =>
    case LabelsOnly(version) =>
      HeaderHarmless(app, version);
    case Full(version) =>
      PspOutcomeEdits(cfg, snap, store, app);
      var o := PspOutcome(cfg, snap, store, app);
      FullHarmless(cfg, snap, app, version, PspCaseOf(cfg, snap, app).value, Pin(snap, o.store, app).value);
  }

  /**
   And the rest of the raw document, known to the App or not, is left as it was: outside the members that
   are written, and inside them the entries of others.
   */
  lemma RestIsUntouched(cfg: Config, snap: Snapshot, store: Store, doc: Json, app: App, edits: seq<Edit>, after: Store)
    requires Shaped(doc) && Decode(doc) == Some(app)
    requires MutateOutcome(cfg, snap, store, app) == Outcome(Ok(edits), after)
    ensures var patched := ApplyAll(doc, ToPatches(edits));
            patched.Some? ==>
              Shaped(patched.value) && OutsideFramed(doc, patched.value) && InsideFramed(doc, patched.value)
  {
    EditsInOrder(cfg, snap, store, app);
    CallHarmless(cfg, snap, store, app);
    if ApplyAll(doc, ToPatches(edits)).Some? {
      ListFrames(doc, edits);
    }
  }

  /** A later pointer never names an ancestor of an earlier one, nor the same place unless both append. */
  lemma NoPatchUndoesAnother(cfg: Config, snap: Snapshot, store: Store, app: App, edits: seq<Edit>, i: nat, j: nat)
    requires MutateOutcome(cfg, snap, store, app).result == Ok(edits)
    requires i < j < |edits|
    ensures var p := ToPatches(edits);
            var earlier, later := ParsePointer(p[i].path), ParsePointer(p[j].path);
            && earlier.Some? && later.Some?
            && !(later.value < earlier.value)
            && (later == earlier ==> later.value == ["spec", "extraConfigs", "-"])
  {
    EditsInOrder(cfg, snap, store, app);
    assert edits[i] in edits && edits[j] in edits;
    PointerReachesTokens(edits[i]);
    PointerReachesTokens(edits[j]);
    assert Undisturbed(edits[i], edits[j]);
  }

  predicate Names(patch: PatchOperation, tokens: seq<string>) {
    ParsePointer(patch.path) == Some(tokens)
  }

  const CONTAINER := ["spec", "extraConfigs"]
  const END_OF_CONTAINER := ["spec", "extraConfigs", "-"]

  lemma ContainerPatches(e: Edit)
    requires WellFormed(e)
    ensures Names(ToPatch(e), CONTAINER) <==> e.InitExtraConfigs?
    ensures Names(ToPatch(e), END_OF_CONTAINER) <==> e.AppendExtraConfig?
  {
    PointerReachesTokens(e);
    var t := Tokens(e);
    assert t[0] == "spec" || t[0] == "metadata";
    assert "metadata"[0] != "spec"[0] && "extraConfigs"[0] != "kubeConfig"[0];
    assert "extraConfigs"[0] != "version"[0] && "extraConfigs"[0] != "catalog"[0];
    if t == CONTAINER || t == END_OF_CONTAINER {
      assert t[1] == "extraConfigs";
    }
  }

  lemma FullContainer(cfg: Config, snap: Snapshot, app: App, version: string, c: PspCase, pin: Option<Component>)
    requires KubeConfigEdits(snap, app).Ok?
    ensures var edits := FullEdits(app, version, PspEdits(cfg, app, c), KubeConfigEdits(snap, app).value, PinEdits(app, pin));
            InitExtraConfigs in edits <==> app.spec.extraConfigs == [] && HasAppend(edits)
  {
    var psp, kube, pins := PspEdits(cfg, app, c), KubeConfigEdits(snap, app).value, PinEdits(app, pin);
    var header, init := Header(app) + LabelEdits(app, version), InitEdits(app, psp);
    HeaderWithin(app, version);
    PartsWithin(cfg, snap, app, c, pin);
    InitWithin(app, psp);
    SixContainer(header, init, ClusterValuesEdits(app), psp, kube, pins);
  }

  lemma InitWithin(app: App, psp: seq<Edit>)
    ensures Within(InitEdits(app, psp), {5})
    ensures InitExtraConfigs in InitEdits(app, psp) <==> InitEdits(app, psp) != []
  {
  }

  lemma ContainerSlots(edits: seq<Edit>, slots: set<nat>)
    requires Within(edits, slots)
    ensures 5 !in slots ==> InitExtraConfigs !in edits
    ensures 6 !in slots ==> !HasAppend(edits)
  {
    forall i | 0 <= i < |edits|
      ensures Slot(edits[i]) in slots
    {
      assert edits[i] in edits;
    }
  }

  lemma SixContainer(a: seq<Edit>, b: seq<Edit>, c: seq<Edit>, d: seq<Edit>, e: seq<Edit>, f: seq<Edit>)
    requires Within(a, {0, 1} + {2, 3}) && Within(b, {5}) && Within(c, {6}) && Within(d, {4, 6})
    requires Within(e, {7, 8}) && Within(f, {9, 10})
    ensures HasAppend(a + b + c + d + e + f) == (HasAppend(c) || HasAppend(d))
    ensures InitExtraConfigs in a + b + c + d + e + f <==> InitExtraConfigs in b
  {
    ContainerSlots(a, {0, 1} + {2, 3});
    ContainerSlots(b, {5});
    ContainerSlots(c, {6});
    ContainerSlots(d, {4, 6});
    ContainerSlots(e, {7, 8});
    ContainerSlots(f, {9, 10});
    HasAppendConcat(a, b);
    HasAppendConcat(a + b, c);
    HasAppendConcat(a + b + c, d);
    HasAppendConcat(a + b + c + d, e);
    HasAppendConcat(a + b + c + d + e, f);
  }

  lemma HasAppendConcat(a: seq<Edit>, b: seq<Edit>)
    ensures HasAppend(a + b) == (HasAppend(a) || HasAppend(b))
  {
    forall i | 0 <= i < |a| ensures (a + b)[i] == a[i] {
    }
    forall i | 0 <= i < |b| ensures (a + b)[|a| + i] == b[i] {
    }
  }

  lemma LabelsOnlyContainer(app: App, version: string)
    ensures InitExtraConfigs !in LabelsOnlyEdits(app, version) && !HasAppend(LabelsOnlyEdits(app, version))
  {
  }

  lemma CallContainer(cfg: Config, snap: Snapshot, store: Store, app: App)
    requires MutateOutcome(cfg, snap, store, app).result.Ok?
    ensures var edits := MutateOutcome(cfg, snap, store, app).result.value;
            InitExtraConfigs in edits <==> app.spec.extraConfigs == [] && HasAppend(edits)
  {
    match GateOf(cfg, snap, app).value
    case Skip =>
    case LabelsOnly(version) =>
      LabelsOnlyContainer(app, version);
    case Full(version) =>
      PspOutcomeEdits(cfg, snap, store, app);
      var o := PspOutcome(cfg, snap, store, app);
      FullContainer(cfg, snap, app, version, PspCaseOf(cfg, snap, app).value, Pin(snap, o.store, app).value);
  }

  /** The list container is initialised once, before every append, and only when there is something to append to nothing. */
  lemma ContainerInitialisedExactly(cfg: Config, snap: Snapshot, store: Store, app: App, edits: seq<Edit>)
    requires MutateOutcome(cfg, snap, store, app).result == Ok(edits)
    ensures var p := ToPatches(edits);
            && ((exists i :: 0 <= i < |p| && Names(p[i], CONTAINER)) <==>
                app.spec.extraConfigs == [] && exists j :: 0 <= j < |p| && Names(p[j], END_OF_CONTAINER))
            && (forall i, j :: 0 <= i < |p| && 0 <= j < |p| && Names(p[i], CONTAINER) ==>
                  && (Names(p[j], CONTAINER) ==> i == j)
                  && (Names(p[j], END_OF_CONTAINER) ==> i < j))
  {
    var p := ToPatches(edits);
    EditsInOrder(cfg, snap, store, app);
    CallContainer(cfg, snap, store, app);
    forall i | 0 <= i < |p|
      ensures Names(p[i], CONTAINER) <==> edits[i].InitExtraConfigs?
      ensures Names(p[i], END_OF_CONTAINER) <==> edits[i].AppendExtraConfig?
    {
      assert edits[i] in edits;
      ContainerPatches(edits[i]);
    }
    OnceAndFirst(edits);
  }

  lemma OnceAndFirst(edits: seq<Edit>)
    requires NoneDisturbed(edits)
    ensures forall i, j :: 0 <= i < |edits| && 0 <= j < |edits| && edits[i].InitExtraConfigs? ==>
              && (edits[j].InitExtraConfigs? ==> i == j)
              && (edits[j].AppendExtraConfig? ==> i < j)
  {
  }
}
