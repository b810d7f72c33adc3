/** The ConfigMaps that switch pod security policies off: their names, and the references Apps hold to them. */
module PspStore {
  import opened Wrappers
  import opened Json
  import opened Apps
  import opened Clusters
  import opened Edits
  import opened Defaulting
  import opened Refinement
  import opened PatchList
  import opened Convergence
  import opened Requests
  import opened Samples
  import Text

  // ---------------------------------------------------------------- names

  const KEPT_SUFFIX := 42

  lemma NamesFit(patches: seq<ConfigPatch>, appName: string)
    ensures |PspConfigName(patches, appName)| <= MAX_NAME
    ensures CustomPatch(patches, appName).Some? <==> PspConfigName(patches, appName) != PSP_CONFIG_NAME
  {
  }

  /** 18 of the 60 bytes are the prefix, so two custom names agree exactly when 42 bytes of their suffixes do. */
  lemma CustomNamesCoincide(p: ConfigPatch, q: ConfigPatch)
    ensures CustomName(p) == CustomName(q) <==>
            Text.Truncate(Suffix(p), KEPT_SUFFIX) == Text.Truncate(Suffix(q), KEPT_SUFFIX)
  {
    CustomNameSplits(p);
    CustomNameSplits(q);
    var s, t := Text.Truncate(Suffix(p), KEPT_SUFFIX), Text.Truncate(Suffix(q), KEPT_SUFFIX);
    var prefix := PSP_CONFIG_NAME + "-";
    assert (prefix + s)[|prefix|..] == s && (prefix + t)[|prefix|..] == t;
  }

  lemma CustomNameSplits(p: ConfigPatch)
    ensures CustomName(p) == PSP_CONFIG_NAME + "-" + Text.Truncate(Suffix(p), KEPT_SUFFIX)
  {
  }

  // ---------------------------------------------------------------- references over runs

  /** Apps as stored, those the guarantee covers, and the ConfigMaps. */
  datatype World = World(docs: map<ObjRef, Json>, carried: set<ObjRef>, store: Store)

  /** One admission; `accepted` says whether whatever follows the mutation lets the object through. */
  datatype Admission = Admission(request: Request, snap: Snapshot, accepted: bool)

  function Ref(app: App): ObjRef {
    ObjRef(app.metadata.name, app.Namespace())
  }

  predicate Carries(edits: seq<Edit>) {
    SetLabel(PSP_LABEL, PSP_DISABLED) in edits
  }

  /** The App lists the entry for its ConfigMap. */
  predicate Lists(cfg: Config, doc: Json) {
    var app := Decode(doc);
    app.Some? && PspEntry(cfg, app.value) in app.value.spec.extraConfigs
  }

  /** Both documents stand for Apps with the same ConfigMap. */
  predicate SameConfigMap(cfg: Config, a: Json, b: Json) {
    Decode(a).Some? && Decode(b).Some? && PspRef(cfg, Decode(a).value) == PspRef(cfg, Decode(b).value)
  }

  /**
   Whether the guarantee covers the document stored for `id`: its list carried the psp-status label, or the
   version before it was covered and the reference has not been taken out or turned to another ConfigMap since.
   */
  predicate Covered(cfg: Config, w: World, id: ObjRef, doc: Json, edits: seq<Edit>) {
    Carries(edits) || (id in w.carried && id in w.docs && SameConfigMap(cfg, w.docs[id], doc) && Lists(cfg, doc))
  }

  function Admit(cfg: Config, w: World, step: Admission): World {
    var o := RequestOutcome(cfg, step.snap, w.store, step.request);
    var doc := step.request.newDoc;
    if o.result.Err? || step.request.dryRun || !step.accepted || !Shaped(doc) then w.(store := o.store)
    else
      var patched := ApplyAll(doc, ToPatches(o.result.value));
      if patched.None? || Decode(patched.value).None? then w.(store := o.store)
      else
        var id := Ref(Decode(patched.value).value);
        World(w.docs[id := patched.value],
              if Covered(cfg, w, id, patched.value, o.result.value) then w.carried + {id} else w.carried - {id},
              o.store)
  }

  function AdmitAll(cfg: Config, w: World, steps: seq<Admission>): World
    decreases |steps|
  {
    if steps == [] then w else AdmitAll(cfg, Admit(cfg, w, steps[0]), steps[1..])
  }

  /** The App lists its ConfigMap, and that ConfigMap holds exactly the App's values. */
  predicate Backed(cfg: Config, store: Store, app: App) {
    var ref := PspRef(cfg, app);
    && PspEntry(cfg, app) in app.spec.extraConfigs
    && ref in store
    && store[ref].data == ValuesData(PspConfigValues(cfg.patches, app.spec.name))
  }

  predicate Intact(cfg: Config, w: World) {
    forall id :: id in w.carried ==>
      id in w.docs && Decode(w.docs[id]).Some? && Backed(cfg, w.store, Decode(w.docs[id]).value)
  }

  /** The patch at `i` is the one its App name selects; a later patch for the same name never is. */
  predicate Reachable(patches: seq<ConfigPatch>, i: nat)
    requires i < |patches|
  {
    CustomPatch(patches, patches[i].appName) == Some(patches[i])
  }

  /** Selected patches that share an effective name carry equal values. */
  predicate Compatible(patches: seq<ConfigPatch>) {
    forall i, j | 0 <= i < |patches| && 0 <= j < |patches| && Reachable(patches, i) && Reachable(patches, j) ::
      CustomName(patches[i]) == CustomName(patches[j]) ==> patches[i].values == patches[j].values
  }

  lemma {:induction false} CustomPatchIndex(patches: seq<ConfigPatch>, appName: string) returns (i: nat)
    requires CustomPatch(patches, appName).Some?
    ensures i < |patches| && CustomPatch(patches, appName) == Some(patches[i]) && patches[i].appName == appName
    ensures forall j :: 0 <= j < i ==> patches[j].appName != appName
  {
    if patches[0].appName == appName {
      i := 0;
    } else {
      i := CustomPatchIndex(patches[1..], appName);
      i := i + 1;
    }
  }

  /** Two Apps whose ConfigMaps have the same name agree on what it holds. */
  lemma CompatibleApps(patches: seq<ConfigPatch>, a: string, b: string)
    requires Compatible(patches) && PspConfigName(patches, a) == PspConfigName(patches, b)
    ensures PspConfigValues(patches, a) == PspConfigValues(patches, b)
  {
    NamesFit(patches, a);
    NamesFit(patches, b);
    if CustomPatch(patches, a).Some? {
      var i := CustomPatchIndex(patches, a);
      var j := CustomPatchIndex(patches, b);
      assert Reachable(patches, i) && Reachable(patches, j);
    }
  }

  /** A call writes at most the App's own ConfigMap, and only with the App's own values. */
  lemma CallWritesOwnConfigMap(cfg: Config, snap: Snapshot, store: Store, app: App)
    ensures var after := MutateOutcome(cfg, snap, store, app).store;
            after == store ||
            var ref, values := PspRef(cfg, app), PspConfigValues(cfg.patches, app.spec.name);
            after == Ensured(snap, store, ref, values).1 && Ensured(snap, store, ref, values).0
  {
  }

  lemma EnsuredKeepsOthers(snap: Snapshot, store: Store, ref: ObjRef, values: string, other: ObjRef)
    requires Ensured(snap, store, ref, values).0
    requires other in store
    ensures var after := Ensured(snap, store, ref, values).1;
            other in after && (other != ref ==> after[other] == store[other])
  {
  }

  lemma OthersStayBacked(cfg: Config, snap: Snapshot, store: Store, app: App, other: App)
    requires Compatible(cfg.patches) && Backed(cfg, store, other)
    ensures Backed(cfg, MutateOutcome(cfg, snap, store, app).store, other)
  {
    CallWritesOwnConfigMap(cfg, snap, store, app);
    var ref, values := PspRef(cfg, app), PspConfigValues(cfg.patches, app.spec.name);
    if MutateOutcome(cfg, snap, store, app).store != store {
      if PspRef(cfg, other) == ref {
        CompatibleApps(cfg.patches, other.spec.name, app.spec.name);
      }
      EnsuredKeepsOthers(snap, store, ref, values, PspRef(cfg, other));
      EnsuredTwice(snap, store, ref, values);
    }
  }

  lemma CarryingCallIsFull(cfg: Config, snap: Snapshot, store: Store, app: App)
    requires MutateOutcome(cfg, snap, store, app).result.Ok?
    requires Carries(MutateOutcome(cfg, snap, store, app).result.value)
    ensures GateOf(cfg, snap, app).value.Full?
    ensures PspCaseOf(cfg, snap, app).Ok? && !PspCaseOf(cfg, snap, app).value.NotAffected?
    ensures MutateOutcome(cfg, snap, store, app).store == PspOutcome(cfg, snap, store, app).store
  {
    DistinctLabels();
    var e := SetLabel(PSP_LABEL, PSP_DISABLED);
    match GateOf(cfg, snap, app).value
    case Skip =>
    case LabelsOnly(version) =>
      HeaderWithin(app, version);
    case Full(version) =>
      PspOutcomeEdits(cfg, snap, store, app);
      var o := PspOutcome(cfg, snap, store, app);
      if PspCaseOf(cfg, snap, app).value.NotAffected? {
        NotInFull(cfg, snap, app, version, Pin(snap, o.store, app).value);
      }
  }

  lemma NotInFull(cfg: Config, snap: Snapshot, app: App, version: string, pin: Option<Component>)
    requires KubeConfigEdits(snap, app).Ok?
    ensures !Carries(FullEdits(app, version, [], KubeConfigEdits(snap, app).value, PinEdits(app, pin)))
  {
    DistinctLabels();
    var e := SetLabel(PSP_LABEL, PSP_DISABLED);
    HeaderWithin(app, version);
    PartsWithin(cfg, snap, app, NotAffected, pin);
    assert Slot(e) == 4 && Slot(e) !in {0, 1} + {2, 3} && Slot(e) !in {7, 8} && Slot(e) !in {9, 10};
  }

  lemma CarryingAppIsBacked(cfg: Config, snap: Snapshot, store: Store, app: App)
    requires MutateOutcome(cfg, snap, store, app).result.Ok?
    requires Carries(MutateOutcome(cfg, snap, store, app).result.value)
    ensures var after := MutateOutcome(cfg, snap, store, app).store;
            Backed(cfg, after, DefaultedApp(cfg, snap, after, app))
  {
    CarryingCallIsFull(cfg, snap, store, app);
    var after := MutateOutcome(cfg, snap, store, app).store;
    DefaultKeepsIdentity(cfg, snap, after, app);
    EnsuredTwice(snap, store, PspRef(cfg, app), PspConfigValues(cfg.patches, app.spec.name));
    var list := DefaultedApp(cfg, snap, after, app).spec.extraConfigs;
    if PspCaseOf(cfg, snap, app).value.Unlisted? {
      assert list[|list| - 1] == PspEntry(cfg, app);
    } else {
      var i :| 0 <= i < |app.spec.extraConfigs| && app.spec.extraConfigs[i] == PspEntry(cfg, app);
      assert list[i] == PspEntry(cfg, app);
    }
  }

  lemma RequestKeepsBacked(cfg: Config, snap: Snapshot, store: Store, request: Request, other: App)
    requires Compatible(cfg.patches) && Backed(cfg, store, other)
    ensures Backed(cfg, RequestOutcome(cfg, snap, store, request).store, other)
  {
    if RequestOutcome(cfg, snap, store, request).store != store {
      OthersStayBacked(cfg, snap, store, Decode(request.newDoc).value, other);
    }
  }

  lemma CarryingRequestIsBacked(cfg: Config, snap: Snapshot, store: Store, request: Request, edits: seq<Edit>, after: Store)
    requires RequestOutcome(cfg, snap, store, request) == Outcome(Ok(edits), after)
    requires Shaped(request.newDoc) && Carries(edits)
    ensures var patched := ApplyAll(request.newDoc, ToPatches(edits));
            patched.Some? ==> Decode(patched.value).Some? && Backed(cfg, after, Decode(patched.value).value)
  {
    var app := Decode(request.newDoc).value;
    ListRefinesDefault(cfg, snap, store, request.newDoc, app, edits, after);
    CarryingAppIsBacked(cfg, snap, store, app);
  }

  /** An App that takes over the ConfigMap of a backed one, and lists it, is backed too. */
  lemma BackedForAnother(cfg: Config, store: Store, a: App, b: App)
    requires Compatible(cfg.patches) && Backed(cfg, store, a)
    requires PspRef(cfg, a) == PspRef(cfg, b) && PspEntry(cfg, b) in b.spec.extraConfigs
    ensures Backed(cfg, store, b)
  {
    CompatibleApps(cfg.patches, a.spec.name, b.spec.name);
  }

  lemma AdmissionKeepsIntact(cfg: Config, w: World, step: Admission)
    requires Compatible(cfg.patches) && Intact(cfg, w)
    ensures Intact(cfg, Admit(cfg, w, step))
  {
    var o := RequestOutcome(cfg, step.snap, w.store, step.request);
    forall id | id in w.carried
      ensures Backed(cfg, o.store, Decode(w.docs[id]).value)
    {
      RequestKeepsBacked(cfg, step.snap, w.store, step.request, Decode(w.docs[id]).value);
    }
    if o.result.Ok? && Shaped(step.request.newDoc) {
      AdmittedIsBacked(cfg, w, step, o.result.value, o.store);
    }
  }

  lemma AdmittedIsBacked(cfg: Config, w: World, step: Admission, edits: seq<Edit>, after: Store)
    requires Compatible(cfg.patches) && Shaped(step.request.newDoc)
    requires RequestOutcome(cfg, step.snap, w.store, step.request) == Outcome(Ok(edits), after)
    requires forall id :: id in w.carried ==>
               id in w.docs && Decode(w.docs[id]).Some? && Backed(cfg, after, Decode(w.docs[id]).value)
    ensures var patched := ApplyAll(step.request.newDoc, ToPatches(edits));
            patched.Some? && Decode(patched.value).Some? &&
            Covered(cfg, w, Ref(Decode(patched.value).value), patched.value, edits) ==>
              Backed(cfg, after, Decode(patched.value).value)
  {
    var patched := ApplyAll(step.request.newDoc, ToPatches(edits));
    if patched.Some? && Decode(patched.value).Some? {
      var b := Decode(patched.value).value;
      if Carries(edits) {
        CarryingRequestIsBacked(cfg, step.snap, w.store, step.request, edits, after);
      } else if Covered(cfg, w, Ref(b), patched.value, edits) {
        BackedForAnother(cfg, after, Decode(w.docs[Ref(b)]).value, b);
      }
    }
  }

  /** A ConfigMap once filled stays filled over every run, whatever becomes of the App it was filled for. */
  lemma {:induction false} BackingPersists(cfg: Config, w: World, steps: seq<Admission>, app: App)
    requires Compatible(cfg.patches) && Backed(cfg, w.store, app)
    ensures Backed(cfg, AdmitAll(cfg, w, steps).store, app)
    decreases |steps|
  {
    if steps != [] {
      RequestKeepsBacked(cfg, steps[0].snap, w.store, steps[0].request, app);
      BackingPersists(cfg, Admit(cfg, w, steps[0]), steps[1..], app);
    }
  }

  /** Reference integrity over every run of admissions, whatever the cluster does in between. */
  lemma {:induction false} ReferencesStayIntact(cfg: Config, w: World, steps: seq<Admission>)
    requires Compatible(cfg.patches) && Intact(cfg, w)
    ensures Intact(cfg, AdmitAll(cfg, w, steps))
    decreases |steps|
  {
    if steps != [] {
      AdmissionKeepsIntact(cfg, w, steps[0]);
      ReferencesStayIntact(cfg, Admit(cfg, w, steps[0]), steps[1..]);
    }
  }

  // ---------------------------------------------------------------- the condition is needed

  const SOME_NAMESPACE := "default"
  const FIRST := "first"
  const SECOND := "second"

  const WITNESS_LABELS := map[CLUSTER_LABEL := "c", VERSION_LABEL := UNIQUE_VERSION]

  function WitnessEntry(cfg: Config, name: string): ExtraConfig {
    ExtraConfig("configMap", PspConfigName(cfg.patches, name), SOME_NAMESPACE, TOP_PRIORITY)
  }

  /** A management cluster App `id`, installing the application `name`, that already lists its ConfigMap. */
  function WitnessDoc(cfg: Config, id: string, name: string): Json {
    Sample(id, SOME_NAMESPACE, WITNESS_LABELS, WitnessSpec(cfg, name))
  }

  function WitnessSpec(cfg: Config, name: string): map<string, Json> {
    RAW_IN_CLUSTER["name" := JStr(name)]["extraConfigs" := JArr([ExtraConfigJson(WitnessEntry(cfg, name))])]
  }

  function WitnessApp(cfg: Config, id: string, name: string): App {
    App(SampleMeta(id, SOME_NAMESPACE, WITNESS_LABELS),
        BARE_SPEC.(name := name, extraConfigs := [WitnessEntry(cfg, name)], kubeConfig := IN_CLUSTER))
  }

  lemma WitnessSpecDecodes(cfg: Config, name: string)
    ensures SpecOf(WitnessSpec(cfg, name)) ==
            Some(BARE_SPEC.(name := name, extraConfigs := [WitnessEntry(cfg, name)], kubeConfig := IN_CLUSTER))
  {
    var list := JArr([ExtraConfigJson(WitnessEntry(cfg, name))]);
    ExtraConfigRoundTrip(WitnessEntry(cfg, name));
    assert ExtraConfigsOf(list).value == [WitnessEntry(cfg, name)];
    InClusterDecodes();
    SpecName(RAW_IN_CLUSTER, name);
    SpecExtraConfigs(RAW_IN_CLUSTER["name" := JStr(name)], list);
  }

  lemma WitnessDecodes(cfg: Config, id: string, name: string)
    ensures var doc := WitnessDoc(cfg, id, name);
            Shaped(doc) && Decode(doc) == Some(WitnessApp(cfg, id, name)) && HasKubeConfig(doc)
  {
    WitnessSpecDecodes(cfg, name);
    SampleDecodes(id, SOME_NAMESPACE, WITNESS_LABELS, WitnessSpec(cfg, name));
    SpecKeysDistinct();
  }

  const QUIET := Snapshot(map[], [], [], {}, map[], (a: App, s: Store) => None, {})

  function WitnessStep(cfg: Config, id: string, name: string): Admission {
    Admission(Request(Create, false, WitnessDoc(cfg, id, name), JNull, User("", [])), QUIET, true)
  }

  lemma WitnessOutcome(cfg: Config, store: Store, id: string, name: string)
    requires ParsesConstants(cfg.parse) && (Vintage(cfg) || Capi(cfg))
    ensures var app := WitnessApp(cfg, id, name);
            var o := MutateOutcome(cfg, QUIET, store, app);
            && o.result.Ok? && Carries(o.result.value)
            && var ref := PspRef(cfg, app);
               ref in o.store && o.store[ref].data == ValuesData(PspConfigValues(cfg.patches, name))
  {
    var app := WitnessApp(cfg, id, name);
    DistinctLabels();
    assert UNIQUE_VERSION[0] != LEGACY_VERSION[0];
    assert GateOf(cfg, QUIET, app) == Ok(Full(UNIQUE_VERSION));
    assert app.Label(CLUSTER_LABEL) == "c";
    assert app.Namespace()[0] != "giantswarm"[0];
    assert PspEntry(cfg, app) == app.spec.extraConfigs[0];
    assert PspCaseOf(cfg, QUIET, app) == Ok(AlreadyListed);
    var psp := PspEdits(cfg, app, AlreadyListed);
    assert psp == [SetLabel(PSP_LABEL, PSP_DISABLED)];
    assert KubeConfigEdits(QUIET, app) == Ok([]);
    assert !IsClusterApp(app);
    var o := MutateOutcome(cfg, QUIET, store, app);
    EnsuredTwice(QUIET, store, PspRef(cfg, app), PspConfigValues(cfg.patches, name));
    assert o.result.value == FullEdits(app, UNIQUE_VERSION, psp, [], []);
  }

  /** `now` is `w` with the witness stored and covered, and its ConfigMap filled with its values. */
  predicate Recorded(cfg: Config, w: World, now: World, id: string, name: string) {
    var key := ObjRef(id, SOME_NAMESPACE);
    var ref := ObjRef(PspConfigName(cfg.patches, name), SOME_NAMESPACE);
    && now.carried == w.carried + {key} && key in now.docs && now.docs == w.docs[key := now.docs[key]]
    && Decode(now.docs[key]).Some?
    && Decode(now.docs[key]).value.spec.name == name && Decode(now.docs[key]).value.Namespace() == SOME_NAMESPACE
    && ref in now.store && now.store[ref].data == ValuesData(PspConfigValues(cfg.patches, name))
  }

  lemma WitnessAdmitted(cfg: Config, w: World, id: string, name: string)
    requires ParsesConstants(cfg.parse) && (Vintage(cfg) || Capi(cfg))
    ensures Recorded(cfg, w, Admit(cfg, w, WitnessStep(cfg, id, name)), id, name)
  {
    var doc, app := WitnessDoc(cfg, id, name), WitnessApp(cfg, id, name);
    WitnessDecodes(cfg, id, name);
    NothingDecodes();
    WitnessOutcome(cfg, w.store, id, name);
    var o := MutateOutcome(cfg, QUIET, w.store, app);
    ListRefinesDefault(cfg, QUIET, w.store, doc, app, o.result.value, o.store);
    DefaultKeepsIdentity(cfg, QUIET, o.store, app);
    WitnessRecorded(cfg, w, id, name, doc, app);
  }

  lemma NothingDecodes()
    ensures Decode(JNull).Some?
  {
  }

  lemma WitnessRecorded(cfg: Config, w: World, id: string, name: string, doc: Json, app: App)
    requires Shaped(doc) && Decode(doc) == Some(app) && Decode(JNull).Some?
    requires app.metadata.name == id && app.Namespace() == SOME_NAMESPACE && app.spec.name == name
    requires var o := MutateOutcome(cfg, QUIET, w.store, app);
             && o.result.Ok? && Carries(o.result.value)
             && (var patched := ApplyAll(doc, ToPatches(o.result.value));
                 patched.Some? && Decode(patched.value).Some? && SameIdentity(app, Decode(patched.value).value))
             && var ref := PspRef(cfg, app);
                ref in o.store && o.store[ref].data == ValuesData(PspConfigValues(cfg.patches, name))
    ensures Recorded(cfg, w, Admit(cfg, w, Admission(Request(Create, false, doc, JNull, User("", [])), QUIET, true)), id, name)
  {
  }

  const EMPTY_WORLD := World(map[], {}, map[])

  /**
   Reference integrity holds over all runs from an empty cluster exactly when the configured patches are
   compatible: otherwise two Apps take turns overwriting the ConfigMap they share.
   */
  lemma IntegrityNeedsCompatibility(cfg: Config)
    requires ParsesConstants(cfg.parse) && (Vintage(cfg) || Capi(cfg))
    ensures (forall steps :: Intact(cfg, AdmitAll(cfg, EMPTY_WORLD, steps))) <==> Compatible(cfg.patches)
  {
    if Compatible(cfg.patches) {
      forall steps ensures Intact(cfg, AdmitAll(cfg, EMPTY_WORLD, steps)) {
        ReferencesStayIntact(cfg, EMPTY_WORLD, steps);
      }
    } else {
      var i, j :| 0 <= i < |cfg.patches| && 0 <= j < |cfg.patches| && Reachable(cfg.patches, i) && Reachable(cfg.patches, j) &&
        CustomName(cfg.patches[i]) == CustomName(cfg.patches[j]) && cfg.patches[i].values != cfg.patches[j].values;
      ClashBreaksIntegrity(cfg, cfg.patches[i].appName, cfg.patches[j].appName);
    }
  }

  lemma ClashBreaksIntegrity(cfg: Config, a: string, b: string)
    requires ParsesConstants(cfg.parse) && (Vintage(cfg) || Capi(cfg))
    requires PspConfigName(cfg.patches, a) == PspConfigName(cfg.patches, b)
    requires PspConfigValues(cfg.patches, a) != PspConfigValues(cfg.patches, b)
    ensures !Intact(cfg, AdmitAll(cfg, EMPTY_WORLD, [WitnessStep(cfg, FIRST, a), WitnessStep(cfg, SECOND, b)]))
  {
    var s, t := WitnessStep(cfg, FIRST, a), WitnessStep(cfg, SECOND, b);
    var w := Admit(cfg, EMPTY_WORLD, s);
    WitnessAdmitted(cfg, EMPTY_WORLD, FIRST, a);
    WitnessAdmitted(cfg, w, SECOND, b);
    OverwrittenIsNotIntact(cfg, EMPTY_WORLD, w, Admit(cfg, w, t), a, b);
    TwoAdmissions(cfg, EMPTY_WORLD, s, t);
  }

  lemma TwoAdmissions(cfg: Config, w: World, s: Admission, t: Admission)
    ensures AdmitAll(cfg, w, [s, t]) == Admit(cfg, Admit(cfg, w, s), t)
  {
    assert [s, t][1..] == [t] && [t][1..] == [];
    assert AdmitAll(cfg, Admit(cfg, w, s), [t]) == Admit(cfg, Admit(cfg, w, s), t);
  }

  lemma OverwrittenIsNotIntact(cfg: Config, w0: World, w1: World, w2: World, a: string, b: string)
    requires Recorded(cfg, w0, w1, FIRST, a) && Recorded(cfg, w1, w2, SECOND, b)
    requires PspConfigName(cfg.patches, a) == PspConfigName(cfg.patches, b)
    requires PspConfigValues(cfg.patches, a) != PspConfigValues(cfg.patches, b)
    ensures !Intact(cfg, w2)
  {
    assert FIRST[0] != SECOND[0];
    var id := ObjRef(FIRST, SOME_NAMESPACE);
    assert id in w2.carried && w2.docs[id] == w1.docs[id];
    DataInjective(PspConfigValues(cfg.patches, a), PspConfigValues(cfg.patches, b));
  }

  lemma DataInjective(x: string, y: string)
    requires x != y
    ensures ValuesData(x) != ValuesData(y)
  {
    assert ValuesData(x)["values"] == x && ValuesData(y)["values"] == y;
  }
}
