/** Running the mutator again on its own output, in the cluster it left behind. */
module Convergence {
  import opened Wrappers
  import opened Json
  import opened Apps
  import opened Clusters
  import opened Edits
  import opened EditLists
  import opened Defaulting
  import opened Refinement
  import opened PatchList

  /** One successful admission: the patched document and the ConfigMaps afterwards. */
  function Run(cfg: Config, snap: Snapshot, store: Store, doc: Json): Option<(Json, Store)> {
    var app :- Decode(doc);
    var o := MutateOutcome(cfg, snap, store, app);
    if o.result.Err? then None
    else
      var patched :- ApplyAll(doc, ToPatches(o.result.value));
      Some((patched, o.store))
  }

  /** What the refinement says of a run. */
  lemma RunRefines(cfg: Config, snap: Snapshot, store: Store, doc: Json, app: App)
    requires Shaped(doc) && Decode(doc) == Some(app)
    ensures var run := Run(cfg, snap, store, doc);
            run.Some? ==>
              && MutateOutcome(cfg, snap, store, app).result.Ok?
              && run.value.1 == MutateOutcome(cfg, snap, store, app).store
              && Shaped(run.value.0)
              && Decode(run.value.0) == Some(DefaultedApp(cfg, snap, run.value.1, app))
  {
    var o := MutateOutcome(cfg, snap, store, app);
    if o.result.Ok? {
      ListRefinesDefault(cfg, snap, store, doc, app, o.result.value, o.store);
    }
  }

  /** The chart-operator App hands out the label that marks management cluster apps. */
  predicate Promotes(snap: Snapshot, app: App) {
    AsksChartOperator(app) && ChartOperatorVersion(snap, app.Namespace()) == Ok(UNIQUE_VERSION)
  }

  /** The release lookup of a cluster App gives the same answer for the patched App. */
  predicate SameRelease(snap: Snapshot, store: Store, app: App, patched: App) {
    IsClusterApp(patched) ==> ConfiguredRelease(snap, store, patched) == ConfiguredRelease(snap, store, app)
  }

  /** What no call ever changes. */
  predicate SameIdentity(a: App, b: App) {
    && b.metadata == a.metadata.(labels := b.metadata.labels)
    && b.Label(CLUSTER_LABEL) == a.Label(CLUSTER_LABEL)
    && b.Label(APP_LABEL) == a.Label(APP_LABEL)
    && b.spec == a.spec.(version := b.spec.version, catalog := b.spec.catalog,
                         extraConfigs := b.spec.extraConfigs, kubeConfig := b.spec.kubeConfig)
    && b.spec.kubeConfig.inCluster == a.spec.kubeConfig.inCluster
  }

  /** The labels after a call that passed the gate. */
  predicate LabelsDefaulted(app: App, version: string, b: App) {
    || b.metadata.labels == DefaultedLabels(app, version)
    || b.metadata.labels == DefaultedLabels(app, version) + map[PSP_LABEL := PSP_DISABLED]
  }

  lemma UnmanagedLabelsKept(app: App, version: string, b: App)
    requires LabelsDefaulted(app, version, b)
    ensures b.Label(CLUSTER_LABEL) == app.Label(CLUSTER_LABEL)
    ensures b.Label(APP_LABEL) == app.Label(APP_LABEL)
  {
  }

  lemma DefaultKeepsIdentity(cfg: Config, snap: Snapshot, store: Store, app: App)
    ensures SameIdentity(app, DefaultedApp(cfg, snap, store, app))
  {
    var b := DefaultedApp(cfg, snap, store, app);
    match GateOf(cfg, snap, app)
    case Ok(Full(version)) => UnmanagedLabelsKept(app, version, b);
    case Ok(LabelsOnly(version)) => UnmanagedLabelsKept(app, version, b);
    case _ =>
  }

  /** The labels of the patched App, one managed key at a time. */
  lemma DefaultedLabelValues(cfg: Config, snap: Snapshot, store: Store, app: App, version: string)
    requires GateOf(cfg, snap, app) == Ok(Full(version)) || GateOf(cfg, snap, app) == Ok(LabelsOnly(version))
    ensures var b := DefaultedApp(cfg, snap, store, app);
            && b.Label(NAME_LABEL) == (if WantsNameLabel(app) then app.spec.name else app.Label(NAME_LABEL))
            && b.Label(VERSION_LABEL) == (if WantsVersionLabel(app, version) then version else app.Label(VERSION_LABEL))
            && b.metadata.labels != map[]
            && EffectiveVersion(snap, app) == Ok(version)
  {
    var b := DefaultedApp(cfg, snap, store, app);
    assert LabelsDefaulted(app, version, b);
    LabelValues(app, version, b);
  }

  lemma LabelValues(app: App, version: string, b: App)
    requires LabelsDefaulted(app, version, b)
    ensures b.Label(NAME_LABEL) == (if WantsNameLabel(app) then app.spec.name else app.Label(NAME_LABEL))
    ensures b.Label(VERSION_LABEL) == (if WantsVersionLabel(app, version) then version else app.Label(VERSION_LABEL))
    ensures b.metadata.labels != map[]
  {
  }

  lemma LabelEditsShrink(cfg: Config, snap: Snapshot, store: Store, app: App, version: string)
    requires GateOf(cfg, snap, app) == Ok(Full(version)) || GateOf(cfg, snap, app) == Ok(LabelsOnly(version))
    ensures var b := DefaultedApp(cfg, snap, store, app);
            forall e :: e in Header(b) + LabelEdits(b, version) ==>
              e in Header(app) + LabelEdits(app, version) && (e.InitAnnotations? || e.SetLabel?)
  {
    DefaultedLabelValues(cfg, snap, store, app, version);
    DefaultKeepsIdentity(cfg, snap, store, app);
    HeaderMembers(app, version);
    HeaderMembers(DefaultedApp(cfg, snap, store, app), version);
  }

  lemma HeaderMembers(app: App, version: string)
    ensures forall e :: e in Header(app) + LabelEdits(app, version) <==>
              || (e == InitAnnotations && app.metadata.annotations == map[])
              || (e == InitLabels && app.metadata.labels == map[])
              || (e == SetLabel(NAME_LABEL, app.spec.name) && WantsNameLabel(app))
              || (e == SetLabel(VERSION_LABEL, version) && WantsVersionLabel(app, version))
  {
  }

  /** The patched App meets the same gate, or none at all once its labels are in place. */
  lemma GateRepeats(cfg: Config, snap: Snapshot, store: Store, app: App, version: string)
    requires ParsesConstants(cfg.parse) && !Promotes(snap, app)
    requires GateOf(cfg, snap, app) == Ok(Full(version)) || GateOf(cfg, snap, app) == Ok(LabelsOnly(version))
    ensures var b := DefaultedApp(cfg, snap, store, app);
            && (GateOf(cfg, snap, b) == GateOf(cfg, snap, app) ||
                (GateOf(cfg, snap, app).value.LabelsOnly? && GateOf(cfg, snap, b) == Ok(Skip)))
            && (b.Label(VERSION_LABEL) == UNIQUE_VERSION <==> app.Label(VERSION_LABEL) == UNIQUE_VERSION)
  {
    DefaultedLabelValues(cfg, snap, store, app, version);
    DefaultKeepsIdentity(cfg, snap, store, app);
    assert UNIQUE_VERSION != LEGACY_VERSION && UNIQUE_VERSION != "" by {
      assert UNIQUE_VERSION[0] != LEGACY_VERSION[0];
    }
  }

  lemma ClusterValuesPresent(cfg: Config, snap: Snapshot, store: Store, app: App, version: string)
    requires ParsesConstants(cfg.parse) && !Promotes(snap, app)
    requires GateOf(cfg, snap, app) == Ok(Full(version))
    ensures !WantsClusterValues(DefaultedApp(cfg, snap, store, app))
  {
    var b := DefaultedApp(cfg, snap, store, app);
    GateRepeats(cfg, snap, store, app, version);
    DefaultKeepsIdentity(cfg, snap, store, app);
    var ref := ObjRef(app.ClusterConfigMapName(), app.Namespace());
    var n := |app.spec.extraConfigs|;
    if WantsClusterValues(app) {
      assert b.spec.extraConfigs[n] == ClusterValuesEntry(app);
      assert Refers(b.spec.extraConfigs[n], ref);
    } else if exists i :: 0 <= i < n && Refers(app.spec.extraConfigs[i], ref) {
      var i :| 0 <= i < n && Refers(app.spec.extraConfigs[i], ref);
      assert b.spec.extraConfigs[i] == app.spec.extraConfigs[i];
    }
  }

  lemma PspRepeats(cfg: Config, snap: Snapshot, store: Store, app: App, version: string)
    requires ParsesConstants(cfg.parse) && !Promotes(snap, app)
    requires GateOf(cfg, snap, app) == Ok(Full(version)) && PspCaseOf(cfg, snap, app).Ok?
    ensures var b := DefaultedApp(cfg, snap, store, app);
            PspCaseOf(cfg, snap, b) ==
            Ok(if PspCaseOf(cfg, snap, app).value.NotAffected? then NotAffected else AlreadyListed)
  {
    var b := DefaultedApp(cfg, snap, store, app);
    GateRepeats(cfg, snap, store, app, version);
    DefaultKeepsIdentity(cfg, snap, store, app);
    var entry := PspEntry(cfg, app);
    assert PspEntry(cfg, b) == entry && entry != ClusterValuesEntry(app);
    var added := (if WantsClusterValues(app) then [ClusterValuesEntry(app)] else [])
                 + (if PspCaseOf(cfg, snap, app) == Ok(Unlisted) then [entry] else []);
    assert b.spec.extraConfigs == app.spec.extraConfigs + added;
    assert entry in added <==> PspCaseOf(cfg, snap, app) == Ok(Unlisted) by {
      if PspCaseOf(cfg, snap, app) == Ok(Unlisted) {
        assert added[|added| - 1] == entry;
      }
    }
  }

  lemma EnsuredTwice(snap: Snapshot, store: Store, ref: ObjRef, values: string)
    requires Ensured(snap, store, ref, values).0
    ensures var after := Ensured(snap, store, ref, values).1;
            && ref in after && after[ref].data == ValuesData(values)
            && Ensured(snap, after, ref, values) == (true, after)
  {
  }

  lemma PspOutcomeRepeats(cfg: Config, snap: Snapshot, store: Store, app: App, version: string, after: Store)
    requires ParsesConstants(cfg.parse) && !Promotes(snap, app)
    requires GateOf(cfg, snap, app) == Ok(Full(version))
    requires PspOutcome(cfg, snap, store, app).result.Ok? && after == PspOutcome(cfg, snap, store, app).store
    ensures var b := DefaultedApp(cfg, snap, after, app);
            PspOutcome(cfg, snap, after, b) ==
            Outcome(Ok(if PspCaseOf(cfg, snap, app).value.NotAffected? then [] else [SetLabel(PSP_LABEL, PSP_DISABLED)]), after)
  {
    DefaultKeepsIdentity(cfg, snap, after, app);
    PspRepeats(cfg, snap, after, app, version);
    if !PspCaseOf(cfg, snap, app).value.NotAffected? {
      EnsuredTwice(snap, store, PspRef(cfg, app), PspConfigValues(cfg.patches, app.spec.name));
    }
  }

  lemma KubeConfigRepeats(cfg: Config, snap: Snapshot, store: Store, app: App, version: string)
    requires GateOf(cfg, snap, app) == Ok(Full(version)) && KubeConfigEdits(snap, app).Ok?
    ensures KubeConfigEdits(snap, DefaultedApp(cfg, snap, store, app)) == Ok([])
  {
    DefaultKeepsIdentity(cfg, snap, store, app);
  }

  lemma PinRepeats(cfg: Config, snap: Snapshot, store: Store, app: App, version: string)
    requires GateOf(cfg, snap, app) == Ok(Full(version)) && Pin(snap, store, app).Ok?
    requires SameRelease(snap, store, app, DefaultedApp(cfg, snap, store, app))
    ensures ClusterAppEdits(snap, store, DefaultedApp(cfg, snap, store, app)) == Ok([])
  {
    var b := DefaultedApp(cfg, snap, store, app);
    DefaultKeepsIdentity(cfg, snap, store, app);
    var pin := Pin(snap, store, app).value;
    if IsClusterApp(b) {
      assert IsClusterApp(app);
      assert Pin(snap, store, b) == Ok(pin);
    } else {
      assert Pin(snap, store, b) == Ok(None);
    }
    assert PinEdits(b, if IsClusterApp(b) then pin else None) == [];
  }

  /** The second call writes only annotations and labels, and only what the first call wrote. */
  lemma SecondCall(cfg: Config, snap: Snapshot, store: Store, app: App)
    requires ParsesConstants(cfg.parse) && !Promotes(snap, app)
    requires MutateOutcome(cfg, snap, store, app).result.Ok?
    requires var after := MutateOutcome(cfg, snap, store, app).store;
             SameRelease(snap, after, app, DefaultedApp(cfg, snap, after, app))
    ensures var first := MutateOutcome(cfg, snap, store, app);
            var second := MutateOutcome(cfg, snap, first.store, DefaultedApp(cfg, snap, first.store, app));
            && second.result.Ok? && second.store == first.store
            && forall e :: e in second.result.value ==>
                 e in first.result.value && (e.InitAnnotations? || e.SetLabel?)
  {
    var after := MutateOutcome(cfg, snap, store, app).store;
    match GateOf(cfg, snap, app).value
    case Skip =>
    case LabelsOnly(version) =>
      GateRepeats(cfg, snap, after, app, version);
      LabelEditsShrink(cfg, snap, after, app, version);
    case Full(version) =>
      SecondFullCall(cfg, snap, store, app, version);
  }

  lemma SecondFullCall(cfg: Config, snap: Snapshot, store: Store, app: App, version: string)
    requires ParsesConstants(cfg.parse) && !Promotes(snap, app)
    requires GateOf(cfg, snap, app) == Ok(Full(version))
    requires FullOutcome(cfg, snap, store, app, version).result.Ok?
    requires var after := FullOutcome(cfg, snap, store, app, version).store;
             SameRelease(snap, after, app, DefaultedApp(cfg, snap, after, app))
    ensures var first := FullOutcome(cfg, snap, store, app, version);
            var b := DefaultedApp(cfg, snap, first.store, app);
            var second := FullOutcome(cfg, snap, first.store, b, version);
            && GateOf(cfg, snap, b) == Ok(Full(version))
            && second.result.Ok? && second.store == first.store
            && forall e :: e in second.result.value ==>
                 e in first.result.value && (e.InitAnnotations? || e.SetLabel?)
  {
    var psp := PspOutcome(cfg, snap, store, app);
    var after := psp.store;
    var b := DefaultedApp(cfg, snap, after, app);
    GateRepeats(cfg, snap, after, app, version);
    LabelEditsShrink(cfg, snap, after, app, version);
    ClusterValuesPresent(cfg, snap, after, app, version);
    PspOutcomeEdits(cfg, snap, store, app);
    PspOutcomeRepeats(cfg, snap, store, app, version, after);
    KubeConfigRepeats(cfg, snap, after, app, version);
    PinRepeats(cfg, snap, after, app, version);
    var c := PspCaseOf(cfg, snap, app).value;
    var psp2 := if c.NotAffected? then [] else [SetLabel(PSP_LABEL, PSP_DISABLED)];
    assert c.NotAffected? || PspEdits(cfg, app, c)[0] == SetLabel(PSP_LABEL, PSP_DISABLED);
    assert !HasAppend(psp2) && !HasAppend(ClusterValuesEdits(b));
    SubsetOfFull(b, app, version, psp2, psp.result.value, KubeConfigEdits(snap, app).value,
                 ClusterAppEdits(snap, after, app).value);
  }

  lemma SubsetOfFull(b: App, app: App, version: string, psp2: seq<Edit>, psp: seq<Edit>, kube: seq<Edit>, pin: seq<Edit>)
    requires !WantsClusterValues(b) && !HasAppend(psp2) && !HasAppend(ClusterValuesEdits(b))
    requires forall e :: e in psp2 ==> e in psp && e.SetLabel?
    requires forall e :: e in Header(b) + LabelEdits(b, version) ==>
               e in Header(app) + LabelEdits(app, version) && (e.InitAnnotations? || e.SetLabel?)
    ensures forall e :: e in FullEdits(b, version, psp2, [], []) ==>
              e in FullEdits(app, version, psp, kube, pin) && (e.InitAnnotations? || e.SetLabel?)
  {
  }

  /** Convergence: one run reaches a fixed point of document and ConfigMaps, unless the run promotes the App. */
  lemma OneRunSettles(cfg: Config, snap: Snapshot, store: Store, doc: Json, app: App)
    requires ParsesConstants(cfg.parse) && Shaped(doc) && Decode(doc) == Some(app)
    requires !Promotes(snap, app)
    ensures var run := Run(cfg, snap, store, doc);
            run.Some? ==>
              var (doc1, store1) := run.value;
              && Decode(doc1).Some?
              && (SameRelease(snap, store1, app, Decode(doc1).value) ==> Run(cfg, snap, store1, doc1) == Some((doc1, store1)))
  {
    if Run(cfg, snap, store, doc).Some? {
      var (doc1, store1) := Run(cfg, snap, store, doc).value;
      RunRefines(cfg, snap, store, doc, app);
      if SameRelease(snap, store1, app, Decode(doc1).value) {
        SecondCall(cfg, snap, store, app);
        RepeatedListIsNoOp(cfg, snap, store, doc, app, store1, doc1);
      }
    }
  }

  lemma RepeatedListIsNoOp(cfg: Config, snap: Snapshot, store: Store, doc: Json, app: App, store1: Store, doc1: Json)
    requires Shaped(doc) && Decode(doc) == Some(app) && Run(cfg, snap, store, doc) == Some((doc1, store1))
    requires Shaped(doc1) && Decode(doc1).Some?
    requires var first := MutateOutcome(cfg, snap, store, app);
             var second := MutateOutcome(cfg, snap, store1, Decode(doc1).value);
             && first.result.Ok? && second.result.Ok? && second.store == store1
             && forall e :: e in second.result.value ==> e in first.result.value && (e.InitAnnotations? || e.SetLabel?)
    ensures Run(cfg, snap, store1, doc1) == Some((doc1, store1))
  {
    var first := MutateOutcome(cfg, snap, store, app).result.value;
    var second := MutateOutcome(cfg, snap, store1, Decode(doc1).value).result.value;
    EditsInOrder(cfg, snap, store, app);
    EditsInOrder(cfg, snap, store1, Decode(doc1).value);
    forall e | e in second
      ensures Settled(doc1, e)
    {
      WrittenStays(doc, first, e);
    }
    SettledListIsNoOp(doc1, second);
  }

  /** A promoted App gets labels only, and meets the full defaulting on the next run. */
  lemma PromotionIsDeferred(cfg: Config, snap: Snapshot, store: Store, app: App)
    requires ParsesConstants(cfg.parse) && Promotes(snap, app)
    ensures GateOf(cfg, snap, app) == Ok(LabelsOnly(UNIQUE_VERSION))
    ensures GateOf(cfg, snap, DefaultedApp(cfg, snap, store, app)) == Ok(Full(UNIQUE_VERSION))
  {
  }

  /** A promoted App after its first run. */
  function Promoted(app: App): App {
    app.(metadata := app.metadata.(labels := DefaultedLabels(app, UNIQUE_VERSION)))
  }

  lemma PromotionSetsLabels(cfg: Config, snap: Snapshot, store: Store, app: App)
    requires ParsesConstants(cfg.parse) && Promotes(snap, app)
    ensures MutateOutcome(cfg, snap, store, app) == Outcome(Ok(LabelsOnlyEdits(app, UNIQUE_VERSION)), store)
    ensures DefaultedApp(cfg, snap, store, app) == Promoted(app)
    ensures GateOf(cfg, snap, Promoted(app)) == Ok(Full(UNIQUE_VERSION))
    ensures Promoted(app).Label(VERSION_LABEL) == UNIQUE_VERSION
  {
    PromotionIsDeferred(cfg, snap, store, app);
    DefaultedLabelValues(cfg, snap, store, app, UNIQUE_VERSION);
  }

  /** Behind the gate there is nothing to write for a management cluster App, neither to it nor to its ConfigMap. */
  predicate NothingLeft(cfg: Config, snap: Snapshot, store: Store, app: App) {
    && !FindsKubeConfig(snap, app)
    && ClusterAppEdits(snap, store, app) == Ok([])
    && match PspCaseOf(cfg, snap, app) {
         case Ok(NotAffected) => true
         case Ok(AlreadyListed) =>
           && app.Label(PSP_LABEL) == PSP_DISABLED
           && HoldsValues(store, PspRef(cfg, app), PspConfigValues(cfg.patches, app.spec.name))
         case _ => false
       }
  }

  predicate HoldsValues(store: Store, ref: ObjRef, values: string) {
    ref in store && store[ref].data == ValuesData(values)
  }

  lemma FixedPointLeavesNothing(cfg: Config, snap: Snapshot, store: Store, app: App)
    requires GateOf(cfg, snap, app) == Ok(Full(UNIQUE_VERSION))
    requires var o := MutateOutcome(cfg, snap, store, app);
             o.result.Ok? && o.store == store && DefaultedApp(cfg, snap, store, app) == app
    ensures NothingLeft(cfg, snap, store, app)
  {
    var b := DefaultedApp(cfg, snap, store, app);
    assert b.spec.kubeConfig == DefaultedKubeConfig(snap, app);
    PspOutcomeEdits(cfg, snap, store, app);
    var c := PspCaseOf(cfg, snap, app).value;
    if !c.NotAffected? {
      EnsuredTwice(snap, store, PspRef(cfg, app), PspConfigValues(cfg.patches, app.spec.name));
      assert PSP_LABEL in b.metadata.labels && b.metadata.labels[PSP_LABEL] == PSP_DISABLED;
    }
  }

  lemma NothingLeftOutcome(cfg: Config, snap: Snapshot, store: Store, app: App)
    requires GateOf(cfg, snap, app) == Ok(Full(UNIQUE_VERSION)) && app.Label(VERSION_LABEL) == UNIQUE_VERSION
    requires MutateOutcome(cfg, snap, store, app).result.Ok? && NothingLeft(cfg, snap, store, app)
    ensures var o := MutateOutcome(cfg, snap, store, app);
            && o.store == store
            && forall e :: e in o.result.value ==>
                 || e in LabelsOnlyEdits(app, UNIQUE_VERSION)
                 || (e == SetLabel(PSP_LABEL, PSP_DISABLED) && app.Label(PSP_LABEL) == PSP_DISABLED)
  {
    PspOutcomeEdits(cfg, snap, store, app);
    var psp := PspEdits(cfg, app, PspCaseOf(cfg, snap, app).value);
    assert !HasAppend(psp) && !HasAppend(ClusterValuesEdits(app));
    assert FullEdits(app, UNIQUE_VERSION, psp, [], []) == LabelsOnlyEdits(app, UNIQUE_VERSION) + psp;
  }

  /** A label with a text is in the raw document as it decodes. */
  lemma LabelIsSettled(doc: Json, key: string, value: string)
    requires Shaped(doc) && Decode(doc).Some? && value != "" && Decode(doc).value.Label(key) == value
    ensures Settled(doc, SetLabel(key, value))
  {
    DecodeParts(doc);
    TextIsRaw(Member(Meta(doc), "labels"), key);
  }

  lemma TextIsRaw(j: Json, key: string)
    requires StrMapOf(j).Some? && key in StrMapOf(j).value && StrMapOf(j).value[key] != ""
    ensures j.JObj? && key in j.members && j.members[key] == JStr(StrMapOf(j).value[key])
  {
  }

  /**
   When one run is enough for a promoted App: exactly when the next run, on the App with its labels set,
   finds nothing to write.
   */
  lemma PromotedSettlesExactly(cfg: Config, snap: Snapshot, store: Store, doc: Json, app: App)
    requires ParsesConstants(cfg.parse) && Shaped(doc) && Decode(doc) == Some(app)
    requires Promotes(snap, app)
    ensures var run := Run(cfg, snap, store, doc);
            && run.Some? && run.value.1 == store && Decode(run.value.0) == Some(Promoted(app))
            && var again := Run(cfg, snap, store, run.value.0);
               again.Some? ==> (again == run <==> NothingLeft(cfg, snap, store, Promoted(app)))
  {
    PromotionSetsLabels(cfg, snap, store, app);
    ListRefinesDefault(cfg, snap, store, doc, app, LabelsOnlyEdits(app, UNIQUE_VERSION), store);
    RunRefines(cfg, snap, store, doc, app);
    var doc1, b := Run(cfg, snap, store, doc).value.0, Promoted(app);
    RunRefines(cfg, snap, store, doc1, b);
    if Run(cfg, snap, store, doc1) == Some((doc1, store)) {
      FixedPointLeavesNothing(cfg, snap, store, b);
    }
    if Run(cfg, snap, store, doc1).Some? && NothingLeft(cfg, snap, store, b) {
      PromotedListIsNoOp(cfg, snap, store, doc, app, doc1);
    }
  }

  lemma PromotedListIsNoOp(cfg: Config, snap: Snapshot, store: Store, doc: Json, app: App, doc1: Json)
    requires ParsesConstants(cfg.parse) && Shaped(doc) && Decode(doc) == Some(app) && Promotes(snap, app)
    requires ApplyAll(doc, ToPatches(LabelsOnlyEdits(app, UNIQUE_VERSION))) == Some(doc1)
    requires Shaped(doc1) && Decode(doc1) == Some(Promoted(app))
    requires MutateOutcome(cfg, snap, store, Promoted(app)).result.Ok? && NothingLeft(cfg, snap, store, Promoted(app))
    ensures Run(cfg, snap, store, doc1) == Some((doc1, store))
  {
    var b := Promoted(app);
    var first, second := LabelsOnlyEdits(app, UNIQUE_VERSION), MutateOutcome(cfg, snap, store, b).result.value;
    PromotionSetsLabels(cfg, snap, store, app);
    PromotionIsDeferred(cfg, snap, store, app);
    NothingLeftOutcome(cfg, snap, store, b);
    LabelEditsShrink(cfg, snap, store, app, UNIQUE_VERSION);
    EditsInOrder(cfg, snap, store, app);
    EditsInOrder(cfg, snap, store, b);
    forall e | e in second
      ensures Settled(doc1, e)
    {
      if e in LabelsOnlyEdits(b, UNIQUE_VERSION) {
        WrittenStays(doc, first, e);
      } else {
        LabelIsSettled(doc1, PSP_LABEL, PSP_DISABLED);
      }
    }
    SettledListIsNoOp(doc1, second);
  }

  lemma NeverPromotedTwice(cfg: Config, snap: Snapshot, store: Store, app: App)
    requires ParsesConstants(cfg.parse) && GateOf(cfg, snap, app).Ok?
    ensures !Promotes(snap, DefaultedApp(cfg, snap, store, app))
  {
    DefaultKeepsIdentity(cfg, snap, store, app);
    if Promotes(snap, app) {
      PromotionIsDeferred(cfg, snap, store, app);
      DefaultedLabelValues(cfg, snap, store, app, UNIQUE_VERSION);
      assert UNIQUE_VERSION[0] != LEGACY_VERSION[0];
    } else {
      match GateOf(cfg, snap, app).value
      case Skip =>
      case LabelsOnly(version) => DefaultedLabelValues(cfg, snap, store, app, version);
      case Full(version) => DefaultedLabelValues(cfg, snap, store, app, version);
    }
  }

  /** In every case two runs are enough. */
  lemma TwoRunsSettle(cfg: Config, snap: Snapshot, store: Store, doc: Json)
    requires ParsesConstants(cfg.parse) && Shaped(doc) && Decode(doc).Some?
    ensures var run := Run(cfg, snap, store, doc);
            run.Some? ==>
              var (doc1, store1) := run.value;
              var again := Run(cfg, snap, store1, doc1);
              again.Some? ==>
                var (doc2, store2) := again.value;
                && Decode(doc1).Some? && Decode(doc2).Some?
                && (SameRelease(snap, store2, Decode(doc1).value, Decode(doc2).value) ==>
                    Run(cfg, snap, store2, doc2) == Some((doc2, store2)))
  {
    if Run(cfg, snap, store, doc).Some? {
      var (doc1, store1) := Run(cfg, snap, store, doc).value;
      RunRefines(cfg, snap, store, doc, Decode(doc).value);
      NeverPromotedTwice(cfg, snap, store1, Decode(doc).value);
      OneRunSettles(cfg, snap, store1, doc1, Decode(doc1).value);
    }
  }
}
