/** The patch list as a compilation of `DefaultedApp`: it applies, it refines, and nothing in it is undone. */
module Refinement {
  import opened Wrappers
  import opened Apps
  import opened Clusters
  import opened Edits
  import opened EditLists
  import opened Defaulting

  // ---------------------------------------------------------------- effects of the parts

  lemma EditAllShort(a: App, e: Edit, f: Edit)
    ensures EditAll(a, [e]) == EditApp(a, e)
    ensures EditAll(a, [e, f]) == EditApp(EditApp(a, e), f)
  {
    assert [e, f][1..] == [f] && [f][1..] == [] && [e][1..] == [];
    assert EditAll(EditApp(a, e), [f]) == EditApp(EditApp(a, e), f);
  }

  lemma OptionalEdit(a: App, p: bool, e: Edit, q: bool, f: Edit)
    ensures EditAll(a, (if p then [e] else []) + (if q then [f] else [])) ==
            var b := if p then EditApp(a, e) else a; if q then EditApp(b, f) else b
  {
    EditAllConcat(a, if p then [e] else [], if q then [f] else []);
    EditAllShort(a, e, f);
    EditAllShort(if p then EditApp(a, e) else a, f, e);
  }

  lemma HeaderEffect(app: App)
    ensures EditAll(app, Header(app)) == app
  {
    OptionalEdit(app, app.metadata.annotations == map[], InitAnnotations, app.metadata.labels == map[], InitLabels);
  }

  lemma LabelEffect(app: App, version: string)
    ensures EditAll(app, LabelEdits(app, version)) ==
            app.(metadata := app.metadata.(labels := DefaultedLabels(app, version)))
  {
    OptionalEdit(app, WantsNameLabel(app), SetLabel(NAME_LABEL, app.spec.name),
                 WantsVersionLabel(app, version), SetLabel(VERSION_LABEL, version));
    OptionalLabel(app.metadata.labels, WantsNameLabel(app), NAME_LABEL, app.spec.name);
    var labels := app.metadata.labels + if WantsNameLabel(app) then map[NAME_LABEL := app.spec.name] else map[];
    OptionalLabel(labels, WantsVersionLabel(app, version), VERSION_LABEL, version);
  }

  lemma OptionalLabel(labels: map<string, string>, p: bool, key: string, value: string)
    ensures labels + (if p then map[key := value] else map[]) == if p then labels[key := value] else labels
  {
  }

  lemma LabelsOnlyEffect(app: App, version: string)
    ensures EditAll(app, Header(app) + LabelEdits(app, version)) ==
            app.(metadata := app.metadata.(labels := DefaultedLabels(app, version)))
  {
    EditAllConcat(app, Header(app), LabelEdits(app, version));
    HeaderEffect(app);
    LabelEffect(app, version);
  }

  lemma ClusterValuesEffect(a: App, app: App)
    ensures EditAll(a, ClusterValuesEdits(app)) ==
            a.(spec := a.spec.(extraConfigs :=
              a.spec.extraConfigs + if WantsClusterValues(app) then [ClusterValuesEntry(app)] else []))
  {
  }

  lemma PspEffect(cfg: Config, a: App, app: App, c: PspCase)
    ensures EditAll(a, PspEdits(cfg, app, c)) ==
            a.(metadata := a.metadata.(labels :=
                 a.metadata.labels + if c.NotAffected? then map[] else map[PSP_LABEL := PSP_DISABLED]),
               spec := a.spec.(extraConfigs :=
                 a.spec.extraConfigs + if c.Unlisted? then [PspEntry(cfg, app)] else []))
  {
    EditAllShort(a, SetLabel(PSP_LABEL, PSP_DISABLED), AppendExtraConfig(PspEntry(cfg, app)));
    assert a.spec.extraConfigs + [] == a.spec.extraConfigs;
    assert a.metadata.labels + map[] == a.metadata.labels;
  }

  lemma PspOutcomeEdits(cfg: Config, snap: Snapshot, store: Store, app: App)
    requires PspOutcome(cfg, snap, store, app).result.Ok?
    ensures PspCaseOf(cfg, snap, app).Ok?
    ensures PspOutcome(cfg, snap, store, app).result.value == PspEdits(cfg, app, PspCaseOf(cfg, snap, app).value)
  {
  }

  /** The guard of the branch that writes below `/spec/kubeConfig`. */
  predicate FindsKubeConfig(snap: Snapshot, app: App) {
    var namespace := KubeConfigNamespace(snap, app.Namespace(), app.KubeConfigSecretName());
    WantsKubeConfig(app) && namespace.Ok? && namespace.value != ""
  }

  lemma KubeConfigShape(snap: Snapshot, app: App)
    requires KubeConfigEdits(snap, app).Ok?
    ensures KubeConfigEdits(snap, app).value ==
            if FindsKubeConfig(snap, app) then
              (if app.spec.kubeConfig.contextName == "" then [SetContext(app.ClusterName())] else []) +
              [SetKubeSecret(ObjRef(app.KubeConfigSecretName(),
                                    KubeConfigNamespace(snap, app.Namespace(), app.KubeConfigSecretName()).value))]
            else []
  {
  }

  lemma KubeConfigEffect(snap: Snapshot, a: App, app: App)
    requires KubeConfigEdits(snap, app).Ok? && a.spec.kubeConfig == app.spec.kubeConfig
    ensures EditAll(a, KubeConfigEdits(snap, app).value) ==
            a.(spec := a.spec.(kubeConfig := DefaultedKubeConfig(snap, app)))
  {
    KubeConfigShape(snap, app);
    if FindsKubeConfig(snap, app) {
      var namespace := KubeConfigNamespace(snap, app.Namespace(), app.KubeConfigSecretName()).value;
      OptionalEdit(a, app.spec.kubeConfig.contextName == "", SetContext(app.ClusterName()),
                   true, SetKubeSecret(ObjRef(app.KubeConfigSecretName(), namespace)));
    }
  }

  lemma PinEffect(a: App, app: App, pin: Option<Component>)
    requires a.spec.version == app.spec.version && a.spec.catalog == app.spec.catalog
    ensures EditAll(a, PinEdits(app, pin)) ==
            if pin.None? then a else a.(spec := a.spec.(version := pin.value.version, catalog := pin.value.catalog))
  {
    if pin.Some? {
      OptionalEdit(a, app.spec.version != pin.value.version, SetVersion(pin.value.version),
                   app.spec.catalog != pin.value.catalog, SetCatalog(pin.value.catalog));
    }
  }

  lemma FullEffect(cfg: Config, snap: Snapshot, app: App, version: string, c: PspCase, pin: Option<Component>)
    requires KubeConfigEdits(snap, app).Ok?
    ensures EditAll(app, FullEdits(app, version, PspEdits(cfg, app, c), KubeConfigEdits(snap, app).value, PinEdits(app, pin))) ==
            app.(metadata := app.metadata.(labels :=
                   DefaultedLabels(app, version) + if c.NotAffected? then map[] else map[PSP_LABEL := PSP_DISABLED]),
                 spec := app.spec.(
                   extraConfigs := app.spec.extraConfigs
                                   + (if WantsClusterValues(app) then [ClusterValuesEntry(app)] else [])
                                   + (if c.Unlisted? then [PspEntry(cfg, app)] else []),
                   kubeConfig := DefaultedKubeConfig(snap, app),
                   version := if pin.Some? then pin.value.version else app.spec.version,
                   catalog := if pin.Some? then pin.value.catalog else app.spec.catalog))
  {
    var psp, kube, pins := PspEdits(cfg, app, c), KubeConfigEdits(snap, app).value, PinEdits(app, pin);
    var l1 := Header(app) + LabelEdits(app, version);
    var l2 := l1 + InitEdits(app, psp);
    var l3 := l2 + ClusterValuesEdits(app);
    var l4 := l3 + psp;
    var l5 := l4 + kube;
    LabelsOnlyEffect(app, version);
    var a1 := EditAll(app, l1);
    EditAllConcat(app, l1, InitEdits(app, psp));
    EditAllShort(a1, InitExtraConfigs, InitExtraConfigs);
    assert EditAll(app, l2) == a1;
    EditAllConcat(app, l2, ClusterValuesEdits(app));
    ClusterValuesEffect(a1, app);
    var a3 := EditAll(app, l3);
    EditAllConcat(app, l3, psp);
    PspEffect(cfg, a3, app, c);
    var a4 := EditAll(app, l4);
    EditAllConcat(app, l4, kube);
    KubeConfigEffect(snap, a4, app);
    var a5 := EditAll(app, l5);
    EditAllConcat(app, l5, pins);
    PinEffect(a5, app, pin);
  }

  /** Edited one by one, the App ends up as the direct definition says. */
  lemma EditsReachDefault(cfg: Config, snap: Snapshot, store: Store, app: App)
    requires MutateOutcome(cfg, snap, store, app).result.Ok?
    ensures var o := MutateOutcome(cfg, snap, store, app);
            EditAll(app, o.result.value) == DefaultedApp(cfg, snap, o.store, app)
  {
    var gate := GateOf(cfg, snap, app).value;
    match gate
    case Skip =>
    case LabelsOnly(version) =>
      LabelsOnlyEffect(app, version);
    case Full(version) =>
      PspOutcomeEdits(cfg, snap, store, app);
      var o := PspOutcome(cfg, snap, store, app);
      FullEffect(cfg, snap, app, version, PspCaseOf(cfg, snap, app).value, Pin(snap, o.store, app).value);
  }

  // ---------------------------------------------------------------- order

  /** One number per location a patch may name. */
  function Slot(e: Edit): nat {
    match e
    case InitAnnotations => 0
    case InitLabels => 1
    case SetLabel(k, _) => if k == NAME_LABEL then 2 else if k == VERSION_LABEL then 3 else 4
    case InitExtraConfigs => 5
    case AppendExtraConfig(_) => 6
    case SetContext(_) => 7
    case SetKubeSecret(_) => 8
    case SetVersion(_) => 9
    case SetCatalog(_) => 10
  }

  lemma UndisturbedBySlot(e: Edit, f: Edit)
    requires (e.AppendExtraConfig? && f.AppendExtraConfig?) || Slot(e) != Slot(f)
    requires !(f.InitLabels? && e.SetLabel?) && !(f.InitExtraConfigs? && e.AppendExtraConfig?)
    ensures Undisturbed(e, f)
  {
    if Tokens(f) <= Tokens(e) {
      assert Tokens(f)[0] == Tokens(e)[0] && Tokens(f)[1] == Tokens(e)[1];
      assert "metadata"[0] != "spec"[0] && "annotations"[0] != "labels"[0] && "version"[0] != "catalog"[0];
      assert "extraConfigs"[0] != "kubeConfig"[0] && "kubeConfig"[0] != "version"[0] && "kubeConfig"[0] != "catalog"[0];
      assert "extraConfigs"[0] != "version"[0] && "extraConfigs"[0] != "catalog"[0] && "context"[0] != "secret"[0];
      if |Tokens(f)| == 3 {
        assert Tokens(f)[2] == Tokens(e)[2];
      }
    }
  }

  predicate Within(edits: seq<Edit>, slots: set<nat>) {
    && NoneDisturbed(edits)
    && AllWellFormed(edits)
    && forall e :: e in edits ==> Slot(e) in slots
  }

  lemma WithinConcat(a: seq<Edit>, s: set<nat>, b: seq<Edit>, t: set<nat>)
    requires Within(a, s) && Within(b, t)
    requires s * t <= {6} && 1 !in t && (5 in t ==> 6 !in s)
    ensures Within(a + b, s + t)
  {
    forall e, f | e in a && f in b
      ensures Undisturbed(e, f)
    {
      assert Slot(e) == Slot(f) ==> Slot(e) in s * t;
      UndisturbedBySlot(e, f);
    }
    NoneDisturbedConcat(a, b);
  }

  lemma WithinShort(p: bool, e: Edit, q: bool, f: Edit)
    requires WellFormed(e) && WellFormed(f) && Slot(e) < Slot(f)
    ensures Within((if p then [e] else []) + (if q then [f] else []), {Slot(e), Slot(f)})
  {
    if p && q {
      UndisturbedBySlot(e, f);
    }
  }

  lemma HeaderWithin(app: App, version: string)
    ensures Within(Header(app) + LabelEdits(app, version), {0, 1} + {2, 3})
  {
    DistinctLabels();
    WithinShort(app.metadata.annotations == map[], InitAnnotations, app.metadata.labels == map[], InitLabels);
    WithinShort(WantsNameLabel(app), SetLabel(NAME_LABEL, app.spec.name),
                WantsVersionLabel(app, version), SetLabel(VERSION_LABEL, version));
    WithinConcat(Header(app), {0, 1}, LabelEdits(app, version), {2, 3});
  }

  lemma PspWithin(cfg: Config, app: App, c: PspCase)
    ensures Within(PspEdits(cfg, app, c), {4, 6})
  {
    DistinctLabels();
    var entry := PspEntry(cfg, app);
    WithinShort(!c.NotAffected?, SetLabel(PSP_LABEL, PSP_DISABLED), c.Unlisted?, AppendExtraConfig(entry));
    assert PspEdits(cfg, app, c) == (if !c.NotAffected? then [SetLabel(PSP_LABEL, PSP_DISABLED)] else [])
                                    + (if c.Unlisted? then [AppendExtraConfig(entry)] else []);
  }

  lemma KubeConfigWithin(snap: Snapshot, app: App)
    requires KubeConfigEdits(snap, app).Ok?
    ensures Within(KubeConfigEdits(snap, app).value, {7, 8})
  {
    KubeConfigShape(snap, app);
    if FindsKubeConfig(snap, app) {
      var namespace := KubeConfigNamespace(snap, app.Namespace(), app.KubeConfigSecretName()).value;
      WithinShort(app.spec.kubeConfig.contextName == "", SetContext(app.ClusterName()),
                  true, SetKubeSecret(ObjRef(app.KubeConfigSecretName(), namespace)));
    }
  }

  lemma PinWithin(app: App, pin: Option<Component>)
    ensures Within(PinEdits(app, pin), {9, 10})
  {
    if pin.Some? {
      WithinShort(app.spec.version != pin.value.version, SetVersion(pin.value.version),
                  app.spec.catalog != pin.value.catalog, SetCatalog(pin.value.catalog));
    }
  }

  lemma PartsWithin(cfg: Config, snap: Snapshot, app: App, c: PspCase, pin: Option<Component>)
    requires KubeConfigEdits(snap, app).Ok?
    ensures Within(ClusterValuesEdits(app), {6})
    ensures Within(PspEdits(cfg, app, c), {4, 6})
    ensures Within(KubeConfigEdits(snap, app).value, {7, 8})
    ensures Within(PinEdits(app, pin), {9, 10})
  {
    PspWithin(cfg, app, c);
    KubeConfigWithin(snap, app);
    PinWithin(app, pin);
  }

  lemma SixWithin(a: seq<Edit>, b: seq<Edit>, c: seq<Edit>, d: seq<Edit>, e: seq<Edit>, f: seq<Edit>)
    requires Within(a, {0, 1, 2, 3}) && Within(b, {5}) && Within(c, {6}) && Within(d, {4, 6})
    requires Within(e, {7, 8}) && Within(f, {9, 10})
    ensures NoneDisturbed(a + b + c + d + e + f) && AllWellFormed(a + b + c + d + e + f)
  {
    var s: set<nat> := {0, 1, 2, 3};
    WithinConcat(a, s, b, {5});
    WithinConcat(a + b, s + {5}, c, {6});
    WithinConcat(a + b + c, s + {5} + {6}, d, {4, 6});
    WithinConcat(a + b + c + d, s + {5} + {6} + {4, 6}, e, {7, 8});
    WithinConcat(a + b + c + d + e, s + {5} + {6} + {4, 6} + {7, 8}, f, {9, 10});
  }

  lemma FullWithin(cfg: Config, snap: Snapshot, app: App, version: string, c: PspCase, pin: Option<Component>)
    requires KubeConfigEdits(snap, app).Ok?
    ensures var edits := FullEdits(app, version, PspEdits(cfg, app, c), KubeConfigEdits(snap, app).value, PinEdits(app, pin));
            NoneDisturbed(edits) && AllWellFormed(edits)
  {
    var psp, kube, pins := PspEdits(cfg, app, c), KubeConfigEdits(snap, app).value, PinEdits(app, pin);
    HeaderWithin(app, version);
    PartsWithin(cfg, snap, app, c, pin);
    assert {0, 1} + {2, 3} == {0, 1, 2, 3};
    SixWithin(Header(app) + LabelEdits(app, version), InitEdits(app, psp), ClusterValuesEdits(app), psp, kube, pins);
  }

  lemma EditsInOrder(cfg: Config, snap: Snapshot, store: Store, app: App)
    requires MutateOutcome(cfg, snap, store, app).result.Ok?
    ensures var edits := MutateOutcome(cfg, snap, store, app).result.value;
            NoneDisturbed(edits) && AllWellFormed(edits)
  {
    match GateOf(cfg, snap, app).value
    case Skip =>
    case LabelsOnly(version) =>
      HeaderWithin(app, version);
    case Full(version) =>
      PspOutcomeEdits(cfg, snap, store, app);
      var o := PspOutcome(cfg, snap, store, app);
      FullWithin(cfg, snap, app, version, PspCaseOf(cfg, snap, app).value, Pin(snap, o.store, app).value);
  }
}
