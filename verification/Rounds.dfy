/** Any number of admissions of one document, with everything else in the cluster changing freely in between. */
module Rounds {
  import opened Wrappers
  import opened Json
  import opened Apps
  import opened Clusters
  import opened Edits
  import opened Defaulting
  import opened Convergence

  /** A round whose call fails, or whose patches are rejected, leaves the document alone. */
  function AfterRound(cfg: Config, snap: Snapshot, store: Store, doc: Json): Json {
    match Run(cfg, snap, store, doc)
    case None => doc
    case Some((patched, _)) => patched
  }

  function AfterRounds(cfg: Config, rounds: seq<(Snapshot, Store)>, doc: Json): Json
    decreases |rounds|
  {
    if rounds == [] then doc
    else AfterRounds(cfg, rounds[1..], AfterRound(cfg, rounds[0].0, rounds[0].1, doc))
  }

  lemma RoundDefaults(cfg: Config, snap: Snapshot, store: Store, doc: Json)
    requires Shaped(doc) && Decode(doc).Some?
    ensures var next := AfterRound(cfg, snap, store, doc);
            && Shaped(next) && Decode(next).Some?
            && var a, b := Decode(doc).value, Decode(next).value;
               b == a || exists after :: b == DefaultedApp(cfg, snap, after, a)
  {
    RunRefines(cfg, snap, store, doc, Decode(doc).value);
  }

  // ---------------------------------------------------------------- bounded growth

  /** `now` is `base` with at most one of each of two entries behind it, neither of which `base` held. */
  predicate Grown(c: ExtraConfig, p: ExtraConfig, base: seq<ExtraConfig>, now: seq<ExtraConfig>, added: seq<ExtraConfig>) {
    && now == base + added
    && (added == [] || added == [c] || added == [p] || added == [c, p] || added == [p, c])
    && (c in added ==> c !in base)
    && (p in added ==> p !in base)
  }

  lemma GrownOnce(c: ExtraConfig, p: ExtraConfig, base: seq<ExtraConfig>, now: seq<ExtraConfig>, added: seq<ExtraConfig>,
                  next: ExtraConfig)
    requires c != p && Grown(c, p, base, now, added)
    requires (next == c || next == p) && next !in now
    ensures Grown(c, p, base, now + [next], added + [next])
  {
  }

  predicate GrownBy(cfg: Config, first: App, now: App, added: seq<ExtraConfig>) {
    Grown(ClusterValuesEntry(first), PspEntry(cfg, first), first.spec.extraConfigs, now.spec.extraConfigs, added)
  }

  lemma IdentityTransitive(a: App, b: App, c: App)
    requires SameIdentity(a, b) && SameIdentity(b, c)
    ensures SameIdentity(a, c)
  {
  }

  /** What one defaulting does to the list: each entry is appended only where it is missing. */
  lemma DefaultingAppends(cfg: Config, snap: Snapshot, after: Store, app: App) returns (values: bool, psp: bool)
    ensures DefaultedApp(cfg, snap, after, app).spec.extraConfigs ==
            app.spec.extraConfigs + (if values then [ClusterValuesEntry(app)] else [])
            + (if psp then [PspEntry(cfg, app)] else [])
    ensures values ==> ClusterValuesEntry(app) !in app.spec.extraConfigs
    ensures psp ==> PspEntry(cfg, app) !in app.spec.extraConfigs
  {
    var gate := GateOf(cfg, snap, app);
    var full := gate.Ok? && gate.value.Full?;
    values := full && WantsClusterValues(app);
    psp := full && PspCaseOf(cfg, snap, app) == Ok(Unlisted);
    var ref := ObjRef(app.ClusterConfigMapName(), app.Namespace());
    if values {
      forall i | 0 <= i < |app.spec.extraConfigs|
        ensures app.spec.extraConfigs[i] != ClusterValuesEntry(app)
      {
        assert !Refers(app.spec.extraConfigs[i], ref);
      }
    }
  }

  lemma GrowthStep(cfg: Config, snap: Snapshot, after: Store, first: App, now: App, added: seq<ExtraConfig>)
    returns (added': seq<ExtraConfig>)
    requires SameIdentity(first, now) && GrownBy(cfg, first, now, added)
    ensures GrownBy(cfg, first, DefaultedApp(cfg, snap, after, now), added')
  {
    var c, p := ClusterValuesEntry(first), PspEntry(cfg, first);
    assert c == ClusterValuesEntry(now) && p == PspEntry(cfg, now) && c != p;
    var values, psp := DefaultingAppends(cfg, snap, after, now);
    var list := now.spec.extraConfigs;
    added' := added;
    if values {
      GrownOnce(c, p, first.spec.extraConfigs, list, added', c);
      added' := added' + [c];
      list := list + [c];
    }
    if psp {
      GrownOnce(c, p, first.spec.extraConfigs, list, added', p);
      added' := added' + [p];
      list := list + [p];
    }
    assert list == DefaultedApp(cfg, snap, after, now).spec.extraConfigs;
  }

  lemma {:induction false} GrowthOverRounds(cfg: Config, rounds: seq<(Snapshot, Store)>, first: App, doc: Json,
                                            added: seq<ExtraConfig>) returns (added': seq<ExtraConfig>)
    requires Shaped(doc) && Decode(doc).Some?
    requires SameIdentity(first, Decode(doc).value) && GrownBy(cfg, first, Decode(doc).value, added)
    ensures var last := AfterRounds(cfg, rounds, doc);
            Decode(last).Some? && GrownBy(cfg, first, Decode(last).value, added')
    decreases |rounds|
  {
    added' := added;
    if rounds != [] {
      var (snap, store) := rounds[0];
      RoundDefaults(cfg, snap, store, doc);
      var now := Decode(doc).value;
      var next := AfterRound(cfg, snap, store, doc);
      if Decode(next).value != now {
        var after :| Decode(next).value == DefaultedApp(cfg, snap, after, now);
        DefaultKeepsIdentity(cfg, snap, after, now);
        IdentityTransitive(first, now, Decode(next).value);
        added' := GrowthStep(cfg, snap, after, first, now, added);
      }
      added' := GrowthOverRounds(cfg, rounds[1..], first, next, added');
    }
  }

  /** Bounded growth: the original list stays in front, and at most one of each entry is ever put behind it. */
  lemma GrowthIsBounded(cfg: Config, rounds: seq<(Snapshot, Store)>, doc: Json)
    requires Shaped(doc) && Decode(doc).Some?
    ensures var first, last := Decode(doc).value, Decode(AfterRounds(cfg, rounds, doc));
            last.Some? && exists added :: GrownBy(cfg, first, last.value, added) && |added| <= 2
  {
    var first := Decode(doc).value;
    assert GrownBy(cfg, first, first, []);
    var added := GrowthOverRounds(cfg, rounds, first, doc, []);
    assert GrownBy(cfg, first, Decode(AfterRounds(cfg, rounds, doc)).value, added);
  }

  // ---------------------------------------------------------------- write-once fields

  /** From `a` to `b` no settled field has changed, and no foreign label. */
  predicate Frozen(a: App, b: App) {
    && (!a.HasDefaultableVersion() ==> b.Label(VERSION_LABEL) == a.Label(VERSION_LABEL))
    && (a.Label(NAME_LABEL) != "" ==> b.Label(NAME_LABEL) == a.Label(NAME_LABEL))
    && (a.spec.kubeConfig.secret != NO_REF ==> b.spec.kubeConfig.secret == a.spec.kubeConfig.secret)
    && (a.spec.kubeConfig.contextName != "" ==> b.spec.kubeConfig.contextName == a.spec.kubeConfig.contextName)
    && (forall k :: k in a.metadata.labels && k !in MANAGED_LABELS ==>
          k in b.metadata.labels && b.metadata.labels[k] == a.metadata.labels[k])
    && (forall k :: k in b.metadata.labels && k !in MANAGED_LABELS ==> k in a.metadata.labels)
  }

  lemma FrozenTransitive(a: App, b: App, c: App)
    requires Frozen(a, b) && Frozen(b, c)
    ensures Frozen(a, c)
  {
  }

  lemma DefaultingFreezes(cfg: Config, snap: Snapshot, after: Store, app: App)
    ensures Frozen(app, DefaultedApp(cfg, snap, after, app))
  {
    var b := DefaultedApp(cfg, snap, after, app);
    DistinctLabels();
    match GateOf(cfg, snap, app)
    case Ok(Full(version)) =>
      DefaultedLabelValues(cfg, snap, after, app, version);
    case Ok(LabelsOnly(version)) =>
      DefaultedLabelValues(cfg, snap, after, app, version);
    case _ =>
  }

  /** Write-once: over any number of rounds a field that holds a value keeps it. */
  lemma {:induction false} SettledFieldsNeverChange(cfg: Config, rounds: seq<(Snapshot, Store)>, doc: Json)
    requires Shaped(doc) && Decode(doc).Some?
    ensures var last := Decode(AfterRounds(cfg, rounds, doc));
            last.Some? && Frozen(Decode(doc).value, last.value)
    decreases |rounds|
  {
    if rounds != [] {
      var (snap, store) := rounds[0];
      RoundDefaults(cfg, snap, store, doc);
      var next := AfterRound(cfg, snap, store, doc);
      var a, b := Decode(doc).value, Decode(next).value;
      if b != a {
        var after :| b == DefaultedApp(cfg, snap, after, a);
        DefaultingFreezes(cfg, snap, after, a);
      }
      SettledFieldsNeverChange(cfg, rounds[1..], next);
      FrozenTransitive(a, b, Decode(AfterRounds(cfg, rounds[1..], next)).value);
    }
  }
}
