/** The validating webhook, and its agreement with the mutating one. */
module Validator {
  import opened Wrappers
  import opened Json
  import opened Apps
  import opened Clusters
  import opened Edits
  import opened Defaulting
  import opened Refinement
  import opened Requests
  import opened Semver
  import opened Events
  import opened PatchList
  import opened Convergence
  import Inspector

  /** The validations behind the gates belong to a library; they may answer anything. */
  datatype Checks = Checks(app: App -> Result<bool>, update: (App, App) -> Result<bool>)

  /** Answers and errors travel side by side: an unreadable old object allows the update and reports an error. */
  datatype Verdict = Verdict(allowed: bool, error: Option<Error>)

  /** The version gates: whether an App is validated at all. */
  predicate PassesGates(parse: string -> Option<Version>, app: App) {
    var version := parse(app.Label(VERSION_LABEL));
    app.ManagedInOrg() || (version.Some? && (app.Label(VERSION_LABEL) == UNIQUE_VERSION || version.value.major >= 3))
  }

  predicate Inspected(app: App) {
    app.Label(VERSION_LABEL) == UNIQUE_VERSION
  }

  class Validator {
    const parse: string -> Option<Version>
    const checks: Checks
    const inspector: Inspector.Inspector
    const recorder: Recorder

    constructor (parse: string -> Option<Version>, checks: Checks, inspector: Inspector.Inspector, recorder: Recorder)
      ensures this.parse == parse && this.checks == checks && this.inspector == inspector && this.recorder == recorder
    {
      this.parse, this.checks, this.inspector, this.recorder := parse, checks, inspector, recorder;
    }

    method Validate(request: Request) returns (verdict: Verdict)
      requires inspector.Valid() && inspector as object != recorder
      modifies recorder
      // In front of the checks: unreadable, deleted and ungated objects, and those the inspector rejects.
      ensures Decode(request.newDoc).None? ==> verdict == Verdict(false, Some(ParsingFailed))
      ensures var app := Decode(request.newDoc);
              app.Some? && ((request.operation == Update && app.value.metadata.deleting) || !PassesGates(parse, app.value)) ==>
                verdict == Verdict(true, None)
      ensures var app := Decode(request.newDoc);
              app.Some? && !(request.operation == Update && app.value.metadata.deleting) && PassesGates(parse, app.value) &&
              app.value.Label(VERSION_LABEL) == "0.0.0" && Inspector.Rejects(inspector.raw, app.value, request.user) ==>
                && !verdict.allowed && verdict.error.Some?
                && if Inspector.ForbiddenApp(inspector.raw, app.value)
                   then verdict.error.value == AppNotAllowed(app.value.spec.name, app.value.spec.catalog)
                   else verdict.error.value.ReferenceNotAllowed? &&
                        Inspector.Reported(inspector.raw, Inspector.References(app.value), verdict.error.value.namespace)
      // The checks: allowed without error exactly when every check that applies agrees, and each failure is reported as such.
      ensures var app, current := Decode(request.newDoc), Decode(request.oldDoc);
              app.Some? && !(request.operation == Update && app.value.metadata.deleting) && PassesGates(parse, app.value) &&
              !(app.value.Label(VERSION_LABEL) == "0.0.0" && Inspector.Rejects(inspector.raw, app.value, request.user)) ==>
                && (verdict == Verdict(true, None) <==>
                    && checks.app(app.value) == Ok(true)
                    && (request.operation == Update ==> current.Some? && checks.update(app.value, current.value).Ok?))
                && (checks.app(app.value).Err? ==> verdict == Verdict(false, Some(checks.app(app.value).error)))
                && (checks.app(app.value).Ok? && request.operation == Update && current.None? ==>
                      verdict == Verdict(true, Some(ParsingFailed)))
                && (checks.app(app.value).Ok? && request.operation == Update && current.Some? &&
                    checks.update(app.value, current.value).Err? ==>
                      verdict == Verdict(false, Some(checks.update(app.value, current.value).error)))
                && (checks.app(app.value) == Ok(false) &&
                    (request.operation == Update ==> current.Some? && checks.update(app.value, current.value).Ok?) ==>
                      verdict == Verdict(false, None))
      // Events come with an update that reaches the checks and raises no error, and with nothing else.
      ensures var (app, current, before) := (Decode(request.newDoc), Decode(request.oldDoc), old(recorder.events));
              if request.operation == Update && verdict.error.None? &&
                 app.Some? && !app.value.metadata.deleting && PassesGates(parse, app.value)
              then && current.Some? && before <= recorder.events
                   && multiset(recorder.events[|before|..]) ==
                      multiset(Expected(COMPARE, COMPARE.Keys, app.value, current.value))
              else recorder.events == before
    {
      var decoded := Decode(request.newDoc);
      if decoded.None? {
        return Verdict(false, Some(ParsingFailed));
      }
      var app := decoded.value;
      if request.operation == Update && app.metadata.deleting {
        return Verdict(true, None);
      }
      var isManagedInOrg := !app.spec.kubeConfig.inCluster && app.InOrgNamespace();
      var ver := parse(app.Label(VERSION_LABEL));
      if !isManagedInOrg && ver.None? {
        return Verdict(true, None);
      }
      if !isManagedInOrg && app.Label(VERSION_LABEL) != UNIQUE_VERSION && ver.value.major < 3 {
        return Verdict(true, None);
      }
      if app.Label(VERSION_LABEL) == UNIQUE_VERSION {
        var err := inspector.Inspect(app, request.user);
        if err.Some? {
          return Verdict(false, err);
        }
      }
      var appAllowed := checks.app(app);
      if appAllowed.Err? {
        return Verdict(false, Some(appAllowed.error));
      }
      if request.operation == Update {
        var currentApp := Decode(request.oldDoc);
        if currentApp.None? {
          return Verdict(true, Some(ParsingFailed));
        }
        var updateAllowed := checks.update(app, currentApp.value);
        if updateAllowed.Err? {
          return Verdict(false, Some(updateAllowed.error));
        }
        var emitted := EmitChanges(recorder, COMPARE, app, currentApp.value);
      }
      return Verdict(appAllowed.value, None);
    }
  }

  /** The gates of both webhooks, on an App before and after a successful call. */
  lemma GatesAgreeOnApps(cfg: Config, snap: Snapshot, after: Store, app: App)
    requires ParsesConstants(cfg.parse) && GateOf(cfg, snap, app).Ok?
    ensures (PassesGates(cfg.parse, DefaultedApp(cfg, snap, after, app)) <==> GateOf(cfg, snap, app).value.Full?) <==>
            !Promotes(snap, app)
  {
    DefaultKeepsIdentity(cfg, snap, after, app);
    if Promotes(snap, app) {
      PromotionIsDeferred(cfg, snap, after, app);
      DefaultedLabelValues(cfg, snap, after, app, UNIQUE_VERSION);
    } else {
      match GateOf(cfg, snap, app).value
      case Skip =>
        assert UNIQUE_VERSION[0] != LEGACY_VERSION[0];
      case LabelsOnly(version) =>
        DefaultedLabelValues(cfg, snap, after, app, version);
      case Full(version) =>
        DefaultedLabelValues(cfg, snap, after, app, version);
    }
  }

  /**
   Webhook agreement: for a request that is neither a dry run nor a deletion, the patched App passes the
   validator's gates if and only if the mutator took the full path. It fails exactly for an App whose
   version label is to be defaulted from a chart-operator labelled 0.0.0.
   */
  lemma WebhooksAgree(cfg: Config, snap: Snapshot, store: Store, request: Request, app: App)
    requires ParsesConstants(cfg.parse) && Shaped(request.newDoc) && Decode(request.newDoc) == Some(app)
    requires Decode(request.oldDoc).Some? && !request.dryRun && !Deleting(request.operation, app)
    ensures var answer := RequestOutcome(cfg, snap, store, request).result;
            answer.Ok? ==>
              var patched := ApplyAll(request.newDoc, ToPatches(answer.value));
              patched.Some? ==>
                && Decode(patched.value).Some?
                && ((PassesGates(cfg.parse, Decode(patched.value).value) <==> GateOf(cfg, snap, app).value.Full?) <==>
                    !Promotes(snap, app))
  {
    var o := MutateOutcome(cfg, snap, store, app);
    if o.result.Ok? {
      ListRefinesDefault(cfg, snap, store, request.newDoc, app, o.result.value, o.store);
      GatesAgreeOnApps(cfg, snap, o.store, app);
    }
  }

  // ---------------------------------------------------------------- defaulting under inspection

  /** What defaulting put into an App offends a policy the App itself did not. */
  predicate BringsViolation(cfg: Config, raw: Inspector.RawConfig, snap: Snapshot, after: Store, app: App) {
    var pin := Pin(snap, after, app);
    || (PspCaseOf(cfg, snap, app) == Ok(Unlisted) && Inspector.DynamicHit(raw, app.Namespace()))
    || (FindsKubeConfig(snap, app) &&
        Inspector.Hit(raw, KubeConfigNamespace(snap, app.Namespace(), app.KubeConfigSecretName()).value))
    || (pin.Ok? && pin.value.Some? && app.spec.name in raw.appBlacklist && pin.value.value.catalog in raw.catalogBlacklist)
  }

  /** The namespaces a management cluster App refers to once it is defaulted. */
  lemma ReferencesAfter(cfg: Config, snap: Snapshot, after: Store, app: App)
    requires ParsesConstants(cfg.parse) && Inspected(app) && GateOf(cfg, snap, app).Ok?
    ensures var b := DefaultedApp(cfg, snap, after, app);
            var own := if PspCaseOf(cfg, snap, app) == Ok(Unlisted) then [app.Namespace()] else [];
            var found := KubeConfigNamespace(snap, app.Namespace(), app.KubeConfigSecretName());
            Inspector.References(b) ==
            (if FindsKubeConfig(snap, app) then Inspector.References(app)[4 := found.value] else Inspector.References(app)) + own
  {
    assert UNIQUE_VERSION[0] != LEGACY_VERSION[0];
    assert GateOf(cfg, snap, app) == Ok(Full(UNIQUE_VERSION));
  }

  /** Replacing a harmless reference and adding one: what is hit then was hit before or is one of the two. */
  lemma HitsAfter(raw: Inspector.RawConfig, refs: seq<string>, i: nat, written: string, own: seq<string>)
    requires i < |refs| && forall ns :: ns in refs ==> !Inspector.Hit(raw, ns)
    ensures (exists ns :: ns in refs[i := written] + own && Inspector.Hit(raw, ns)) <==>
            Inspector.Hit(raw, written) || exists ns :: ns in own && Inspector.Hit(raw, ns)
  {
    var now := refs[i := written] + own;
    assert now[i] == written && now[|refs|..] == own;
    forall ns
      ensures ns in now <==> (ns == written || ns in own || exists j :: 0 <= j < |refs| && j != i && refs[j] == ns)
    {
      forall j | 0 <= j < |refs| && j != i ensures now[j] == refs[j] {
      }
      forall j | 0 <= j < |own| ensures now[|refs| + j] == own[j] {
      }
    }
  }

  lemma InspectionAfterDefaulting(cfg: Config, raw: Inspector.RawConfig, snap: Snapshot, after: Store, app: App, user: User)
    requires ParsesConstants(cfg.parse) && GateOf(cfg, snap, app).Ok?
    ensures var b := DefaultedApp(cfg, snap, after, app);
            && (Inspected(b) <==> Inspected(app) || Promotes(snap, app))
            && (Promotes(snap, app) ==> (Inspector.Rejects(raw, b, user) <==> Inspector.Rejects(raw, app, user)))
            && (Inspected(app) && !Inspector.Rejects(raw, app, user) ==>
                  (Inspector.Rejects(raw, b, user) <==>
                   && !Inspector.Whitelisted(raw, user) && !Inspector.Private(raw, app)
                   && BringsViolation(cfg, raw, snap, after, app)))
  {
    var b := DefaultedApp(cfg, snap, after, app);
    DefaultKeepsIdentity(cfg, snap, after, app);
    assert UNIQUE_VERSION[0] != LEGACY_VERSION[0];
    if Promotes(snap, app) {
      PromotionSetsLabels(cfg, snap, after, app);
      assert Inspector.References(b) == Inspector.References(app);
    } else {
      match GateOf(cfg, snap, app).value
      case Skip =>
      case LabelsOnly(version) => GateRepeats(cfg, snap, after, app, version);
      case Full(version) => GateRepeats(cfg, snap, after, app, version);
    }
    if Inspected(app) && !Inspector.Whitelisted(raw, user) && !Inspector.Private(raw, app) &&
       !Inspector.Rejects(raw, app, user) {
      ViolationsAfter(cfg, raw, snap, after, app);
    }
  }

  lemma ViolationsAfter(cfg: Config, raw: Inspector.RawConfig, snap: Snapshot, after: Store, app: App)
    requires ParsesConstants(cfg.parse) && GateOf(cfg, snap, app).Ok? && Inspected(app)
    requires !Inspector.Private(raw, app) && !Inspector.ForbiddenApp(raw, app) && !Inspector.ForbiddenReference(raw, app)
    ensures var b := DefaultedApp(cfg, snap, after, app);
            Inspector.ForbiddenApp(raw, b) || Inspector.ForbiddenReference(raw, b) <==>
            BringsViolation(cfg, raw, snap, after, app)
  {
    var b, refs := DefaultedApp(cfg, snap, after, app), Inspector.References(app);
    assert UNIQUE_VERSION[0] != LEGACY_VERSION[0];
    assert GateOf(cfg, snap, app) == Ok(Full(UNIQUE_VERSION));
    ReferencesAfter(cfg, snap, after, app);
    Inspector.ForbiddenByHit(raw, app);
    Inspector.ForbiddenByHit(raw, b);
    var own := if PspCaseOf(cfg, snap, app) == Ok(Unlisted) then [app.Namespace()] else [];
    var written := if FindsKubeConfig(snap, app)
                   then KubeConfigNamespace(snap, app.Namespace(), app.KubeConfigSecretName()).value else refs[4];
    assert refs[4] in refs && refs[4 := refs[4]] == refs;
    HitsAfter(raw, refs, 4, written, own);
    assert Inspector.References(b) == refs[4 := written] + own;
    assert (exists ns :: ns in own && Inspector.Hit(raw, ns)) <==> own != [] && Inspector.Hit(raw, app.Namespace()) by {
      if own != [] {
        assert own[0] in own;
      }
    }
  }

  /**
   The two webhooks together. The inspector looks at a patched App if it would have looked at the App sent, or
   if the mutator promoted it. Defaulting turns an App it accepts into one it rejects exactly when the actor and the
   namespace enjoy no exception and something written offends: the App's own namespace in an added entry, the
   namespace of a kubeconfig found, or the catalog of a Release.
   */
  lemma PatchedUnderInspection(cfg: Config, raw: Inspector.RawConfig, snap: Snapshot, store: Store, doc: Json, app: App,
                               user: User)
    requires ParsesConstants(cfg.parse) && Shaped(doc) && Decode(doc) == Some(app)
    ensures var run := Run(cfg, snap, store, doc);
            run.Some? ==>
              && Decode(run.value.0).Some?
              && var b := Decode(run.value.0).value;
                 && (Inspected(b) <==> Inspected(app) || Promotes(snap, app))
                 && (Promotes(snap, app) ==> (Inspector.Rejects(raw, b, user) <==> Inspector.Rejects(raw, app, user)))
                 && (Inspected(app) && !Inspector.Rejects(raw, app, user) ==>
                       (Inspector.Rejects(raw, b, user) <==>
                        && !Inspector.Whitelisted(raw, user) && !Inspector.Private(raw, app)
                        && BringsViolation(cfg, raw, snap, run.value.1, app)))
  {
    RunRefines(cfg, snap, store, doc, app);
    if Run(cfg, snap, store, doc).Some? {
      InspectionAfterDefaulting(cfg, raw, snap, Run(cfg, snap, store, doc).value.1, app, user);
    }
  }
}
