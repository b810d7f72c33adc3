/** The security inspector: lookup tables built once from raw lists, and the policy they implement. */
module Inspector {
  import opened Wrappers
  import opened Apps
  import opened Requests
  import Text

  /** The five lists as configured, in any order and with any repetition. */
  datatype RawConfig = RawConfig(
    appBlacklist: seq<string>,
    catalogBlacklist: seq<string>,
    groupWhitelist: seq<string>,
    namespaceBlacklist: seq<string>,
    userWhitelist: seq<string>)

  // ---------------------------------------------------------------- policy on the raw lists

  /** Entries that start or end with '-' stand for every name they begin or end. */
  predicate Dynamic(entry: string) {
    Text.HasPrefix(entry, "-") || Text.HasSuffix(entry, "-")
  }

  predicate Matches(entry: string, namespace: string) {
    if Dynamic(entry) then Text.HasPrefix(namespace, entry) || Text.HasSuffix(namespace, entry)
    else namespace == entry
  }

  /** Every namespace an App refers to, in the order they are looked at. */
  function References(app: App): seq<string> {
    [app.spec.config.configMap.namespace, app.spec.config.secret.namespace,
     app.spec.userConfig.configMap.namespace, app.spec.userConfig.secret.namespace,
     app.spec.kubeConfig.secret.namespace] +
    seq(|app.spec.extraConfigs|, i requires 0 <= i < |app.spec.extraConfigs| => app.spec.extraConfigs[i].namespace)
  }

  predicate FixedHit(raw: RawConfig, namespace: string) {
    exists e :: e in raw.namespaceBlacklist && !Dynamic(e) && Matches(e, namespace)
  }

  predicate DynamicHit(raw: RawConfig, namespace: string) {
    exists e :: e in raw.namespaceBlacklist && Dynamic(e) && Matches(e, namespace)
  }

  predicate WhitelistedUser(raw: RawConfig, name: string) {
    exists u :: u in raw.userWhitelist && Text.HasPrefix(name, u)
  }

  predicate Whitelisted(raw: RawConfig, user: User) {
    WhitelistedUser(raw, user.name) || exists g :: g in user.groups && g in raw.groupWhitelist
  }

  predicate Private(raw: RawConfig, app: App) {
    FixedHit(raw, app.Namespace())
  }

  predicate ForbiddenApp(raw: RawConfig, app: App) {
    app.spec.name in raw.appBlacklist && app.spec.catalog in raw.catalogBlacklist
  }

  predicate ForbiddenReference(raw: RawConfig, app: App) {
    exists ns, e :: ns in References(app) && e in raw.namespaceBlacklist && Matches(e, ns)
  }

  predicate Rejects(raw: RawConfig, app: App, user: User) {
    !Whitelisted(raw, user) && !Private(raw, app) && (ForbiddenApp(raw, app) || ForbiddenReference(raw, app))
  }

  /** `namespace` is the first reference hit by a fixed entry or, when none is, the first hit by a dynamic one. */
  predicate Reported(raw: RawConfig, refs: seq<string>, namespace: string) {
    || (exists i :: 0 <= i < |refs| && refs[i] == namespace && FixedHit(raw, refs[i]) &&
          forall j :: 0 <= j < i ==> !FixedHit(raw, refs[j]))
    || ((forall j :: 0 <= j < |refs| ==> !FixedHit(raw, refs[j])) &&
        exists i :: 0 <= i < |refs| && refs[i] == namespace && DynamicHit(raw, refs[i]) &&
          forall j :: 0 <= j < i ==> !DynamicHit(raw, refs[j]))
  }

  // ---------------------------------------------------------------- the inspector

  class Inspector {
    ghost const raw: RawConfig
    var appBlacklist: set<string>
    var catalogBlacklist: set<string>
    var dynamicNamespaceBlacklist: seq<string>
    var fixedNamespaceBlacklist: set<string>
    var groupWhitelist: set<string>
    var userWhitelist: seq<string>

    /** The tables say exactly what the raw lists say. */
    ghost predicate Valid()
      reads this
    {
      && (forall x :: x in appBlacklist <==> x in raw.appBlacklist)
      && (forall x :: x in catalogBlacklist <==> x in raw.catalogBlacklist)
      && (forall x :: x in groupWhitelist <==> x in raw.groupWhitelist)
      && (forall x :: x in fixedNamespaceBlacklist <==> x in raw.namespaceBlacklist && !Dynamic(x))
      && (forall x :: x in dynamicNamespaceBlacklist <==> x in raw.namespaceBlacklist && Dynamic(x))
      && userWhitelist == raw.userWhitelist
    }

    constructor New(config: RawConfig)
      ensures Valid() && raw == config
    {
      raw := config;
      appBlacklist, catalogBlacklist, groupWhitelist := {}, {}, {};
      dynamicNamespaceBlacklist, fixedNamespaceBlacklist := [], {};
      userWhitelist := config.userWhitelist;
      new;
      for i := 0 to |config.namespaceBlacklist|
        invariant appBlacklist == catalogBlacklist == groupWhitelist == {} && userWhitelist == config.userWhitelist
        invariant forall x :: x in fixedNamespaceBlacklist <==> x in config.namespaceBlacklist[..i] && !Dynamic(x)
        invariant forall x :: x in dynamicNamespaceBlacklist <==> x in config.namespaceBlacklist[..i] && Dynamic(x)
      {
        var entry := config.namespaceBlacklist[i];
        if Text.HasPrefix(entry, "-") || Text.HasSuffix(entry, "-") {
          dynamicNamespaceBlacklist := dynamicNamespaceBlacklist + [entry];
        } else {
          fixedNamespaceBlacklist := fixedNamespaceBlacklist + {entry};
        }
      }
      var namespaces := config.namespaceBlacklist;
      assert namespaces[..|namespaces|] == namespaces;
      groupWhitelist := Members(config.groupWhitelist);
      appBlacklist := Members(config.appBlacklist);
      catalogBlacklist := Members(config.catalogBlacklist);
    }

    /** None is acceptance. */
    method Inspect(app: App, user: User) returns (err: Option<Error>)
      requires Valid()
      ensures err.Some? <==> Rejects(raw, app, user)
      ensures err.Some? && ForbiddenApp(raw, app) ==> err.value == AppNotAllowed(app.spec.name, app.spec.catalog)
      ensures err.Some? && !ForbiddenApp(raw, app) ==>
                err.value.ReferenceNotAllowed? && Reported(raw, References(app), err.value.namespace)
    {
      var whitelisted := IsWhitelistedActor(user);
      if whitelisted {
        return None;
      }
      if app.Namespace() in fixedNamespaceBlacklist {
        assert Matches(app.Namespace(), app.Namespace());
        return None;
      }
      if app.spec.name in appBlacklist && app.spec.catalog in catalogBlacklist {
        return Some(AppNotAllowed(app.spec.name, app.spec.catalog));
      }
      err := HasBlacklistedReference(app);
    }

    method HasBlacklistedReference(app: App) returns (err: Option<Error>)
      requires Valid()
      ensures err.Some? <==> ForbiddenReference(raw, app)
      ensures err.Some? ==> err.value.ReferenceNotAllowed? && Reported(raw, References(app), err.value.namespace)
    {
      var refs := ReferencedNamespaces(app);
      HitsAreMatches(raw, app);
      var hit := FirstFixedHit(refs);
      if hit.None? {
        hit := FirstDynamicHit(refs);
      }
      if hit.Some? {
        return Some(ReferenceNotAllowed(refs[hit.value]));
      }
      return None;
    }

    method ReferencedNamespaces(app: App) returns (refs: seq<string>)
      ensures refs == References(app)
    {
      refs := [app.spec.config.configMap.namespace, app.spec.config.secret.namespace,
               app.spec.userConfig.configMap.namespace, app.spec.userConfig.secret.namespace,
               app.spec.kubeConfig.secret.namespace];
      ghost var five := refs;
      for i := 0 to |app.spec.extraConfigs|
        invariant refs == five + seq(i, j requires 0 <= j < i <= |app.spec.extraConfigs| => app.spec.extraConfigs[j].namespace)
      {
        refs := refs + [app.spec.extraConfigs[i].namespace];
      }
    }

    /** The first pass. */
    method FirstFixedHit(refs: seq<string>) returns (hit: Option<nat>)
      requires Valid()
      ensures hit.None? ==> forall j :: 0 <= j < |refs| ==> !FixedHit(raw, refs[j])
      ensures hit.Some? ==> hit.value < |refs| && FixedHit(raw, refs[hit.value])
      ensures hit.Some? ==> forall j :: 0 <= j < hit.value ==> !FixedHit(raw, refs[j])
    {
      for i := 0 to |refs|
        invariant forall j :: 0 <= j < i ==> !FixedHit(raw, refs[j])
      {
        if refs[i] in fixedNamespaceBlacklist {
          assert Matches(refs[i], refs[i]);
          return Some(i);
        }
      }
      return None;
    }

    /** The second pass, over every reference and every dynamic entry. */
    method FirstDynamicHit(refs: seq<string>) returns (hit: Option<nat>)
      requires Valid()
      ensures hit.None? ==> forall j :: 0 <= j < |refs| ==> !DynamicHit(raw, refs[j])
      ensures hit.Some? ==> hit.value < |refs| && DynamicHit(raw, refs[hit.value])
      ensures hit.Some? ==> forall j :: 0 <= j < hit.value ==> !DynamicHit(raw, refs[j])
    {
      for i := 0 to |refs|
        invariant forall j :: 0 <= j < i ==> !DynamicHit(raw, refs[j])
      {
        for k := 0 to |dynamicNamespaceBlacklist|
          invariant forall l :: 0 <= l < k ==> !Matches(dynamicNamespaceBlacklist[l], refs[i])
        {
          var entry := dynamicNamespaceBlacklist[k];
          if Text.HasSuffix(refs[i], entry) || Text.HasPrefix(refs[i], entry) {
            assert entry in dynamicNamespaceBlacklist && Matches(entry, refs[i]);
            return Some(i);
          }
        }
        assert forall e :: e in dynamicNamespaceBlacklist ==> !Matches(e, refs[i]);
      }
      return None;
    }

    method IsWhitelistedActor(user: User) returns (yes: bool)
      requires Valid()
      ensures yes <==> Whitelisted(raw, user)
    {
      var byName := IsWhitelistedUser(user.name);
      if byName {
        return true;
      }
      for i := 0 to |user.groups|
        invariant forall j :: 0 <= j < i ==> user.groups[j] !in raw.groupWhitelist
      {
        if user.groups[i] in groupWhitelist {
          assert user.groups[i] in user.groups;
          return true;
        }
      }
      return false;
    }

    method IsWhitelistedUser(name: string) returns (yes: bool)
      requires Valid()
      ensures yes <==> WhitelistedUser(raw, name)
    {
      for i := 0 to |userWhitelist|
        invariant forall j :: 0 <= j < i ==> !Text.HasPrefix(name, userWhitelist[j])
      {
        if Text.HasPrefix(name, userWhitelist[i]) {
          assert userWhitelist[i] in raw.userWhitelist;
          return true;
        }
      }
      return false;
    }
  }

  method Members(list: seq<string>) returns (members: set<string>)
    ensures forall x :: x in members <==> x in list
  {
    members := {};
    for i := 0 to |list|
      invariant forall x :: x in members <==> x in list[..i]
    {
      members := members + {list[i]};
    }
    assert list[..|list|] == list;
  }

  /** The two passes together cover every entry of the raw list. */
  lemma HitsAreMatches(raw: RawConfig, app: App)
    ensures ForbiddenReference(raw, app) <==>
            exists i :: 0 <= i < |References(app)| &&
              (FixedHit(raw, References(app)[i]) || DynamicHit(raw, References(app)[i]))
  {
  }

  predicate Hit(raw: RawConfig, namespace: string) {
    FixedHit(raw, namespace) || DynamicHit(raw, namespace)
  }

  lemma ForbiddenByHit(raw: RawConfig, app: App)
    ensures ForbiddenReference(raw, app) <==> exists ns :: ns in References(app) && Hit(raw, ns)
  {
  }

  /** An entry of the configured list meets a namespace: a dash at either end makes it a pattern for both ends. */
  predicate Meets(entry: string, namespace: string) {
    if entry != "" && (entry[0] == '-' || entry[|entry| - 1] == '-')
    then |entry| <= |namespace| && (namespace[..|entry|] == entry || namespace[|namespace| - |entry|..] == entry)
    else namespace == entry
  }

  predicate Offends(raw: RawConfig, namespace: string) {
    exists e :: e in raw.namespaceBlacklist && Meets(e, namespace)
  }

  /** Some reference of the App names a namespace that is listed. */
  predicate OffendingReference(raw: RawConfig, app: App) {
    || Offends(raw, app.spec.config.configMap.namespace) || Offends(raw, app.spec.config.secret.namespace)
    || Offends(raw, app.spec.userConfig.configMap.namespace) || Offends(raw, app.spec.userConfig.secret.namespace)
    || Offends(raw, app.spec.kubeConfig.secret.namespace)
    || exists i :: 0 <= i < |app.spec.extraConfigs| && Offends(raw, app.spec.extraConfigs[i].namespace)
  }

  lemma OffendsIsHit(raw: RawConfig, namespace: string)
    ensures Offends(raw, namespace) <==> Hit(raw, namespace)
  {
  }

  lemma OffendingIsForbidden(raw: RawConfig, app: App)
    ensures OffendingReference(raw, app) <==> ForbiddenReference(raw, app)
  {
    var refs, extra := References(app), app.spec.extraConfigs;
    forall ns ensures Offends(raw, ns) <==> Hit(raw, ns) {
      OffendsIsHit(raw, ns);
    }
    HitsAreMatches(raw, app);
    ReferenceOrder(app);
    forall i | 0 <= i < |extra| ensures refs[5 + i] == extra[i].namespace {
    }
    forall i | 5 <= i < |refs| ensures refs[i] == extra[i - 5].namespace {
    }
  }

  /** The order in which references are looked at, and so reported. */
  lemma ReferenceOrder(app: App)
    ensures var refs, s := References(app), app.spec;
            && |refs| == 5 + |s.extraConfigs|
            && refs[0] == s.config.configMap.namespace && refs[1] == s.config.secret.namespace
            && refs[2] == s.userConfig.configMap.namespace && refs[3] == s.userConfig.secret.namespace
            && refs[4] == s.kubeConfig.secret.namespace
            && forall i :: 0 <= i < |s.extraConfigs| ==> refs[5 + i] == s.extraConfigs[i].namespace
  {
  }

  /**
   The policy in terms of the request and the configured lists: neither a listed user name prefix nor a listed
   group, not sent from a listed namespace, and either a listed App of a listed catalog or an offending reference.
   */
  lemma RejectsExactly(raw: RawConfig, app: App, user: User)
    ensures Rejects(raw, app, user) <==>
            && (forall u :: u in raw.userWhitelist ==> !(|u| <= |user.name| && user.name[..|u|] == u))
            && (forall g :: g in user.groups ==> g !in raw.groupWhitelist)
            && !(app.metadata.namespace in raw.namespaceBlacklist &&
                 (app.metadata.namespace != "" ==>
                    app.metadata.namespace[0] != '-' && app.metadata.namespace[|app.metadata.namespace| - 1] != '-'))
            && ((app.spec.name in raw.appBlacklist && app.spec.catalog in raw.catalogBlacklist) || OffendingReference(raw, app))
  {
    OffendingIsForbidden(raw, app);
    var ns := app.metadata.namespace;
    if ns != "" {
      assert ns[|ns| - 1..] == "-" <==> ns[|ns| - 1] == '-';
    }
    assert !Dynamic(ns) ==> Matches(ns, ns);
    forall u ensures Text.HasPrefix(user.name, u) <==> |u| <= |user.name| && user.name[..|u|] == u {
    }
  }

  // ---------------------------------------------------------------- how the verdict depends on the lists

  predicate SubList(a: seq<string>, b: seq<string>) {
    forall x :: x in a ==> x in b
  }

  predicate SameMembers(a: seq<string>, b: seq<string>) {
    SubList(a, b) && SubList(b, a)
  }

  /** Order and repetition of entries never matter, in any list. */
  lemma VerdictDependsOnMembers(a: RawConfig, b: RawConfig, app: App, user: User)
    requires SameMembers(a.appBlacklist, b.appBlacklist) && SameMembers(a.catalogBlacklist, b.catalogBlacklist)
    requires SameMembers(a.groupWhitelist, b.groupWhitelist) && SameMembers(a.userWhitelist, b.userWhitelist)
    requires SameMembers(a.namespaceBlacklist, b.namespaceBlacklist)
    ensures Rejects(a, app, user) <==> Rejects(b, app, user)
    ensures forall ns :: Reported(a, References(app), ns) <==> Reported(b, References(app), ns)
  {
  }

  /** Longer whitelists never turn acceptance into rejection. */
  lemma WhitelistsOnlyAdmit(a: RawConfig, b: RawConfig, app: App, user: User)
    requires SubList(a.groupWhitelist, b.groupWhitelist) && SubList(a.userWhitelist, b.userWhitelist)
    requires b == a.(groupWhitelist := b.groupWhitelist, userWhitelist := b.userWhitelist)
    ensures Rejects(b, app, user) ==> Rejects(a, app, user)
  {
  }

  /** Longer App and catalog blacklists never turn rejection into acceptance. */
  lemma BlacklistsOnlyReject(a: RawConfig, b: RawConfig, app: App, user: User)
    requires SubList(a.appBlacklist, b.appBlacklist) && SubList(a.catalogBlacklist, b.catalogBlacklist)
    requires b == a.(appBlacklist := b.appBlacklist, catalogBlacklist := b.catalogBlacklist)
    ensures Rejects(a, app, user) ==> Rejects(b, app, user)
  {
  }

  /**
   A longer namespace blacklist is not monotone: it lifts a rejection exactly when it makes the App's own
   namespace a protected one.
   */
  lemma NamespaceBlacklistLifts(a: RawConfig, b: RawConfig, app: App, user: User)
    requires SubList(a.namespaceBlacklist, b.namespaceBlacklist)
    requires b == a.(namespaceBlacklist := b.namespaceBlacklist)
    requires Rejects(a, app, user)
    ensures !Rejects(b, app, user) <==> app.Namespace() in b.namespaceBlacklist && !Dynamic(app.Namespace())
  {
  }
}
