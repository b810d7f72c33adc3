/** The events an accepted update emits, one per compared field that changed. */
module Events {
  import opened Apps

  datatype Event = Reset(field: string) | Changed(field: string, value: string)

  function Pair(ref: ObjRef): string {
    ref.namespace + "/" + ref.name
  }

  /** The compared fields, each with the text it is compared by. */
  const COMPARE: map<string, App -> string> := map[
    "appCatalog" := (a: App) => a.spec.catalog,
    "appConfigMap" := (a: App) => Pair(a.spec.config.configMap),
    "appSecret" := (a: App) => Pair(a.spec.config.secret),
    "userConfigMap" := (a: App) => Pair(a.spec.userConfig.configMap),
    "userSecret" := (a: App) => Pair(a.spec.userConfig.secret),
    "version" := (a: App) => a.spec.version]

  function EventFor(field: string, text: string): Event {
    if text == "/" then Reset(field) else Changed(field, text)
  }

  /** One event for each field of `fields` whose text differs, and no other. */
  ghost function Expected(compare: map<string, App -> string>, fields: set<string>, app: App, oldApp: App): set<Event>
    requires fields <= compare.Keys
  {
    set f | f in fields && compare[f](app) != compare[f](oldApp) :: EventFor(f, compare[f](app))
  }

  class Recorder {
    var events: seq<Event>

    constructor ()
      ensures events == []
    {
      events := [];
    }

    method Emit(e: Event)
      modifies this
      ensures events == old(events) + [e]
    {
      events := events + [e];
    }
  }

  /** The events of one more field. */
  method EmitChange(recorder: Recorder, field: string, newValue: string, oldValue: string) returns (emitted: seq<Event>)
    modifies recorder
    ensures recorder.events == old(recorder.events) + emitted
    ensures emitted == if newValue != oldValue then [EventFor(field, newValue)] else []
  {
    if newValue == oldValue {
      return [];
    }
    var e := if newValue == "/" then Reset(field) else Changed(field, newValue);
    recorder.Emit(e);
    return [e];
  }

  lemma ExpectedStep(compare: map<string, App -> string>, fields: set<string>, field: string, app: App, oldApp: App,
                     emitted: seq<Event>, more: seq<Event>)
    requires fields <= compare.Keys && field in compare && field !in fields
    requires multiset(emitted) == multiset(Expected(compare, fields, app, oldApp))
    requires more == if compare[field](app) != compare[field](oldApp) then [EventFor(field, compare[field](app))] else []
    ensures multiset(emitted + more) == multiset(Expected(compare, fields + {field}, app, oldApp))
  {
  }

  /** The map is walked in any order; what comes out does not depend on it. */
  method EmitChanges(recorder: Recorder, compare: map<string, App -> string>, app: App, oldApp: App)
    returns (emitted: seq<Event>)
    modifies recorder
    ensures recorder.events == old(recorder.events) + emitted
    ensures multiset(emitted) == multiset(Expected(compare, compare.Keys, app, oldApp))
  {
    emitted := [];
    var remaining := compare.Keys;
    ghost var done: set<string> := {};
    while remaining != {}
      invariant remaining <= compare.Keys && done == compare.Keys - remaining
      invariant recorder.events == old(recorder.events) + emitted
      invariant multiset(emitted) == multiset(Expected(compare, done, app, oldApp))
      decreases |remaining|
    {
      var field :| field in remaining;
      var more := EmitChange(recorder, field, compare[field](app), compare[field](oldApp));
      ExpectedStep(compare, done, field, app, oldApp, emitted, more);
      assert done + {field} == compare.Keys - (remaining - {field});
      emitted := emitted + more;
      remaining := remaining - {field};
      done := done + {field};
    }
    assert done == compare.Keys;
  }

  predicate SlashFree(s: string) {
    '/' !in s
  }

  /** Between slash-free namespaces the text of a reference differs exactly when the reference does. */
  lemma {:induction false} PairIsFaithful(a: ObjRef, b: ObjRef)
    requires SlashFree(a.namespace) && SlashFree(b.namespace)
    ensures Pair(a) == Pair(b) <==> a == b
  {
    if Pair(a) == Pair(b) {
      var n, m := |a.namespace|, |b.namespace|;
      assert Pair(a)[n] == '/' && Pair(b)[m] == '/';
      assert forall k :: 0 <= k < n ==> Pair(a)[k] == a.namespace[k] != '/';
      assert forall k :: 0 <= k < m ==> Pair(b)[k] == b.namespace[k] != '/';
      assert n == m;
      assert Pair(a)[..n] == a.namespace && Pair(b)[..m] == b.namespace;
      assert Pair(a)[n + 1..] == a.name && Pair(b)[m + 1..] == b.name;
    }
  }

  /** With a slash in a namespace a change can go unnoticed. */
  lemma PairCollides()
    ensures Pair(ObjRef("c", "a/b")) == Pair(ObjRef("b/c", "a"))
  {
  }

  predicate SlashFreeRefs(app: App) {
    && SlashFree(app.spec.config.configMap.namespace) && SlashFree(app.spec.config.secret.namespace)
    && SlashFree(app.spec.userConfig.configMap.namespace) && SlashFree(app.spec.userConfig.secret.namespace)
  }

  /** Whether a compared field itself differs. */
  predicate FieldChanged(field: string, app: App, oldApp: App) {
    if field == "appCatalog" then app.spec.catalog != oldApp.spec.catalog
    else if field == "appConfigMap" then app.spec.config.configMap != oldApp.spec.config.configMap
    else if field == "appSecret" then app.spec.config.secret != oldApp.spec.config.secret
    else if field == "userConfigMap" then app.spec.userConfig.configMap != oldApp.spec.userConfig.configMap
    else if field == "userSecret" then app.spec.userConfig.secret != oldApp.spec.userConfig.secret
    else app.spec.version != oldApp.spec.version
  }

  lemma TextMeansField(field: string, app: App, oldApp: App)
    requires SlashFreeRefs(app) && SlashFreeRefs(oldApp) && field in COMPARE
    ensures COMPARE[field](app) != COMPARE[field](oldApp) <==> FieldChanged(field, app, oldApp)
  {
    PairIsFaithful(app.spec.config.configMap, oldApp.spec.config.configMap);
    PairIsFaithful(app.spec.config.secret, oldApp.spec.config.secret);
    PairIsFaithful(app.spec.userConfig.configMap, oldApp.spec.userConfig.configMap);
    PairIsFaithful(app.spec.userConfig.secret, oldApp.spec.userConfig.secret);
  }

  /** For slash-free namespaces there is an event about a compared field exactly when that field changed. */
  lemma EventsMeanChanges(app: App, oldApp: App, field: string)
    requires SlashFreeRefs(app) && SlashFreeRefs(oldApp) && field in COMPARE
    ensures (exists e :: e in Expected(COMPARE, COMPARE.Keys, app, oldApp) && e.field == field) <==>
            FieldChanged(field, app, oldApp)
  {
    TextMeansField(field, app, oldApp);
    if FieldChanged(field, app, oldApp) {
      assert EventFor(field, COMPARE[field](app)) in Expected(COMPARE, COMPARE.Keys, app, oldApp);
    }
  }

  /** A changed reference is reported: as a reset when it is emptied, with its new value otherwise. */
  predicate ReferenceEvent(field: string, now: ObjRef, before: ObjRef, events: set<Event>) {
    SlashFree(now.namespace) && SlashFree(before.namespace) && now != before ==>
      (if now == ObjRef("", "") then Reset(field) else Changed(field, now.namespace + "/" + now.name)) in events
  }

  lemma ReferenceReported(field: string, now: ObjRef, before: ObjRef, app: App, oldApp: App)
    requires field in COMPARE && COMPARE[field](app) == Pair(now) && COMPARE[field](oldApp) == Pair(before)
    ensures ReferenceEvent(field, now, before, Expected(COMPARE, COMPARE.Keys, app, oldApp))
  {
    if SlashFree(now.namespace) && SlashFree(before.namespace) && now != before {
      PairIsFaithful(now, before);
      PairIsFaithful(now, ObjRef("", ""));
      assert Pair(ObjRef("", "")) == "/";
      assert EventFor(field, COMPARE[field](app)) in Expected(COMPARE, COMPARE.Keys, app, oldApp);
    }
  }

  lemma TextReported(field: string, app: App, oldApp: App)
    requires field in COMPARE && COMPARE[field](app) != COMPARE[field](oldApp) && COMPARE[field](app) != "/"
    ensures Changed(field, COMPARE[field](app)) in Expected(COMPARE, COMPARE.Keys, app, oldApp)
  {
  }

  /** What the events say, field by field. */
  lemma EventTexts(app: App, oldApp: App)
    ensures var events := Expected(COMPARE, COMPARE.Keys, app, oldApp);
            var s, t := app.spec, oldApp.spec;
            && (s.catalog != t.catalog && s.catalog != "/" ==> Changed("appCatalog", s.catalog) in events)
            && (s.version != t.version && s.version != "/" ==> Changed("version", s.version) in events)
            && ReferenceEvent("appConfigMap", s.config.configMap, t.config.configMap, events)
            && ReferenceEvent("appSecret", s.config.secret, t.config.secret, events)
            && ReferenceEvent("userConfigMap", s.userConfig.configMap, t.userConfig.configMap, events)
            && ReferenceEvent("userSecret", s.userConfig.secret, t.userConfig.secret, events)
  {
    var s, t := app.spec, oldApp.spec;
    ReferenceReported("appConfigMap", s.config.configMap, t.config.configMap, app, oldApp);
    ReferenceReported("appSecret", s.config.secret, t.config.secret, app, oldApp);
    ReferenceReported("userConfigMap", s.userConfig.configMap, t.userConfig.configMap, app, oldApp);
    ReferenceReported("userSecret", s.userConfig.secret, t.userConfig.secret, app, oldApp);
    if s.catalog != t.catalog && s.catalog != "/" {
      TextReported("appCatalog", app, oldApp);
    }
    if s.version != t.version && s.version != "/" {
      TextReported("version", app, oldApp);
    }
  }
}
