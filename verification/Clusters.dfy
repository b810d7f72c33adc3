/** What the controller sees of the management cluster, and the ConfigMaps it writes. */
module Clusters {
  import opened Wrappers
  import opened Json
  import opened Apps
  import opened Semver

  datatype ConfigMap = ConfigMap(labels: map<string, string>, data: map<string, string>)

  type Store = map<ObjRef, ConfigMap>

  datatype Secret = Secret(ref: ObjRef, labels: map<string, string>)

  datatype ClusterCR = ClusterCR(name: string, labels: map<string, string>)

  datatype Component = Component(name: string, catalog: string, version: string)

  /** API calls that may fail for a reason other than NotFound. */
  datatype Call =
    | GetApp(ref: ObjRef)
    | GetSecret(ref: ObjRef)
    | ListSecrets
    | ListClusters
    | GetConfigMap(ref: ObjRef)
    | CreateConfigMap(ref: ObjRef)
    | UpdateConfigMap(ref: ObjRef)
    | GetCatalog(name: string)
    | GetRelease(name: string)

  /**
   Everything but the ConfigMaps. `faults` are the calls that fail; `mergedValues` stands for the
   library that merges an app's configuration out of its catalog and the ConfigMaps it references.
   */
  datatype Snapshot = Snapshot(
    apps: map<ObjRef, App>,
    secrets: seq<Secret>,
    clusters: seq<ClusterCR>,
    catalogs: set<string>,
    releases: map<string, seq<Component>>,
    mergedValues: (App, Store) -> Option<map<string, Json>>,
    faults: set<Call>)

  datatype ConfigPatch = ConfigPatch(appName: string, configMapSuffix: string, values: string)

  /** The controller's flags, and the version parser it links against. */
  datatype Config = Config(
    provider: string,
    patches: seq<ConfigPatch>,
    parse: string -> Option<Version>)

  /** All that is used of the parser besides its being a function. */
  predicate ParsesConstants(parse: string -> Option<Version>) {
    && parse("").None?
    && parse(UNIQUE_VERSION) == Some(Version(0, 0, 0, []))
    && parse(LEGACY_VERSION) == Some(Version(1, 0, 0, []))
  }
}
