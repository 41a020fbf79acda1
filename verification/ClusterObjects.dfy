/** Cluster objects as the Kubernetes reconciler reads them, and the records they ask for
    (internal/k8s/reconcile.go). */
module ClusterObjects {
  import opened Types
  import opened K8s

  // ---- cluster objects ----

  /** A catalogue entry of a Cloud object; the name is empty when the entry has none or is malformed. */
  datatype RawEntry<V> = RawEntry(name: string, value: V)

  /** `secret` is None when the object's secret cannot be read. */
  datatype CloudObject = CloudObject(ns: string, name: string, driver: string, enabled: Option<bool>, settings: Params,
                                     secret: Option<Params>, sizes: seq<RawEntry<SizeRec>>,
                                     images: seq<RawEntry<ImageRec>>)

  datatype ForgeObject = ForgeObject(ns: string, name: string, kind: string, enabled: Option<bool>, settings: Params,
                                     secret: Option<Params>)

  datatype PoolObject = PoolObject(
    ns: string,
    name: string,
    forgeRef: string,
    cloudRef: string,
    size: string,
    image: string,
    enabled: Option<bool>,
    labels: seq<string>,
    minIdle: Option<int>,
    maxInstances: Option<int>,
    jobTimeoutSec: Option<int>,
    maxLifetimeSec: Option<int>,
    containerImage: string,
    publicIPv4: Option<bool>,
    allowSSHFrom: seq<string>)

  function Or<T>(v: Option<T>, default: T): T {
    if v.Some? then v.value else default
  }

  // ---- what the objects ask for ----

  const WEBHOOK_SECRET_KEY := "webhook_secret"

  function CloudRecOf(o: CloudObject): CloudRec
    requires o.secret.Some?
  {
    CloudRec(o.driver, Or(o.enabled, true), o.settings[MANAGED_BY_LABEL := MANAGED_VALUE], o.secret.value)
  }

  /** The listed entries by name: nameless ones are skipped, the last of a name counts. */
  function Entries<V>(raw: seq<RawEntry<V>>): map<string, V> {
    if raw == [] then map[]
    else
      var last := raw[|raw| - 1];
      var before := Entries(raw[..|raw| - 1]);
      if last.name == "" then before else before[last.name := last.value]
  }

  function ForgeRecOf(o: ForgeObject): ForgeRec
    requires o.secret.Some?
  {
    var creds := o.secret.value;
    var hook :=
      if WEBHOOK_SECRET_KEY in creds && creds[WEBHOOK_SECRET_KEY] != "" then Some(creds[WEBHOOK_SECRET_KEY]) else None;
    ForgeRec(o.kind, Or(o.enabled, true), o.settings[MANAGED_BY_LABEL := MANAGED_VALUE],
             if hook.Some? then creds - {WEBHOOK_SECRET_KEY} else creds, hook)
  }

  function PoolRecOf(o: PoolObject): PoolRec {
    var cloud := Qualify(o.ns, o.cloudRef);
    PoolRec(Qualify(o.ns, o.forgeRef), cloud, Item(cloud, o.size),
            if o.image != "" then Some(Item(cloud, o.image)) else None,
            Or(o.enabled, true), o.labels, Or(o.minIdle, 0), Or(o.maxInstances, DEFAULT_MAX_INSTANCES),
            Or(o.jobTimeoutSec, DEFAULT_JOB_TIMEOUT_SEC), Or(o.maxLifetimeSec, DEFAULT_MAX_LIFETIME_SEC),
            o.containerImage, Or(o.publicIPv4, true), o.allowSSHFrom)
  }

  function CloudSpecOf(o: CloudObject): CloudSpec
    requires o.secret.Some?
  {
    CloudSpec(CloudRecOf(o), Entries(o.sizes), Entries(o.images))
  }

  function CloudsOf(items: seq<CloudObject>): map<string, CloudSpec> {
    if items == [] then map[]
    else
      var o, before := items[|items| - 1], CloudsOf(items[..|items| - 1]);
      if o.secret.Some? then before[ManagedName(o.ns, o.name) := CloudSpecOf(o)] else before
  }

  function ForgesOf(items: seq<ForgeObject>): map<string, ForgeRec> {
    if items == [] then map[]
    else
      var o, before := items[|items| - 1], ForgesOf(items[..|items| - 1]);
      if o.secret.Some? then before[ManagedName(o.ns, o.name) := ForgeRecOf(o)] else before
  }

  function PoolsOf(items: seq<PoolObject>): map<string, PoolRec> {
    if items == [] then map[]
    else
      var o := items[|items| - 1];
      PoolsOf(items[..|items| - 1])[ManagedName(o.ns, o.name) := PoolRecOf(o)]
  }

  function CloudNames(items: seq<CloudObject>): set<string> { set o | o in items :: ManagedName(o.ns, o.name) }

  function ForgeNames(items: seq<ForgeObject>): set<string> { set o | o in items :: ManagedName(o.ns, o.name) }

  function PoolNames(items: seq<PoolObject>): set<string> { set o | o in items :: ManagedName(o.ns, o.name) }

  function ManifestOf(clouds: seq<CloudObject>, forges: seq<ForgeObject>, pools: seq<PoolObject>): Manifest {
    Manifest(CloudNames(clouds), CloudsOf(clouds), ForgeNames(forges), ForgesOf(forges), PoolsOf(pools))
  }

  // ---- what the cluster admits ----

  predicate AtLeast(v: Option<int>, least: int) { v.Some? ==> v.value >= least }

  predicate AdmitsPool(o: PoolObject) {
    && o.labels != [] && AtLeast(o.minIdle, 0) && AtLeast(o.maxInstances, 1)
    && AtLeast(o.jobTimeoutSec, 60) && AtLeast(o.maxLifetimeSec, 120)
  }

  /** The objects are within the bounds of their definitions (k8s/crds.yaml). */
  predicate Admitted(forges: seq<ForgeObject>, pools: seq<PoolObject>) {
    (forall o :: o in forges ==> o.kind in FORGE_KINDS) && (forall o :: o in pools ==> AdmitsPool(o))
  }

  lemma {:induction false} CloudsOfKeys(items: seq<CloudObject>)
    ensures CloudsOf(items).Keys <= CloudNames(items)
    ensures forall n :: n in CloudsOf(items) ==> Managed(CloudsOf(items)[n].rec.settings)
  {
    if items != [] {
      CloudsOfKeys(items[..|items| - 1]);
      assert items[|items| - 1] in items;
    }
  }

  lemma {:induction false} ForgesOfKeys(items: seq<ForgeObject>)
    ensures ForgesOf(items).Keys <= ForgeNames(items)
    ensures forall n :: n in ForgesOf(items) ==> Managed(ForgesOf(items)[n].settings)
    ensures (forall o :: o in items ==> o.kind in FORGE_KINDS) ==>
              forall n :: n in ForgesOf(items) ==> ForgesOf(items)[n].kind in FORGE_KINDS
  {
    if items != [] {
      ForgesOfKeys(items[..|items| - 1]);
      assert items[|items| - 1] in items;
    }
  }

  lemma {:induction false} PoolsOfKeys(items: seq<PoolObject>)
    ensures PoolsOf(items).Keys == PoolNames(items)
    ensures forall n :: n in PoolsOf(items) ==> OnItsCloud(PoolsOf(items)[n])
  {
    if items != [] {
      PoolsOfKeys(items[..|items| - 1]);
      assert items == items[..|items| - 1] + [items[|items| - 1]];
    }
  }

  lemma PoolInSchema(o: PoolObject)
    requires AdmitsPool(o)
    ensures InSchema(PoolRecOf(o))
  {
  }

  lemma {:induction false} PoolsInSchema(items: seq<PoolObject>, n: string)
    requires (forall o :: o in items ==> AdmitsPool(o)) && n in PoolsOf(items)
    ensures InSchema(PoolsOf(items)[n])
  {
    var o := items[|items| - 1];
    assert o in items;
    if n == ManagedName(o.ns, o.name) {
      PoolInSchema(o);
    } else {
      PoolsInSchema(items[..|items| - 1], n);
    }
  }

  /** What is read from the cluster is well formed: the convergence and isolation results apply to every pass. */
  lemma ManifestIsWellFormed(clouds: seq<CloudObject>, forges: seq<ForgeObject>, pools: seq<PoolObject>)
    requires Admitted(forges, pools)
    ensures WellFormed(ManifestOf(clouds, forges, pools))
  {
    CloudsOfKeys(clouds);
    ForgesOfKeys(forges);
    PoolsOfKeys(pools);
    forall n | n in PoolsOf(pools) ensures InSchema(PoolsOf(pools)[n]) { PoolsInSchema(pools, n); }
  }
}
