/** What the cluster's objects come to in the tables (applyCloud, syncCatalogue, reconcileForges and applyPool in
    internal/k8s/reconcile.go), field by field. */
module Declared {
  import opened Types
  import opened K8s
  import opened ClusterObjects

  // ---- what an object declares ----

  /** Booleans are true unless the object says otherwise. */
  predicate Said(v: Option<bool>, b: bool) { b <==> v != Some(false) }

  function SaidOr(v: Option<int>, default: int): int { match v case None => default case Some(i) => i }

  /** The record that an object of namespace `ns` is kept under. */
  function RecordName(ns: string, name: string): string {
    if ns == "" || ns == "default" then name else ns + "/" + name
  }

  /** The record that a reference from an object of namespace `ns` means. */
  function Meant(ns: string, ref: string): string {
    if ns == "" || ns == "default" || '/' in ref then ref else ns + "/" + ref
  }

  predicate AsPool(o: PoolObject, p: PoolRec) {
    && p.forge == Meant(o.ns, o.forgeRef) && p.cloud == Meant(o.ns, o.cloudRef)
    && p.size.name == o.size && p.size.cloud == p.cloud
    && (if o.image == "" then p.image.None?
        else p.image.Some? && p.image.value.name == o.image && p.image.value.cloud == p.cloud)
    && Said(o.enabled, p.enabled) && Said(o.publicIPv4, p.publicIPv4)
    && p.labels == o.labels && p.containerImage == o.containerImage && p.allowSSHFrom == o.allowSSHFrom
    && p.minIdle == SaidOr(o.minIdle, 0) && p.maxInstances == SaidOr(o.maxInstances, 5)
    && p.jobTimeoutSec == SaidOr(o.jobTimeoutSec, 3600) && p.maxLifetimeSec == SaidOr(o.maxLifetimeSec, 7200)
  }

  /** The settings of the object and the marker, which wins. */
  predicate MarkedSettings(said: Params, s: Params) {
    && s.Keys == said.Keys + {"runnerforge.slop.place/managed-by"}
    && s["runnerforge.slop.place/managed-by"] == "kubernetes"
    && forall k :: k in said && k != "runnerforge.slop.place/managed-by" ==> s[k] == said[k]
  }

  predicate AsCloud(o: CloudObject, c: CloudRec)
    requires o.secret.Some?
  {
    && c.driver == o.driver && Said(o.enabled, c.enabled)
    && MarkedSettings(o.settings, c.settings) && c.credentials == o.secret.value
  }

  /** The webhook secret, when there is one, is kept apart from the credentials; an empty one counts as none. */
  predicate AsForge(o: ForgeObject, f: ForgeRec)
    requires o.secret.Some?
  {
    var creds := o.secret.value;
    && f.kind == o.kind && Said(o.enabled, f.enabled) && MarkedSettings(o.settings, f.settings)
    && (if "webhook_secret" in creds && creds["webhook_secret"] != ""
        then
          && f.webhookSecret == Some(creds["webhook_secret"])
          && f.credentials.Keys == creds.Keys - {"webhook_secret"}
          && forall k :: k in f.credentials ==> f.credentials[k] == creds[k]
        else f.webhookSecret.None? && f.credentials == creds)
  }

  /** Entry `i` counts: it has a name, and none after it has the same. */
  predicate Counts<V>(raw: seq<RawEntry<V>>, i: nat)
    requires i < |raw|
  {
    raw[i].name != "" && forall j :: i < j < |raw| ==> raw[j].name != raw[i].name
  }

  // ---- what is read of the objects ----

  lemma RecordOfPool(o: PoolObject)
    ensures AsPool(o, PoolRecOf(o)) && ManagedName(o.ns, o.name) == RecordName(o.ns, o.name)
  {
  }

  lemma RecordOfCloud(o: CloudObject)
    requires o.secret.Some?
    ensures AsCloud(o, CloudRecOf(o)) && ManagedName(o.ns, o.name) == RecordName(o.ns, o.name)
  {
  }

  lemma RecordOfForge(o: ForgeObject)
    requires o.secret.Some?
    ensures AsForge(o, ForgeRecOf(o)) && ManagedName(o.ns, o.name) == RecordName(o.ns, o.name)
  {
  }

  /** No other object of the kind is kept under the same record. */
  ghost predicate OnlyPool(items: seq<PoolObject>, o: PoolObject) {
    o in items && forall q :: q in items && ManagedName(q.ns, q.name) == ManagedName(o.ns, o.name) ==> q == o
  }

  ghost predicate OnlyCloud(items: seq<CloudObject>, o: CloudObject) {
    o in items && forall q :: q in items && ManagedName(q.ns, q.name) == ManagedName(o.ns, o.name) ==> q == o
  }

  ghost predicate OnlyForge(items: seq<ForgeObject>, o: ForgeObject) {
    o in items && forall q :: q in items && ManagedName(q.ns, q.name) == ManagedName(o.ns, o.name) ==> q == o
  }

  lemma {:induction false} ReadsPool(items: seq<PoolObject>, o: PoolObject)
    requires OnlyPool(items, o)
    ensures var n := ManagedName(o.ns, o.name); n in PoolsOf(items) && PoolsOf(items)[n] == PoolRecOf(o)
  {
    var last, before := items[|items| - 1], items[..|items| - 1];
    assert items == before + [last] && last in items;
    if last != o { ReadsPool(before, o); }
  }

  lemma {:induction false} ReadsCloud(items: seq<CloudObject>, o: CloudObject)
    requires OnlyCloud(items, o) && o.secret.Some?
    ensures var n := ManagedName(o.ns, o.name); n in CloudsOf(items) && CloudsOf(items)[n] == CloudSpecOf(o)
  {
    var last, before := items[|items| - 1], items[..|items| - 1];
    assert items == before + [last] && last in items;
    if last != o { ReadsCloud(before, o); }
  }

  lemma {:induction false} ReadsForge(items: seq<ForgeObject>, o: ForgeObject)
    requires OnlyForge(items, o) && o.secret.Some?
    ensures var n := ManagedName(o.ns, o.name); n in ForgesOf(items) && ForgesOf(items)[n] == ForgeRecOf(o)
  {
    var last, before := items[|items| - 1], items[..|items| - 1];
    assert items == before + [last] && last in items;
    if last != o { ReadsForge(before, o); }
  }

  lemma {:induction false} ReadsEntry<V>(raw: seq<RawEntry<V>>, i: nat)
    requires i < |raw| && Counts(raw, i)
    ensures raw[i].name in Entries(raw) && Entries(raw)[raw[i].name] == raw[i].value
  {
    if i < |raw| - 1 {
      assert raw[|raw| - 1].name != raw[i].name;
      ReadsEntry(raw[..|raw| - 1], i);
    }
  }

  // ---- what a pass brings into the tables ----

  /** What the object refers to exists, and its machines would outlive their jobs. */
  predicate Applicable(d: Db, o: PoolObject) {
    var cloud := Meant(o.ns, o.cloudRef);
    && Meant(o.ns, o.forgeRef) in d.forges && cloud in d.clouds && Item(cloud, o.size) in d.sizes
    && (o.image != "" ==> Item(cloud, o.image) in d.images)
    && SaidOr(o.maxLifetimeSec, 7200) > SaidOr(o.jobTimeoutSec, 3600)
  }

  lemma ApplicableIsAccepted(d: Db, o: PoolObject)
    ensures Accepts(d, PoolRecOf(o)) <==> Applicable(d, o)
  {
    RecordOfPool(o);
  }

  /** After a pass in which every call works, each pool object that can be applied has its pool, which is in every field
      what the object says; what it does not say is true, 0 idle, 5 machines, 3600 and 7200 seconds. In particular an
      object that says `enabled: false` has a pool that is not. */
  lemma PoolsAreAsDeclared(db: Db, clouds: seq<CloudObject>, forges: seq<ForgeObject>, pools: seq<PoolObject>,
                           o: PoolObject)
    requires Admitted(forges, pools) && OnlyPool(pools, o)
    ensures var d := Reconcile(db, ManifestOf(clouds, forges, pools));
            Applicable(d, o) ==>
              RecordName(o.ns, o.name) in d.pools && AsPool(o, d.pools[RecordName(o.ns, o.name)])
  {
    var m := ManifestOf(clouds, forges, pools);
    var d := Reconcile(db, m);
    ManifestIsWellFormed(clouds, forges, pools);
    RecordOfPool(o);
    ReadsPool(pools, o);
    if Applicable(d, o) {
      ApplicableIsAccepted(d, o);
      FirstPassIsExact(db, m);
    }
  }

  /** Each cloud object whose secret can be read has its record, with the marker; and of its listed sizes and images
      each that has a name is in the catalogue as it was last listed. */
  lemma CloudsAreAsDeclared(db: Db, clouds: seq<CloudObject>, forges: seq<ForgeObject>, pools: seq<PoolObject>,
                            o: CloudObject)
    requires Admitted(forges, pools) && OnlyCloud(clouds, o) && o.secret.Some?
    ensures var d, n := Reconcile(db, ManifestOf(clouds, forges, pools)), RecordName(o.ns, o.name);
            && n in d.clouds && AsCloud(o, d.clouds[n])
            && (forall i :: 0 <= i < |o.sizes| && Counts(o.sizes, i) ==>
                  var k := Item(n, o.sizes[i].name); k in d.sizes && d.sizes[k] == o.sizes[i].value)
            && (forall i :: 0 <= i < |o.images| && Counts(o.images, i) ==>
                  var k := Item(n, o.images[i].name); k in d.images && d.images[k] == o.images[i].value)
  {
    var m := ManifestOf(clouds, forges, pools);
    ManifestIsWellFormed(clouds, forges, pools);
    RecordOfCloud(o);
    ReadsCloud(clouds, o);
    OnePassAchieves(db, m);
    ListedAreThere(Reconcile(db, m), m, o, RecordName(o.ns, o.name));
  }

  lemma ListedAreThere(d: Db, m: Manifest, o: CloudObject, n: string)
    requires n in m.clouds && o.secret.Some? && m.clouds[n] == CloudSpecOf(o) && RecordsAsWanted(d, m)
    ensures forall i :: 0 <= i < |o.sizes| && Counts(o.sizes, i) ==>
              var k := Item(n, o.sizes[i].name); k in d.sizes && d.sizes[k] == o.sizes[i].value
    ensures forall i :: 0 <= i < |o.images| && Counts(o.images, i) ==>
              var k := Item(n, o.images[i].name); k in d.images && d.images[k] == o.images[i].value
  {
    forall i | 0 <= i < |o.sizes| && Counts(o.sizes, i)
      ensures var k := Item(n, o.sizes[i].name); k in d.sizes && d.sizes[k] == o.sizes[i].value
    {
      ReadsEntry(o.sizes, i);
      assert Lists(SizesWanted(m.clouds), Item(n, o.sizes[i].name));
    }
    forall i | 0 <= i < |o.images| && Counts(o.images, i)
      ensures var k := Item(n, o.images[i].name); k in d.images && d.images[k] == o.images[i].value
    {
      ReadsEntry(o.images, i);
      assert Lists(ImagesWanted(m.clouds), Item(n, o.images[i].name));
    }
  }

  /** Each forge object whose secret can be read has its record. */
  lemma ForgesAreAsDeclared(db: Db, clouds: seq<CloudObject>, forges: seq<ForgeObject>, pools: seq<PoolObject>,
                            o: ForgeObject)
    requires Admitted(forges, pools) && OnlyForge(forges, o) && o.secret.Some?
    ensures var d, n := Reconcile(db, ManifestOf(clouds, forges, pools)), RecordName(o.ns, o.name);
            n in d.forges && AsForge(o, d.forges[n])
  {
    ManifestIsWellFormed(clouds, forges, pools);
    RecordOfForge(o);
    ReadsForge(forges, o);
    OnePassAchieves(db, ManifestOf(clouds, forges, pools));
  }
}
