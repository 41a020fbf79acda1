/** The Kubernetes reconciler (internal/k8s) as functions of the configuration tables and of what the cluster says:
    two passes converge, references stay intact, and what the cluster does not own is left alone. Records are known by
    their unique names; a size or an image by its cloud and its name. */
module K8s {
  import opened Types

  const MANAGED_BY_LABEL := "runnerforge.slop.place/managed-by"
  const MANAGED_VALUE := "kubernetes"

  type Params = map<string, string>

  datatype Item = Item(cloud: string, name: string)

  datatype CloudRec = CloudRec(driver: string, enabled: bool, settings: Params, credentials: Params)
  datatype ForgeRec = ForgeRec(kind: string, enabled: bool, settings: Params, credentials: Params,
                               webhookSecret: Option<string>)
  datatype SizeRec = SizeRec(spec: Params, vcpus: int, memoryMB: int, diskGB: int, hourly: real)
  datatype ImageRec = ImageRec(spec: Params, username: string, preinstalledDocker: bool)

  datatype PoolRec = PoolRec(
    forge: string,
    cloud: string,
    size: Item,
    image: Option<Item>,
    enabled: bool,
    labels: seq<string>,
    minIdle: int,
    maxInstances: int,
    jobTimeoutSec: int,
    maxLifetimeSec: int,
    containerImage: string,
    publicIPv4: bool,
    allowSSHFrom: seq<string>)

  /** The configuration tables; `busy` are the pools with live machines. */
  datatype Db = Db(
    clouds: map<string, CloudRec>,
    forges: map<string, ForgeRec>,
    sizes: map<Item, SizeRec>,
    images: map<Item, ImageRec>,
    pools: map<string, PoolRec>,
    busy: set<string>)

  // ---- what the cluster says ----

  datatype CloudSpec = CloudSpec(rec: CloudRec, sizes: map<string, SizeRec>, images: map<string, ImageRec>)

  /** The objects by record name. An object whose secret cannot be read counts as present but is not applied. */
  datatype Manifest = Manifest(
    cloudNames: set<string>,
    clouds: map<string, CloudSpec>,
    forgeNames: set<string>,
    forges: map<string, ForgeRec>,
    pools: map<string, PoolRec>)

  predicate Managed(settings: Params) {
    MANAGED_BY_LABEL in settings && settings[MANAGED_BY_LABEL] == MANAGED_VALUE
  }

  const FORGE_KINDS := {"github", "gitlab", "forgejo"}

  /** The bounds that the resource definitions set (k8s/crds.yaml): the cluster holds no pool object outside them. */
  predicate InSchema(p: PoolRec) {
    && p.labels != [] && p.minIdle >= 0 && p.maxInstances >= 1 && p.jobTimeoutSec >= 60 && p.maxLifetimeSec >= 120
  }

  /** Everything applied from the cluster is within the schema and carries the managed marker; a pool's size and image
      are looked up on its cloud. */
  predicate WellFormed(m: Manifest) {
    && m.clouds.Keys <= m.cloudNames && m.forges.Keys <= m.forgeNames
    && (forall n :: n in m.clouds ==> Managed(m.clouds[n].rec.settings))
    && (forall n :: n in m.forges ==> Managed(m.forges[n].settings) && m.forges[n].kind in FORGE_KINDS)
    && (forall n :: n in m.pools ==> OnItsCloud(m.pools[n]) && InSchema(m.pools[n]))
  }

  predicate OnItsCloud(p: PoolRec) {
    p.size.cloud == p.cloud && (p.image.Some? ==> p.image.value.cloud == p.cloud)
  }

  // ---- names ----

  /** The record name of a cluster object: namespaced outside the default namespace. */
  function ManagedName(ns: string, name: string): string {
    if ns != "" && ns != "default" then ns + "/" + name else name
  }

  /** A reference from an object in `ns`, unless it names a namespace itself. */
  function Qualify(ns: string, name: string): string {
    if ns == "" || ns == "default" || '/' in name then name else ns + "/" + name
  }

  /** Names and namespaces contain no slash, as Kubernetes requires: then objects of different namespaces or names get
      different records, and a plain reference means the object of that name in the same namespace. */
  lemma ManagedNamesAreDistinct(ns: string, name: string, ns': string, name': string)
    requires '/' !in ns && '/' !in name && '/' !in ns' && '/' !in name' && ns != "" && ns' != ""
    ensures ManagedName(ns, name) == ManagedName(ns', name') ==> ns == ns' && name == name'
    ensures Qualify(ns, name) == ManagedName(ns, name)
  {
    if ManagedName(ns, name) == ManagedName(ns', name') {
      assert ns != "default" ==> ManagedName(ns, name)[|ns|] == '/';
      assert ns' != "default" ==> ManagedName(ns', name')[|ns'|] == '/';
      if ns != "default" && ns' != "default" { SlashEndsTheNamespace(ns, name, ns', name'); }
    }
  }

  lemma SlashEndsTheNamespace(ns: string, name: string, ns': string, name': string)
    requires '/' !in ns && '/' !in ns' && ns + "/" + name == ns' + "/" + name'
    ensures ns == ns' && name == name'
  {
    var a, b := ns + "/" + name, ns' + "/" + name';
    assert a[|ns|] == '/' && b[|ns'|] == '/';
    assert forall i :: 0 <= i < |ns| ==> a[i] == ns[i];
    assert forall i :: 0 <= i < |ns'| ==> b[i] == ns'[i];
    assert |ns| == |ns'|;
    assert ns == a[..|ns|] && ns' == b[..|ns'|];
    assert name == a[|ns| + 1..] && name' == b[|ns'| + 1..];
  }

  // ---- the catalogue ----

  /** The catalogue entries that the applied objects list. */
  predicate Lists<V>(want: map<string, map<string, V>>, k: Item) {
    k.cloud in want && k.name in want[k.cloud]
  }

  function Listed<V>(want: map<string, map<string, V>>): set<Item> {
    set n, e | n in want && e in want[n] :: Item(n, e)
  }

  /** A catalogue table after the sync: on an applied cloud exactly what is listed, and what a pool still uses. */
  function Synced<V>(table: map<Item, V>, used: set<Item>, want: map<string, map<string, V>>): map<Item, V> {
    map k | k in table.Keys + Listed(want) && (k.cloud !in want || Lists(want, k) || k in used) ::
      if Lists(want, k) then want[k.cloud][k.name] else table[k]
  }

  function At<V>(table: map<Item, V>, k: Item): Option<V> {
    if k in table then Some(table[k]) else None
  }

  /** The sync, entry by entry. */
  lemma SyncedAt<V>(table: map<Item, V>, used: set<Item>, want: map<string, map<string, V>>, k: Item)
    ensures At(Synced(table, used, want), k) ==
            if Lists(want, k) then Some(want[k.cloud][k.name])
            else if k.cloud !in want || k in used then At(table, k) else None
  {
  }

  lemma SameTable<V>(a: map<Item, V>, b: map<Item, V>)
    requires forall k :: At(a, k) == At(b, k)
    ensures a == b
  {
    forall k ensures (k in a <==> k in b) && (k in a && k in b ==> a[k] == b[k]) {
      assert At(a, k) == At(b, k);
    }
  }

  /** The sync of one more cloud. */
  lemma SyncOneMore<V>(table: map<Item, V>, used: set<Item>, want: map<string, map<string, V>>, n: string,
                       entries: map<string, V>)
    requires n !in want
    ensures Synced(Synced(table, used, want), used, map[n := entries]) == Synced(table, used, want[n := entries])
  {
    var before := Synced(table, used, want);
    forall k ensures At(Synced(before, used, map[n := entries]), k) == At(Synced(table, used, want[n := entries]), k) {
      SyncedAt(table, used, want, k);
      SyncedAt(before, used, map[n := entries], k);
      SyncedAt(table, used, want[n := entries], k);
    }
    SameTable(Synced(before, used, map[n := entries]), Synced(table, used, want[n := entries]));
  }

  function SizesWanted(clouds: map<string, CloudSpec>): map<string, map<string, SizeRec>> {
    map n | n in clouds :: clouds[n].sizes
  }

  function ImagesWanted(clouds: map<string, CloudSpec>): map<string, map<string, ImageRec>> {
    map n | n in clouds :: clouds[n].images
  }

  function UsedSizes(pools: map<string, PoolRec>): set<Item> {
    set p | p in pools :: pools[p].size
  }

  function UsedImages(pools: map<string, PoolRec>): set<Item> {
    set p | p in pools && pools[p].image.Some? :: pools[p].image.value
  }

  // ---- the phases ----

  function CloudRecs(clouds: map<string, CloudSpec>): map<string, CloudRec> {
    map n | n in clouds :: clouds[n].rec
  }

  /** Every readable Cloud object: its record and its catalogue. */
  function CloudPhase(db: Db, clouds: map<string, CloudSpec>): Db {
    db.(clouds := db.clouds + CloudRecs(clouds),
        sizes := Synced(db.sizes, UsedSizes(db.pools), SizesWanted(clouds)),
        images := Synced(db.images, UsedImages(db.pools), ImagesWanted(clouds)))
  }

  function ForgePhase(db: Db, forges: map<string, ForgeRec>): Db {
    db.(forges := db.forges + forges)
  }

  /** The references of a pool resolve. */
  predicate Resolves(db: Db, p: PoolRec) {
    p.forge in db.forges && p.cloud in db.clouds && p.size in db.sizes && (p.image.Some? ==> p.image.value in db.images)
  }

  /** A manifest cannot create a pool whose machines would be reaped in the middle of a job. */
  predicate Accepts(db: Db, p: PoolRec) {
    Resolves(db, p) && p.maxLifetimeSec > p.jobTimeoutSec
  }

  const DEFAULT_MAX_INSTANCES := 5
  const DEFAULT_JOB_TIMEOUT_SEC := 3600
  const DEFAULT_MAX_LIFETIME_SEC := 7200

  /** What an insert stores: a zero in a column that has a default is left out of the statement, so the default
      wins. */
  function Inserted(p: PoolRec): PoolRec {
    p.(maxInstances := if p.maxInstances == 0 then DEFAULT_MAX_INSTANCES else p.maxInstances,
       jobTimeoutSec := if p.jobTimeoutSec == 0 then DEFAULT_JOB_TIMEOUT_SEC else p.jobTimeoutSec,
       maxLifetimeSec := if p.maxLifetimeSec == 0 then DEFAULT_MAX_LIFETIME_SEC else p.maxLifetimeSec)
  }

  function Written(existing: bool, p: PoolRec): PoolRec {
    if existing then p else Inserted(p)
  }

  /** No pool within the schema has such a zero: it is stored as it is. */
  lemma InsertedAsAsked(existing: bool, p: PoolRec)
    requires InSchema(p)
    ensures Written(existing, p) == p
  {
  }

  function PoolPhase(db: Db, pools: map<string, PoolRec>): Db {
    db.(pools := db.pools + map n | n in pools && Accepts(db, pools[n]) :: Written(n in db.pools, pools[n]))
  }

  /** A pool belongs to the cluster when its cloud does. */
  predicate ManagesPool(db: Db, p: PoolRec) {
    p.cloud in db.clouds && Managed(db.clouds[p.cloud].settings)
  }

  predicate PrunesPool(db: Db, n: string, present: set<string>)
    requires n in db.pools
  {
    n !in present && ManagesPool(db, db.pools[n]) && n !in db.busy
  }

  function PrunePools(db: Db, present: set<string>): Db {
    db.(pools := map n | n in db.pools && !PrunesPool(db, n, present) :: db.pools[n])
  }

  predicate ForgeUsed(pools: map<string, PoolRec>, n: string) { exists p :: p in pools && pools[p].forge == n }

  predicate CloudUsed(pools: map<string, PoolRec>, n: string) { exists p :: p in pools && pools[p].cloud == n }

  /** Some pool is on the cloud, or has its size or its image there: then the store does not let the cloud go. */
  predicate CloudReferred(pools: map<string, PoolRec>, n: string) {
    exists p :: p in pools && RefersToCloud(pools[p], n)
  }

  predicate RefersToCloud(p: PoolRec, n: string) {
    p.cloud == n || p.size.cloud == n || (p.image.Some? && p.image.value.cloud == n)
  }

  function PruneForges(db: Db, present: set<string>): Db {
    var left :=
      map n | n in db.forges && (n in present || !Managed(db.forges[n].settings) || ForgeUsed(db.pools, n)) ::
        db.forges[n];
    db.(forges := left)
  }

  /** The entries left when of `all` clouds only those in `left` are. */
  function OfClouds<V>(table: map<Item, V>, left: set<string>, all: set<string>): map<Item, V> {
    map k | k in table && (k.cloud in left || k.cloud !in all) :: table[k]
  }

  /** Deleting a cloud deletes its sizes and images with it. */
  function PruneClouds(db: Db, present: set<string>): Db {
    var left :=
      map n | n in db.clouds && (n in present || !Managed(db.clouds[n].settings) || CloudReferred(db.pools, n)) ::
        db.clouds[n];
    db.(clouds := left,
        sizes := OfClouds(db.sizes, left.Keys, db.clouds.Keys),
        images := OfClouds(db.images, left.Keys, db.clouds.Keys))
  }

  function PruneDeleted(db: Db, m: Manifest): Db {
    PruneClouds(PruneForges(PrunePools(db, m.pools.Keys), m.forgeNames), m.cloudNames)
  }

  function Applied(db: Db, m: Manifest): Db {
    PoolPhase(ForgePhase(CloudPhase(db, m.clouds), m.forges), m.pools)
  }

  /** One pass in which every call works. */
  function Reconcile(db: Db, m: Manifest): Db {
    PruneDeleted(Applied(db, m), m)
  }

  // ---- references ----

  /** Pool `p`, if it exists, has its forge, cloud, size and image, the size and the image on its own cloud. */
  predicate Intact(db: Db, p: string) {
    p in db.pools ==> Resolves(db, db.pools[p]) && OnItsCloud(db.pools[p])
  }

  lemma SyncedKeeps<V>(table: map<Item, V>, used: set<Item>, want: map<string, map<string, V>>)
    ensures var t := Synced(table, used, want);
            && (forall k :: k in t ==> k in table || k.cloud in want)
            && (forall k :: k in used && k in table ==> k in t)
            && (forall k :: k in table && k.cloud !in want ==> k in t && t[k] == table[k])
            && (forall k :: Lists(want, k) ==> k in t && t[k] == want[k.cloud][k.name])
            && (forall k :: k in t && k.cloud in want && !Lists(want, k) ==>
                  k in used && k in table && t[k] == table[k])
  {
  }

  lemma CloudPhaseKeepsIntact(db: Db, clouds: map<string, CloudSpec>, p: string)
    requires Intact(db, p)
    ensures Intact(CloudPhase(db, clouds), p)
  {
  }

  lemma PoolPhaseKeepsIntact(b: Db, pools: map<string, PoolRec>, p: string)
    requires Intact(b, p) && (p in pools ==> OnItsCloud(pools[p]))
    ensures Intact(PoolPhase(b, pools), p)
  {
  }

  lemma PruneKeepsIntact(db: Db, m: Manifest, p: string)
    requires Intact(db, p)
    ensures Intact(PruneDeleted(db, m), p)
  {
    var d := PruneForges(PrunePools(db, m.pools.Keys), m.forgeNames);
    assert Intact(d, p);
    if p in d.pools {
      var r := d.pools[p];
      assert RefersToCloud(r, r.cloud) && CloudReferred(d.pools, r.cloud);
    }
  }

  /** Every pass keeps the references of each pool that had them, whatever the state of other pools, and gives them to
      each pool it writes. */
  lemma ReconcileKeepsIntact(db: Db, m: Manifest, p: string)
    requires WellFormed(m) && Intact(db, p)
    ensures Intact(Reconcile(db, m), p)
  {
    var b := ForgePhase(CloudPhase(db, m.clouds), m.forges);
    CloudPhaseKeepsIntact(db, m.clouds, p);
    assert Intact(b, p);
    PoolPhaseKeepsIntact(b, m.pools, p);
    PruneKeepsIntact(Applied(db, m), m, p);
  }

  // ---- what the cluster does not own ----

  predicate Foreign(db: Db, m: Manifest, cloud: string) {
    cloud in db.clouds && cloud !in m.cloudNames && !Managed(db.clouds[cloud].settings)
  }

  /** A pass leaves clouds without the marker that match no object alone, and their catalogues. */
  lemma ForeignCloudsUntouched(db: Db, m: Manifest)
    requires WellFormed(m)
    ensures var db' := Reconcile(db, m);
            && (forall n :: Foreign(db, m, n) ==> n in db'.clouds && db'.clouds[n] == db.clouds[n])
            && (forall k: Item :: Foreign(db, m, k.cloud) ==>
                  At(db'.sizes, k) == At(db.sizes, k) && At(db'.images, k) == At(db.images, k))
  {
    var c, db' := Applied(db, m), Reconcile(db, m);
    assert c.clouds == db.clouds + CloudRecs(m.clouds);
    forall n | Foreign(db, m, n) ensures n in db'.clouds && db'.clouds[n] == db.clouds[n] {
      assert n in c.clouds && c.clouds[n] == db.clouds[n];
    }
    forall k: Item | Foreign(db, m, k.cloud)
      ensures At(db'.sizes, k) == At(db.sizes, k) && At(db'.images, k) == At(db.images, k)
    {
      SyncedAt(db.sizes, UsedSizes(db.pools), SizesWanted(m.clouds), k);
      SyncedAt(db.images, UsedImages(db.pools), ImagesWanted(m.clouds), k);
      assert k.cloud in db'.clouds;
    }
  }

  /** It leaves forges without the marker that match no object alone. */
  lemma ForeignForgesUntouched(db: Db, m: Manifest, n: string)
    requires WellFormed(m) && n in db.forges && n !in m.forgeNames && !Managed(db.forges[n].settings)
    ensures var db' := Reconcile(db, m); n in db'.forges && db'.forges[n] == db.forges[n]
  {
  }

  /** It leaves pools that match no object alone when their cloud is foreign, and never removes one with live
      machines. */
  lemma ForeignPoolsUntouched(db: Db, m: Manifest, p: string)
    requires WellFormed(m) && p in db.pools
    ensures var db' := Reconcile(db, m);
            && (p !in m.pools && Foreign(db, m, db.pools[p].cloud) ==> p in db'.pools && db'.pools[p] == db.pools[p])
            && (p in db.busy ==> p in db'.pools)
  {
    AppliedPool(db, m, p);
    var c := Applied(db, m);
    if p in db.busy || (p !in m.pools && Foreign(db, m, db.pools[p].cloud)) { PruneKeepsPool(c, m, p); }
  }

  lemma AppliedPool(db: Db, m: Manifest, p: string)
    requires WellFormed(m) && p in db.pools
    ensures var c := Applied(db, m);
            && p in c.pools && c.busy == db.busy && (p !in m.pools ==> c.pools[p] == db.pools[p])
            && (Foreign(db, m, db.pools[p].cloud) ==> !ManagesPool(c, db.pools[p]))
  {
  }

  lemma PruneKeepsPool(c: Db, m: Manifest, p: string)
    requires p in c.pools && (p in m.pools || !ManagesPool(c, c.pools[p]) || p in c.busy)
    ensures var d := PruneDeleted(c, m); p in d.pools && d.pools[p] == c.pools[p]
  {
  }

  // ---- convergence ----

  predicate SameRefs(p: PoolRec, q: PoolRec) {
    p.forge == q.forge && p.cloud == q.cloud && p.size == q.size && p.image == q.image
  }

  ghost predicate CatalogueAsWanted<V>(table: map<Item, V>, want: map<string, map<string, V>>) {
    forall k :: Lists(want, k) ==> At(table, k) == Some(want[k.cloud][k.name])
  }

  /** Every applied cloud and forge is as its object says, and the catalogues have everything that is listed. */
  ghost predicate RecordsAsWanted(db: Db, m: Manifest) {
    && (forall n :: n in m.clouds ==> n in db.clouds && db.clouds[n] == m.clouds[n].rec)
    && (forall n :: n in m.forges ==> n in db.forges && db.forges[n] == m.forges[n])
    && CatalogueAsWanted(db.sizes, SizesWanted(m.clouds))
    && CatalogueAsWanted(db.images, ImagesWanted(m.clouds))
  }

  /** Every pool object that is accepted has its pool, with the references it asks for. */
  ghost predicate PoolsReferAsWanted(db: Db, m: Manifest) {
    forall n :: n in m.pools && Accepts(db, m.pools[n]) ==> n in db.pools && SameRefs(db.pools[n], m.pools[n])
  }

  ghost predicate NothingToPrune(db: Db, m: Manifest) {
    && (forall n :: n in db.pools ==> !PrunesPool(db, n, m.pools.Keys))
    && (forall n :: n in db.forges ==> n in m.forgeNames || !Managed(db.forges[n].settings) || ForgeUsed(db.pools, n))
    && (forall n :: n in db.clouds ==>
          n in m.cloudNames || !Managed(db.clouds[n].settings) || CloudReferred(db.pools, n))
  }

  /** What one pass brings about. */
  ghost predicate AfterOnePass(db: Db, m: Manifest) {
    RecordsAsWanted(db, m) && PoolsReferAsWanted(db, m) && NothingToPrune(db, m)
  }

  /** No applied cloud has a catalogue entry that is neither listed nor used. */
  ghost predicate Tidy(db: Db, m: Manifest) {
    && (forall k :: k in db.sizes && k.cloud in m.clouds && !Lists(SizesWanted(m.clouds), k) ==>
          k in UsedSizes(db.pools))
    && (forall k :: k in db.images && k.cloud in m.clouds && !Lists(ImagesWanted(m.clouds), k) ==>
          k in UsedImages(db.pools))
  }

  /** Every accepted pool object has its pool exactly. */
  ghost predicate PoolsExact(db: Db, m: Manifest) {
    forall n :: n in m.pools && Accepts(db, m.pools[n]) ==> n in db.pools && db.pools[n] == m.pools[n]
  }

  lemma PrunedHasNothingToPrune(c: Db, m: Manifest)
    ensures NothingToPrune(PruneDeleted(c, m), m)
  {
  }

  lemma PruneKeepsRecords(c: Db, m: Manifest)
    requires WellFormed(m) && RecordsAsWanted(c, m)
    ensures RecordsAsWanted(PruneDeleted(c, m), m)
  {
  }

  lemma PruneKeepsRefs(c: Db, m: Manifest)
    requires PoolsReferAsWanted(c, m)
    ensures PoolsReferAsWanted(PruneDeleted(c, m), m)
  {
  }

  lemma AppliedRecords(db: Db, m: Manifest)
    ensures RecordsAsWanted(Applied(db, m), m)
  {
    SyncedKeeps(db.sizes, UsedSizes(db.pools), SizesWanted(m.clouds));
    SyncedKeeps(db.images, UsedImages(db.pools), ImagesWanted(m.clouds));
    var c := Applied(db, m);
    assert c.sizes == Synced(db.sizes, UsedSizes(db.pools), SizesWanted(m.clouds));
    assert c.images == Synced(db.images, UsedImages(db.pools), ImagesWanted(m.clouds));
    assert c.clouds == db.clouds + CloudRecs(m.clouds);
    assert c.forges == db.forges + m.forges;
  }

  lemma PoolPhaseRefers(b: Db, m: Manifest)
    ensures PoolsReferAsWanted(PoolPhase(b, m.pools), m)
  {
  }

  lemma OnePassAchieves(db: Db, m: Manifest)
    requires WellFormed(m)
    ensures AfterOnePass(Reconcile(db, m), m)
  {
    AppliedRecords(db, m);
    PoolPhaseRefers(ForgePhase(CloudPhase(db, m.clouds), m.forges), m);
    PruneKeepsRecords(Applied(db, m), m);
    PruneKeepsRefs(Applied(db, m), m);
    PrunedHasNothingToPrune(Applied(db, m), m);
  }

  /** Only entries that are not listed go in a second sync. */
  lemma SecondSync<V>(table: map<Item, V>, used: set<Item>, want: map<string, map<string, V>>)
    requires CatalogueAsWanted(table, want)
    ensures var t := Synced(table, used, want);
            && (forall k :: k in t ==> k in table && t[k] == table[k])
            && (forall k :: k in table && k !in t ==> k.cloud in want && !Lists(want, k) && k !in used)
            && (forall k :: k in t && k.cloud in want && !Lists(want, k) ==> k in used)
  {
  }

  /** Before the pools, a second pass only drops catalogue entries that are neither listed nor used. */
  lemma SecondPassShape(d: Db, m: Manifest)
    requires AfterOnePass(d, m)
    ensures ForgePhase(CloudPhase(d, m.clouds), m.forges) ==
            d.(sizes := Synced(d.sizes, UsedSizes(d.pools), SizesWanted(m.clouds)),
               images := Synced(d.images, UsedImages(d.pools), ImagesWanted(m.clouds)))
  {
    var a := CloudPhase(d, m.clouds);
    assert a.clouds == d.clouds;
    assert ForgePhase(a, m.forges).forges == d.forges;
  }

  /** A second pass over the pools keeps every reference and writes the limits that an insert had replaced. */
  lemma SecondPoolPhase(d: Db, b: Db, m: Manifest)
    requires PoolsReferAsWanted(d, m)
    requires b == d.(sizes := b.sizes, images := b.images) && b.sizes.Keys <= d.sizes.Keys
             && b.images.Keys <= d.images.Keys
    ensures var c := PoolPhase(b, m.pools);
            && c.pools.Keys == d.pools.Keys
            && (forall n :: n in d.pools ==> SameRefs(c.pools[n], d.pools[n]))
            && PoolsExact(c, m)
  {
    forall n | n in m.pools && Accepts(b, m.pools[n]) ensures n in d.pools && SameRefs(d.pools[n], m.pools[n]) {
      assert Accepts(d, m.pools[n]);
    }
    var c := PoolPhase(b, m.pools);
    forall n | n in m.pools && Accepts(c, m.pools[n]) ensures n in c.pools && c.pools[n] == m.pools[n] {
      assert Accepts(b, m.pools[n]);
    }
  }

  lemma SameRefsSameUse(p: map<string, PoolRec>, q: map<string, PoolRec>)
    requires p.Keys == q.Keys && forall n :: n in p ==> SameRefs(p[n], q[n])
    ensures UsedSizes(p) == UsedSizes(q) && UsedImages(p) == UsedImages(q)
    ensures forall n :: (ForgeUsed(p, n) <==> ForgeUsed(q, n)) && (CloudReferred(p, n) <==> CloudReferred(q, n))
  {
    forall n ensures CloudReferred(p, n) <==> CloudReferred(q, n) {
      assert forall k :: k in p ==> RefersToCloud(p[k], n) == RefersToCloud(q[k], n);
    }
  }

  /** When nothing is to be pruned, pruning changes nothing. */
  lemma NothingPruned(c: Db, m: Manifest)
    requires NothingToPrune(c, m)
    ensures PruneDeleted(c, m) == c
  {
    var a := PrunePools(c, m.pools.Keys);
    assert a.pools == c.pools;
    var b := PruneForges(a, m.forgeNames);
    assert b.forges == c.forges;
    var d := PruneClouds(b, m.cloudNames);
    assert d.clouds == c.clouds && d.sizes == c.sizes && d.images == c.images;
  }

  lemma SecondPassSettles(d: Db, m: Manifest)
    requires WellFormed(m) && AfterOnePass(d, m)
    ensures Reconcile(d, m) == Applied(d, m)
    ensures var e := Reconcile(d, m); AfterOnePass(e, m) && Tidy(e, m) && PoolsExact(e, m)
  {
    var b := ForgePhase(CloudPhase(d, m.clouds), m.forges);
    var c := PoolPhase(b, m.pools);
    SecondPassShape(d, m);
    SecondSync(d.sizes, UsedSizes(d.pools), SizesWanted(m.clouds));
    SecondSync(d.images, UsedImages(d.pools), ImagesWanted(m.clouds));
    SecondPoolPhase(d, b, m);
    SameRefsSameUse(c.pools, d.pools);
    NothingToPruneStill(d, c, m);
    NothingPruned(c, m);
    OnePassAchieves(d, m);
  }

  lemma NothingToPruneStill(d: Db, c: Db, m: Manifest)
    requires NothingToPrune(d, m) && c == d.(sizes := c.sizes, images := c.images, pools := c.pools)
    requires c.pools.Keys == d.pools.Keys && forall n :: n in d.pools ==> SameRefs(c.pools[n], d.pools[n])
    ensures NothingToPrune(c, m)
  {
  }

  lemma TidySyncIsIdentity<V>(table: map<Item, V>, used: set<Item>, want: map<string, map<string, V>>)
    requires CatalogueAsWanted(table, want)
    requires forall k :: k in table && k.cloud in want && !Lists(want, k) ==> k in used
    ensures Synced(table, used, want) == table
  {
  }

  lemma ExactPoolsAreFixed(d: Db, m: Manifest)
    requires PoolsExact(d, m)
    ensures PoolPhase(d, m.pools) == d
  {
  }

  lemma SettledIsFixed(d: Db, m: Manifest)
    requires AfterOnePass(d, m) && Tidy(d, m) && PoolsExact(d, m)
    ensures Reconcile(d, m) == d
  {
    SecondPassShape(d, m);
    TidySyncIsIdentity(d.sizes, UsedSizes(d.pools), SizesWanted(m.clouds));
    TidySyncIsIdentity(d.images, UsedImages(d.pools), ImagesWanted(m.clouds));
    ExactPoolsAreFixed(d, m);
    NothingPruned(d, m);
  }

  /** With the cluster and the live machines standing still, a third pass changes no record, whatever the tables held
      before. */
  lemma ThirdPassChangesNothing(db: Db, m: Manifest)
    requires WellFormed(m)
    ensures var second := Reconcile(Reconcile(db, m), m); Reconcile(second, m) == second
  {
    var first := Reconcile(db, m);
    OnePassAchieves(db, m);
    SecondPassSettles(first, m);
    SettledIsFixed(Reconcile(first, m), m);
  }

  // ---- when one pass is enough ----

  lemma SettledExactlyWhenTidy(db: Db, m: Manifest)
    requires WellFormed(m)
    ensures var first := Reconcile(db, m); Reconcile(first, m) == first <==> Tidy(first, m) && PoolsExact(first, m)
  {
    var first := Reconcile(db, m);
    OnePassAchieves(db, m);
    SecondPassSettles(first, m);
    if Tidy(first, m) && PoolsExact(first, m) { SettledIsFixed(first, m); }
  }

  /** A catalogue entry that will be there when the pools are looked at. */
  predicate WillExist<V>(table: map<Item, V>, used: set<Item>, want: map<string, map<string, V>>, k: Item) {
    Lists(want, k) || (k in table && (k.cloud !in want || k in used))
  }

  /** The pool object will be accepted. */
  predicate WillAccept(db: Db, m: Manifest, n: string) {
    && n in m.pools
    && var p := m.pools[n];
       && p.maxLifetimeSec > p.jobTimeoutSec
       && (p.forge in db.forges || p.forge in m.forges)
       && (p.cloud in db.clouds || p.cloud in m.clouds)
       && WillExist(db.sizes, UsedSizes(db.pools), SizesWanted(m.clouds), p.size)
       && (p.image.Some? ==> WillExist(db.images, UsedImages(db.pools), ImagesWanted(m.clouds), p.image.value))
  }

  /** The pool will be removed: it has no object, its cloud is the cluster's, and none of its machines is live. */
  predicate WillPrune(db: Db, m: Manifest, n: string)
    requires n in db.pools
  {
    n !in m.pools && (db.pools[n].cloud in m.clouds || ManagesPool(db, db.pools[n])) && n !in db.busy
  }

  /** The pools a pass leaves, and how it leaves them. */
  predicate WillHave(db: Db, m: Manifest, n: string) {
    WillAccept(db, m, n) || (n in db.pools && !WillPrune(db, m, n))
  }

  function RefsAfter(db: Db, m: Manifest, n: string): PoolRec
    requires WillHave(db, m, n)
  {
    if WillAccept(db, m, n) then m.pools[n] else db.pools[n]
  }

  predicate StillUsesSize(db: Db, m: Manifest, k: Item) {
    exists n :: n in db.pools.Keys + m.pools.Keys && WillHave(db, m, n) && RefsAfter(db, m, n).size == k
  }

  predicate StillUsesImage(db: Db, m: Manifest, k: Item) {
    exists n :: n in db.pools.Keys + m.pools.Keys && WillHave(db, m, n) && RefsAfter(db, m, n).image == Some(k)
  }

  /** An unlisted entry of an applied cloud whose every pool moves off it, or goes, only after the sync has spared
      it. */
  predicate FreesSize(db: Db, m: Manifest, k: Item) {
    && k in db.sizes && k.cloud in m.clouds && !Lists(SizesWanted(m.clouds), k)
    && k in UsedSizes(db.pools) && !StillUsesSize(db, m, k)
  }

  predicate FreesImage(db: Db, m: Manifest, k: Item) {
    && k in db.images && k.cloud in m.clouds && !Lists(ImagesWanted(m.clouds), k)
    && k in UsedImages(db.pools) && !StillUsesImage(db, m, k)
  }

  lemma WillExistExactlyWhen<V>(table: map<Item, V>, used: set<Item>, want: map<string, map<string, V>>, k: Item)
    ensures k in Synced(table, used, want) <==> WillExist(table, used, want, k)
  {
    SyncedAt(table, used, want, k);
  }

  /** The tables the pools are looked up in. */
  lemma BeforePools(db: Db, m: Manifest)
    ensures var b := ForgePhase(CloudPhase(db, m.clouds), m.forges);
            && b.clouds.Keys == db.clouds.Keys + m.clouds.Keys && b.forges.Keys == db.forges.Keys + m.forges.Keys
            && b.sizes == Synced(db.sizes, UsedSizes(db.pools), SizesWanted(m.clouds))
            && b.images == Synced(db.images, UsedImages(db.pools), ImagesWanted(m.clouds))
  {
  }

  lemma ResolvesExactlyWhen(b: Db, db: Db, m: Manifest, p: PoolRec)
    requires b.clouds.Keys == db.clouds.Keys + m.clouds.Keys && b.forges.Keys == db.forges.Keys + m.forges.Keys
    requires b.sizes == Synced(db.sizes, UsedSizes(db.pools), SizesWanted(m.clouds))
    requires b.images == Synced(db.images, UsedImages(db.pools), ImagesWanted(m.clouds))
    ensures Resolves(b, p) <==>
              && (p.forge in db.forges || p.forge in m.forges) && (p.cloud in db.clouds || p.cloud in m.clouds)
              && WillExist(db.sizes, UsedSizes(db.pools), SizesWanted(m.clouds), p.size)
              && (p.image.Some? ==> WillExist(db.images, UsedImages(db.pools), ImagesWanted(m.clouds), p.image.value))
  {
    WillExistExactlyWhen(db.sizes, UsedSizes(db.pools), SizesWanted(m.clouds), p.size);
    if p.image.Some? {
      WillExistExactlyWhen(db.images, UsedImages(db.pools), ImagesWanted(m.clouds), p.image.value);
    }
    assert p.forge in b.forges.Keys <==> p.forge in db.forges.Keys || p.forge in m.forges.Keys;
    assert p.cloud in b.clouds.Keys <==> p.cloud in db.clouds.Keys || p.cloud in m.clouds.Keys;
  }

  lemma AcceptsExactlyWhen(db: Db, m: Manifest, n: string)
    requires n in m.pools
    ensures Accepts(ForgePhase(CloudPhase(db, m.clouds), m.forges), m.pools[n]) <==> WillAccept(db, m, n)
  {
    BeforePools(db, m);
    ResolvesExactlyWhen(ForgePhase(CloudPhase(db, m.clouds), m.forges), db, m, m.pools[n]);
  }

  lemma PoolApplied(db: Db, m: Manifest, n: string)
    ensures var c := Applied(db, m);
            && (n in c.pools <==> n in db.pools || WillAccept(db, m, n))
            && (n in c.pools ==>
                  c.pools[n] == if WillAccept(db, m, n) then Written(n in db.pools, m.pools[n]) else db.pools[n])
  {
    if n in m.pools { AcceptsExactlyWhen(db, m, n); }
  }

  lemma AppliedClouds(db: Db, m: Manifest)
    ensures Applied(db, m).clouds == db.clouds + CloudRecs(m.clouds) && Applied(db, m).busy == db.busy
  {
  }

  lemma ManagedAfter(d: Db, c: Db, m: Manifest, p: PoolRec)
    requires WellFormed(m) && c.clouds == d.clouds + CloudRecs(m.clouds)
    ensures ManagesPool(c, p) <==> p.cloud in m.clouds || ManagesPool(d, p)
  {
  }

  lemma PruneExactlyWhen(db: Db, m: Manifest, n: string)
    requires WellFormed(m) && n in db.pools && n in Applied(db, m).pools
    ensures PrunesPool(Applied(db, m), n, m.pools.Keys) <==> WillPrune(db, m, n)
  {
    PoolApplied(db, m, n);
    AppliedClouds(db, m);
    ManagedAfter(db, Applied(db, m), m, db.pools[n]);
  }

  lemma PoolPruned(c: Db, m: Manifest, n: string)
    ensures var d := PruneDeleted(c, m);
            && (n in d.pools <==> n in c.pools && !PrunesPool(c, n, m.pools.Keys))
            && (n in d.pools ==> d.pools[n] == c.pools[n])
  {
  }

  /** The pools after a pass. */
  lemma PoolAfter(db: Db, m: Manifest, n: string)
    requires WellFormed(m)
    ensures var first := Reconcile(db, m);
            && (n in first.pools <==> WillHave(db, m, n))
            && (n in first.pools ==> first.pools[n] == RefsAfter(db, m, n))
  {
    PoolApplied(db, m, n);
    if n in m.pools { InsertedAsAsked(n in db.pools, m.pools[n]); }
    PoolPruned(Applied(db, m), m, n);
    if n in db.pools { PruneExactlyWhen(db, m, n); }
  }

  lemma UsedAfter(db: Db, m: Manifest, k: Item)
    requires WellFormed(m)
    ensures var first := Reconcile(db, m);
            && (k in UsedSizes(first.pools) <==> StillUsesSize(db, m, k))
            && (k in UsedImages(first.pools) <==> StillUsesImage(db, m, k))
  {
    var first := Reconcile(db, m);
    forall n ensures n in first.pools <==> WillHave(db, m, n)
             ensures n in first.pools ==> SameRefs(first.pools[n], RefsAfter(db, m, n))
    {
      PoolAfter(db, m, n);
    }
    assert forall n :: WillHave(db, m, n) ==> n in db.pools.Keys + m.pools.Keys;
  }

  /** What an applied cloud's catalogue keeps besides the listed entries is what was in use before the pass. */
  lemma EntriesAfter(db: Db, m: Manifest, k: Item)
    requires WellFormed(m) && k.cloud in m.clouds
    ensures var first := Reconcile(db, m);
            && (!Lists(SizesWanted(m.clouds), k) ==> (k in first.sizes <==> k in db.sizes && k in UsedSizes(db.pools)))
            && (!Lists(ImagesWanted(m.clouds), k) ==>
                  (k in first.images <==> k in db.images && k in UsedImages(db.pools)))
  {
    var c, first := Applied(db, m), Reconcile(db, m);
    SyncedAt(db.sizes, UsedSizes(db.pools), SizesWanted(m.clouds), k);
    SyncedAt(db.images, UsedImages(db.pools), ImagesWanted(m.clouds), k);
    assert k.cloud in c.clouds && k.cloud in first.clouds;
  }

  lemma FreedExactlyWhen(db: Db, m: Manifest, k: Item)
    requires WellFormed(m) && k.cloud in m.clouds
    ensures var first := Reconcile(db, m);
            && (FreesSize(db, m, k) <==>
                  k in first.sizes && !Lists(SizesWanted(m.clouds), k) && k !in UsedSizes(first.pools))
            && (FreesImage(db, m, k) <==>
                  k in first.images && !Lists(ImagesWanted(m.clouds), k) && k !in UsedImages(first.pools))
  {
    UsedAfter(db, m, k);
    EntriesAfter(db, m, k);
  }

  lemma TidyExactlyWhen(db: Db, m: Manifest)
    requires WellFormed(m)
    ensures Tidy(Reconcile(db, m), m) <==> forall k :: !FreesSize(db, m, k) && !FreesImage(db, m, k)
  {
    var first := Reconcile(db, m);
    forall k: Item | k.cloud in m.clouds
      ensures FreesSize(db, m, k) <==>
                k in first.sizes && !Lists(SizesWanted(m.clouds), k) && k !in UsedSizes(first.pools)
      ensures FreesImage(db, m, k) <==>
                k in first.images && !Lists(ImagesWanted(m.clouds), k) && k !in UsedImages(first.pools)
    {
      FreedExactlyWhen(db, m, k);
    }
    TidyUnfolds(first, m);
  }

  lemma TidyUnfolds(d: Db, m: Manifest)
    ensures Tidy(d, m) <==>
              forall k: Item :: k.cloud in m.clouds ==>
                && !(k in d.sizes && !Lists(SizesWanted(m.clouds), k) && k !in UsedSizes(d.pools))
                && !(k in d.images && !Lists(ImagesWanted(m.clouds), k) && k !in UsedImages(d.pools))
  {
  }

  lemma AcceptsAfter(db: Db, m: Manifest, n: string)
    requires WellFormed(m) && n in m.pools
    ensures Accepts(Reconcile(db, m), m.pools[n]) <==> WillAccept(db, m, n)
  {
    var b, first := ForgePhase(CloudPhase(db, m.clouds), m.forges), Reconcile(db, m);
    AcceptsExactlyWhen(db, m, n);
    if WillAccept(db, m, n) {
      PoolAfter(db, m, n);
      WrittenResolves(db, m, n);
    }
  }

  lemma WrittenIsIntact(b: Db, pools: map<string, PoolRec>, n: string)
    requires n in pools && Accepts(b, pools[n]) && OnItsCloud(pools[n])
    ensures var c := PoolPhase(b, pools); Intact(c, n) && n in c.pools && SameRefs(c.pools[n], pools[n])
  {
  }

  /** What was written with its references still has them at the end of the pass. */
  lemma WrittenResolves(db: Db, m: Manifest, n: string)
    requires WellFormed(m) && n in m.pools && Accepts(ForgePhase(CloudPhase(db, m.clouds), m.forges), m.pools[n])
    ensures Resolves(Reconcile(db, m), m.pools[n])
  {
    var c := Applied(db, m);
    WrittenIsIntact(ForgePhase(CloudPhase(db, m.clouds), m.forges), m.pools, n);
    PruneKeepsIntact(c, m, n);
    PruneKeepsPool(c, m, n);
  }

  /** One pass is enough for the pools themselves. */
  lemma FirstPassIsExact(db: Db, m: Manifest)
    requires WellFormed(m)
    ensures PoolsExact(Reconcile(db, m), m)
  {
    var first := Reconcile(db, m);
    forall n | n in m.pools && Accepts(first, m.pools[n]) ensures n in first.pools && first.pools[n] == m.pools[n] {
      AcceptsAfter(db, m, n);
      PoolAfter(db, m, n);
    }
  }

  /** One pass is enough exactly when it frees no catalogue entry that the sync has already gone past. */
  lemma OnePassEnoughExactlyWhen(db: Db, m: Manifest)
    requires WellFormed(m)
    ensures var first := Reconcile(db, m);
            Reconcile(first, m) == first <==> forall k :: !FreesSize(db, m, k) && !FreesImage(db, m, k)
  {
    SettledExactlyWhenTidy(db, m);
    TidyExactlyWhen(db, m);
    FirstPassIsExact(db, m);
  }

  // ---- tables that take two passes ----

  function PlainPool(size: string): PoolRec {
    PoolRec("f", "c", Item("c", size), None, true, ["linux"], 0, 1, 3600, 7200, "", true, [])
  }

  /** One cloud with the one size given, one forge, one pool of that size. */
  function PlainManifest(name: string, size: SizeRec): Manifest {
    var marked := map[MANAGED_BY_LABEL := MANAGED_VALUE];
    Manifest({"c"}, map["c" := CloudSpec(CloudRec("docker", true, marked, map[]), map[name := size], map[])],
             {"f"}, map["f" := ForgeRec("github", true, marked, map[], None)], map["p" := PlainPool(name)])
  }

  /** The tables that a pass makes of it. */
  function PlainTables(name: string, size: SizeRec): Db {
    Reconcile(Db(map[], map[], map[], map[], map[], {}), PlainManifest(name, size))
  }

  lemma PlainIsWellFormed(name: string, size: SizeRec)
    ensures WellFormed(PlainManifest(name, size))
  {
  }

  lemma PlainListsItsSize(name: string, size: SizeRec)
    ensures Lists(SizesWanted(PlainManifest(name, size).clouds), Item("c", name))
    ensures forall k :: Lists(SizesWanted(PlainManifest(name, size).clouds), k) ==> k == Item("c", name)
  {
  }

  lemma PlainWillAccept(db: Db, name: string, size: SizeRec)
    ensures WillAccept(db, PlainManifest(name, size), "p")
  {
    PlainListsItsSize(name, size);
  }

  lemma PlainTablesAre(name: string, size: SizeRec)
    ensures var db := PlainTables(name, size);
            "p" in db.pools && db.pools["p"] == PlainPool(name) && Item("c", name) in db.sizes
            && forall n :: n in db.pools ==> n == "p"
  {
    var empty, m := Db(map[], map[], map[], map[], map[], {}), PlainManifest(name, size);
    PlainIsWellFormed(name, size);
    PlainListsItsSize(name, size);
    PlainWillAccept(empty, name, size);
    PoolAfter(empty, m, "p");
    forall n | n in Reconcile(empty, m).pools ensures n == "p" { PoolAfter(empty, m, n); }
    OnePassAchieves(empty, m);
    assert At(Reconcile(empty, m).sizes, Item("c", name)).Some?;
  }

  /** A size of the one pool that is on its way to another. */
  lemma FreesTheOldSize(db: Db, small: string, name: string, size: SizeRec)
    requires "p" in db.pools && db.pools["p"] == PlainPool(small) && Item("c", small) in db.sizes && small != name
    requires forall n :: n in db.pools ==> n == "p"
    ensures FreesSize(db, PlainManifest(name, size), Item("c", small))
  {
    var m := PlainManifest(name, size);
    PlainListsItsSize(name, size);
    PlainWillAccept(db, name, size);
    assert db.pools["p"].size == Item("c", small);
    assert forall n :: n in db.pools.Keys + m.pools.Keys ==> n == "p";
    assert RefsAfter(db, m, "p").size == Item("c", name);
  }

  /** A pool whose object moves it from one size to another, the first no longer listed: that size is still in use when
      its cloud is synced, and no longer when the pass is over. */
  lemma FreedSizeTakesTwoPasses(small: SizeRec, large: SizeRec)
    ensures var db, m := PlainTables("small", small), PlainManifest("large", large);
            WellFormed(m) && Reconcile(Reconcile(db, m), m) != Reconcile(db, m)
  {
    var db, m := PlainTables("small", small), PlainManifest("large", large);
    PlainIsWellFormed("large", large);
    PlainTablesAre("small", small);
    FreesTheOldSize(db, "small", "large", large);
    OnePassEnoughExactlyWhen(db, m);
  }
}
