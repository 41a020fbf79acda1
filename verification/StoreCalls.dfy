/** The Kubernetes reconciler's pass with every call to the cluster and to the store free to fail
    (internal/k8s/k8s.go, internal/k8s/reconcile.go), on a store that enforces its references
    (internal/store/store.go:33): what holds whatever is answered. */
module StoreCalls {
  import opened Types
  import opened K8s
  import opened ClusterObjects

  // ---- the store ----

  datatype Write =
    | PutCloud(n: string, cloud: CloudRec)
    | PutForge(n: string, forge: ForgeRec)
    | PutSize(k: Item, size: SizeRec)
    | PutImage(k: Item, image: ImageRec)
    | PutPool(n: string, pool: PoolRec)
    | DropCloud(n: string)
    | DropForge(n: string)
    | DropSize(k: Item)
    | DropImage(k: Item)
    | DropPool(n: string)

  /** The store refuses a record whose references do not exist, and the deletion of one that a pool refers to. */
  predicate Refuses(db: Db, w: Write) {
    match w
    case PutSize(k, _) => k.cloud !in db.clouds
    case PutImage(k, _) => k.cloud !in db.clouds
    case PutPool(_, p) => !Resolves(db, p)
    case DropCloud(n) => CloudReferred(db.pools, n)
    case DropForge(n) => ForgeUsed(db.pools, n)
    case DropSize(k) => k in UsedSizes(db.pools)
    case DropImage(k) => k in UsedImages(db.pools)
    case _ => false
  }

  function Stored(db: Db, w: Write): Db {
    match w
    case PutCloud(n, c) => db.(clouds := db.clouds[n := c])
    case PutForge(n, f) => db.(forges := db.forges[n := f])
    case PutSize(k, s) => db.(sizes := db.sizes[k := s])
    case PutImage(k, i) => db.(images := db.images[k := i])
    case PutPool(n, p) => db.(pools := db.pools[n := p])
    case DropCloud(n) => db.(clouds := db.clouds - {n}, sizes := Without(db.sizes, n), images := Without(db.images, n))
    case DropForge(n) => db.(forges := db.forges - {n})
    case DropSize(k) => db.(sizes := db.sizes - {k})
    case DropImage(k) => db.(images := db.images - {k})
    case DropPool(n) => db.(pools := db.pools - {n})
  }

  /** Deleting a cloud deletes its catalogue with it. */
  function Without<V>(table: map<Item, V>, cloud: string): map<Item, V> {
    map k | k in table && k.cloud != cloud :: table[k]
  }

  function Perform(db: Db, w: Write, reply: Reply): Db {
    if !Refuses(db, w) && reply.Applied() then Stored(db, w) else db
  }

  predicate Works(db: Db, w: Write, reply: Reply) { !Refuses(db, w) && reply.Ok? }

  // ---- saving ----

  /** Whether the lookup before a save worked, and how the save went. */
  datatype SaveReply = SaveReply(found: bool, reply: Reply)

  predicate Exists(db: Db, w: Write) {
    match w
    case PutCloud(n, _) => n in db.clouds
    case PutForge(n, _) => n in db.forges
    case PutSize(k, _) => k in db.sizes
    case PutImage(k, _) => k in db.images
    case PutPool(n, _) => n in db.pools
    case _ => false
  }

  /** A lookup that fails reads as absence, so the save becomes an insert, which the unique name of a record that does
      exist turns down. */
  predicate Clashes(db: Db, w: Write, a: SaveReply) { Exists(db, w) && !a.found }

  function Save(db: Db, w: Write, a: SaveReply): Db {
    if Clashes(db, w, a) then db else Perform(db, w, a.reply)
  }

  predicate Saves(db: Db, w: Write, a: SaveReply) { !Clashes(db, w, a) && Works(db, w, a.reply) }

  function SizeWrite(k: Item, s: SizeRec): Write { PutSize(k, s) }

  function ImageWrite(k: Item, i: ImageRec): Write { PutImage(k, i) }

  /** Saves the listed entries of a cloud in order, up to the first save that fails. */
  function SaveEntries<V>(db: Db, cloud: string, raw: seq<RawEntry<V>>, put: (Item, V) -> Write, rs: seq<SaveReply>)
    : (Db, bool)
    requires |rs| == |raw|
  {
    if raw == [] then (db, true)
    else
      var i := |raw| - 1;
      var (d, ok) := SaveEntries(db, cloud, raw[..i], put, rs[..i]);
      if !ok || raw[i].name == "" then (d, ok)
      else
        var w := put(Item(cloud, raw[i].name), raw[i].value);
        (Save(d, w, rs[i]), Saves(d, w, rs[i]))
  }

  // ---- pruning ----

  /** The visit of one row that a query has found: whether the lookup of its owner and the count of its users worked,
      and how the delete went. */
  datatype Visit = Visit(w: Write, owned: bool, counted: bool, reply: Reply)

  predicate Counts(db: Db, w: Write) {
    match w
    case DropSize(k) => k in UsedSizes(db.pools)
    case DropImage(k) => k in UsedImages(db.pools)
    case DropForge(n) => ForgeUsed(db.pools, n)
    case DropCloud(n) => CloudUsed(db.pools, n)
    case _ => false
  }

  /** Whether the reconciler goes on to the delete. A count that fails reads as nought; but a pool is not deleted
      unless its live machines could be read. */
  predicate Proceeds(db: Db, v: Visit) {
    if v.w.DropPool? then v.owned && v.counted && v.w.n !in db.busy else !(v.counted && Counts(db, v.w))
  }

  function Pruned(db: Db, v: Visit, due: bool): Db {
    if due && Proceeds(db, v) then Perform(db, v.w, v.reply) else db
  }

  /** An entry of the cloud that its object no longer lists. */
  predicate EntryDue(cloud: string, sizes: set<string>, images: set<string>, w: Write) {
    || (w.DropSize? && w.k.cloud == cloud && w.k.name !in sizes)
    || (w.DropImage? && w.k.cloud == cloud && w.k.name !in images)
  }

  function PruneEntries(db: Db, cloud: string, sizes: set<string>, images: set<string>, vs: seq<Visit>): Db {
    if vs == [] then db
    else
      var v := vs[|vs| - 1];
      Pruned(PruneEntries(db, cloud, sizes, images, vs[..|vs| - 1]), v, EntryDue(cloud, sizes, images, v.w))
  }

  /** A record of the cluster's that has no object any more. */
  predicate RowDue(db: Db, m: Manifest, w: Write) {
    match w
    case DropPool(n) => n in db.pools && n !in m.pools && ManagesPool(db, db.pools[n])
    case DropForge(n) => n in db.forges && n !in m.forgeNames && Managed(db.forges[n].settings)
    case DropCloud(n) => n in db.clouds && n !in m.cloudNames && Managed(db.clouds[n].settings)
    case _ => false
  }

  function PruneRows(db: Db, m: Manifest, vs: seq<Visit>): Db {
    if vs == [] then db
    else
      var v, d := vs[|vs| - 1], PruneRows(db, m, vs[..|vs| - 1]);
      Pruned(d, v, RowDue(d, m, v.w))
  }

  // ---- which visits delete ----

  predicate CarriesMarker(settings: Params) {
    && "runnerforge.slop.place/managed-by" in settings
    && settings["runnerforge.slop.place/managed-by"] == "kubernetes"
  }

  /** A visit deletes a pool exactly when it has no object, its cloud carries the marker, both its cloud and its live
      machines could be read and there are none, and the delete has an effect. */
  lemma PoolGoesExactlyWhen(d: Db, m: Manifest, n: string, v: Visit)
    requires v.w == DropPool(n) && n in d.pools
    ensures n !in Pruned(d, v, RowDue(d, m, v.w)).pools <==>
              && n !in m.pools && d.pools[n].cloud in d.clouds && CarriesMarker(d.clouds[d.pools[n].cloud].settings)
              && v.owned && v.counted && n !in d.busy && v.reply.Applied()
  {
  }

  /** A visit deletes a forge exactly when it has no object, carries the marker, no pool refers to it, whether or not
      they could be counted, and the delete has an effect. */
  lemma ForgeGoesExactlyWhen(d: Db, m: Manifest, n: string, v: Visit)
    requires v.w == DropForge(n) && n in d.forges
    ensures n !in Pruned(d, v, RowDue(d, m, v.w)).forges <==>
              && n !in m.forgeNames && CarriesMarker(d.forges[n].settings)
              && (forall p :: p in d.pools ==> d.pools[p].forge != n) && v.reply.Applied()
  {
  }

  /** The same for a cloud, to which a pool's size and image refer too. */
  lemma CloudGoesExactlyWhen(d: Db, m: Manifest, n: string, v: Visit)
    requires v.w == DropCloud(n) && n in d.clouds
    ensures n !in Pruned(d, v, RowDue(d, m, v.w)).clouds <==>
              && n !in m.cloudNames && CarriesMarker(d.clouds[n].settings) && v.reply.Applied()
              && (forall p :: p in d.pools ==>
                    && d.pools[p].cloud != n && d.pools[p].size.cloud != n
                    && (d.pools[p].image.Some? ==> d.pools[p].image.value.cloud != n))
  {
    if p :| p in d.pools && (d.pools[p].cloud == n || d.pools[p].size.cloud == n
                             || (d.pools[p].image.Some? && d.pools[p].image.value.cloud == n))
    {
      assert CloudReferred(d.pools, n);
    }
  }

  /** A visit deletes a size exactly when it is of the cloud, the object lists none of its name, no pool has it, and the
      delete has an effect. */
  lemma SizeGoesExactlyWhen(d: Db, cloud: string, sizes: set<string>, images: set<string>, k: Item, v: Visit)
    requires v.w == DropSize(k) && k in d.sizes
    ensures k !in Pruned(d, v, EntryDue(cloud, sizes, images, v.w)).sizes <==>
              && k.cloud == cloud && k.name !in sizes && v.reply.Applied()
              && (forall p :: p in d.pools ==> d.pools[p].size != k)
  {
    if p :| p in d.pools && d.pools[p].size == k { assert k in UsedSizes(d.pools); }
  }

  lemma ImageGoesExactlyWhen(d: Db, cloud: string, sizes: set<string>, images: set<string>, k: Item, v: Visit)
    requires v.w == DropImage(k) && k in d.images
    ensures k !in Pruned(d, v, EntryDue(cloud, sizes, images, v.w)).images <==>
              && k.cloud == cloud && k.name !in images && v.reply.Applied()
              && (forall p :: p in d.pools ==> d.pools[p].image != Some(k))
  {
    if p :| p in d.pools && d.pools[p].image == Some(k) { assert k in UsedImages(d.pools); }
  }

  // ---- one object ----

  datatype CloudSaves = CloudSaves(cloud: SaveReply, sizes: seq<SaveReply>, images: seq<SaveReply>)

  predicate Answers(o: CloudObject, a: CloudSaves) { |a.sizes| == |o.sizes| && |a.images| == |o.images| }

  /** applyCloud up to the end of the saves; it stops at the first that fails. */
  function SaveCloud(db: Db, o: CloudObject, a: CloudSaves): (Db, bool)
    requires o.secret.Some? && Answers(o, a)
  {
    var n := ManagedName(o.ns, o.name);
    var w := PutCloud(n, CloudRecOf(o));
    if !Saves(db, w, a.cloud) then (Save(db, w, a.cloud), false)
    else
      var (d, ok) := SaveEntries(Save(db, w, a.cloud), n, o.sizes, SizeWrite, a.sizes);
      if ok then SaveEntries(d, n, o.images, ImageWrite, a.images) else (d, false)
  }

  function ApplyCloud(db: Db, o: CloudObject, a: CloudSaves, vs: seq<Visit>): Db
    requires Answers(o, a)
  {
    if o.secret.None? then db
    else
      var (d, ok) := SaveCloud(db, o, a);
      if !ok then d
      else PruneEntries(d, ManagedName(o.ns, o.name), Entries(o.sizes).Keys, Entries(o.images).Keys, vs)
  }

  lemma {:induction false} SavesDropNothing<V>(db: Db, cloud: string, raw: seq<RawEntry<V>>, put: (Item, V) -> Write,
                                               rs: seq<SaveReply>)
    requires |rs| == |raw| && forall k, x :: put(k, x).PutSize? || put(k, x).PutImage?
    ensures var (d, ok) := SaveEntries(db, cloud, raw, put, rs);
            && db.sizes.Keys <= d.sizes.Keys && db.images.Keys <= d.images.Keys
            && (forall i :: 0 <= i < |raw| && raw[i].name != "" && !rs[i].reply.Ok? ==> !ok)
  {
    if raw != [] { SavesDropNothing(db, cloud, raw[..|raw| - 1], put, rs[..|raw| - 1]); }
  }

  /** When the save of the record or of a named entry fails, nothing of the catalogue is deleted. */
  lemma FailedSaveDeletesNothing(db: Db, o: CloudObject, a: CloudSaves, vs: seq<Visit>)
    requires Answers(o, a)
    requires || !a.cloud.reply.Ok?
             || (exists i :: 0 <= i < |o.sizes| && o.sizes[i].name != "" && !a.sizes[i].reply.Ok?)
             || (exists i :: 0 <= i < |o.images| && o.images[i].name != "" && !a.images[i].reply.Ok?)
    ensures var d := ApplyCloud(db, o, a, vs); db.sizes.Keys <= d.sizes.Keys && db.images.Keys <= d.images.Keys
  {
    if o.secret.Some? {
      var n := ManagedName(o.ns, o.name);
      var first := Save(db, PutCloud(n, CloudRecOf(o)), a.cloud);
      SavesDropNothing(first, n, o.sizes, SizeWrite, a.sizes);
      SavesDropNothing(SaveEntries(first, n, o.sizes, SizeWrite, a.sizes).0, n, o.images, ImageWrite, a.images);
    }
  }

  function ApplyForge(db: Db, o: ForgeObject, a: SaveReply): Db {
    if o.secret.None? then db else Save(db, PutForge(ManagedName(o.ns, o.name), ForgeRecOf(o)), a)
  }

  /** Whether each of a pool's references could be looked up, and how its save went. */
  datatype PoolReplies = PoolReplies(forge: bool, cloud: bool, size: bool, image: bool, save: SaveReply)

  predicate LooksUp(p: PoolRec, a: PoolReplies) { a.forge && a.cloud && a.size && (p.image.Some? ==> a.image) }

  function ApplyPool(db: Db, o: PoolObject, a: PoolReplies): Db {
    var n, p := ManagedName(o.ns, o.name), PoolRecOf(o);
    if LooksUp(p, a) && Accepts(db, p) then Save(db, PutPool(n, Written(n in db.pools, p)), a.save) else db
  }

  /** A pool is not written when the lookup of something it refers to fails. */
  lemma FailedLookupWritesNothing(db: Db, o: PoolObject, a: PoolReplies)
    requires !a.forge || !a.cloud || !a.size || (o.image != "" && !a.image)
    ensures ApplyPool(db, o, a) == db
  {
  }

  // ---- a pass ----

  function ApplyClouds(db: Db, items: seq<CloudObject>, rs: seq<CloudSaves>, vs: seq<seq<Visit>>): Db
    requires |rs| == |items| == |vs| && forall i :: 0 <= i < |items| ==> Answers(items[i], rs[i])
  {
    if items == [] then db
    else
      var i := |items| - 1;
      ApplyCloud(ApplyClouds(db, items[..i], rs[..i], vs[..i]), items[i], rs[i], vs[i])
  }

  function ApplyForges(db: Db, items: seq<ForgeObject>, rs: seq<SaveReply>): Db
    requires |rs| == |items|
  {
    if items == [] then db
    else
      var i := |items| - 1;
      ApplyForge(ApplyForges(db, items[..i], rs[..i]), items[i], rs[i])
  }

  function ApplyPools(db: Db, items: seq<PoolObject>, rs: seq<PoolReplies>): Db
    requires |rs| == |items|
  {
    if items == [] then db
    else
      var i := |items| - 1;
      ApplyPool(ApplyPools(db, items[..i], rs[..i]), items[i], rs[i])
  }

  /** What the cluster holds. */
  datatype Objects = Objects(clouds: seq<CloudObject>, forges: seq<ForgeObject>, pools: seq<PoolObject>)
  {
    function Manifest(): Manifest { ManifestOf(clouds, forges, pools) }
  }

  /** How the saves of each kind went, None when its objects could not be listed; and whether all three could be listed
      again for the deletions. */
  datatype PassReplies = PassReplies(
    clouds: Option<seq<CloudSaves>>,
    forges: Option<seq<SaveReply>>,
    pools: Option<seq<PoolReplies>>,
    relisted: bool)

  predicate Fits(os: Objects, r: PassReplies) {
    && (r.clouds.Some? ==> |r.clouds.value| == |os.clouds|
                           && forall i :: 0 <= i < |os.clouds| ==> Answers(os.clouds[i], r.clouds.value[i]))
    && (r.forges.Some? ==> |r.forges.value| == |os.forges|)
    && (r.pools.Some? ==> |r.pools.value| == |os.pools|)
  }

  /** The rows the pruning queries found, catalogue entries cloud by cloud. */
  datatype PassVisits = PassVisits(entries: seq<seq<Visit>>, pools: seq<Visit>, forges: seq<Visit>, clouds: seq<Visit>)

  function CloudPart(db: Db, os: Objects, r: PassReplies, vs: seq<seq<Visit>>): Db
    requires Fits(os, r) && |vs| == |os.clouds|
  {
    if r.clouds.Some? then ApplyClouds(db, os.clouds, r.clouds.value, vs) else db
  }

  function ForgePart(db: Db, os: Objects, r: PassReplies): Db
    requires Fits(os, r)
  {
    if r.forges.Some? then ApplyForges(db, os.forges, r.forges.value) else db
  }

  function PoolPart(db: Db, os: Objects, r: PassReplies): Db
    requires Fits(os, r)
  {
    if r.pools.Some? then ApplyPools(db, os.pools, r.pools.value) else db
  }

  function PrunePart(db: Db, os: Objects, r: PassReplies, v: PassVisits): Db {
    var m := os.Manifest();
    if r.relisted then PruneRows(PruneRows(PruneRows(db, m, v.pools), m, v.forges), m, v.clouds) else db
  }

  /** When the objects cannot be listed again, no record is deleted. */
  lemma UnlistedPassPrunesNothing(db: Db, os: Objects, r: PassReplies, v: PassVisits)
    requires !r.relisted
    ensures PrunePart(db, os, r, v) == db
  {
  }

  /** One pass, whatever is answered. A phase that fails does not keep the later ones from running. */
  function ReconcileWith(db: Db, os: Objects, r: PassReplies, v: PassVisits): Db
    requires Fits(os, r) && |v.entries| == |os.clouds|
  {
    PrunePart(PoolPart(ForgePart(CloudPart(db, os, r, v.entries), os, r), os, r), os, r, v)
  }

  // ---- what every pass keeps ----

  /** The writes a pass can make: it saves what has an object, and deletes entries of such clouds, or records of the
      cluster's that have none; no pool with live machines. */
  predicate Admissible(d: Db, m: Manifest, w: Write) {
    match w
    case PutCloud(n, c) => n in m.cloudNames && Managed(c.settings)
    case PutForge(n, f) => n in m.forgeNames && Managed(f.settings)
    case PutSize(k, _) => k.cloud in m.cloudNames
    case PutImage(k, _) => k.cloud in m.cloudNames
    case PutPool(n, p) => n in m.pools && OnItsCloud(p)
    case DropSize(k) => k.cloud in m.cloudNames
    case DropImage(k) => k.cloud in m.cloudNames
    case DropPool(n) => RowDue(d, m, w) && n !in d.busy
    case _ => RowDue(d, m, w)
  }

  /** No write the reconciler can make, if the store accepts it, breaks `inv`. */
  ghost predicate Kept(inv: Db -> bool, m: Manifest) {
    forall d, w :: inv(d) && Admissible(d, m, w) && !Refuses(d, w) ==> inv(Stored(d, w))
  }

  lemma PerformKeeps(inv: Db -> bool, m: Manifest, d: Db, w: Write, reply: Reply)
    requires Kept(inv, m) && inv(d) && Admissible(d, m, w)
    ensures inv(Perform(d, w, reply))
  {
  }

  lemma {:induction false} SaveEntriesKeeps<V>(
    inv: Db -> bool, m: Manifest, d: Db, cloud: string, raw: seq<RawEntry<V>>, put: (Item, V) -> Write,
    rs: seq<SaveReply>)
    requires Kept(inv, m) && inv(d) && |rs| == |raw|
    requires forall e: Db, k: Item, v: V :: k.cloud == cloud ==> Admissible(e, m, put(k, v))
    ensures inv(SaveEntries(d, cloud, raw, put, rs).0)
  {
    if raw != [] {
      var i := |raw| - 1;
      SaveEntriesKeeps(inv, m, d, cloud, raw[..i], put, rs[..i]);
      var before := SaveEntries(d, cloud, raw[..i], put, rs[..i]).0;
      PerformKeeps(inv, m, before, put(Item(cloud, raw[i].name), raw[i].value), rs[i].reply);
    }
  }

  lemma {:induction false} PruneEntriesKeeps(
    inv: Db -> bool, m: Manifest, d: Db, cloud: string, sizes: set<string>, images: set<string>, vs: seq<Visit>)
    requires Kept(inv, m) && inv(d) && cloud in m.cloudNames
    ensures inv(PruneEntries(d, cloud, sizes, images, vs))
  {
    if vs != [] {
      var v, before := vs[|vs| - 1], vs[..|vs| - 1];
      PruneEntriesKeeps(inv, m, d, cloud, sizes, images, before);
      if EntryDue(cloud, sizes, images, v.w) {
        PerformKeeps(inv, m, PruneEntries(d, cloud, sizes, images, before), v.w, v.reply);
      }
    }
  }

  lemma {:induction false} PruneRowsKeeps(inv: Db -> bool, m: Manifest, d: Db, vs: seq<Visit>)
    requires Kept(inv, m) && inv(d)
    ensures inv(PruneRows(d, m, vs))
  {
    if vs != [] {
      var v, before := vs[|vs| - 1], PruneRows(d, m, vs[..|vs| - 1]);
      PruneRowsKeeps(inv, m, d, vs[..|vs| - 1]);
      if RowDue(before, m, v.w) && Proceeds(before, v) { PerformKeeps(inv, m, before, v.w, v.reply); }
    }
  }

  lemma SaveCloudKeeps(inv: Db -> bool, m: Manifest, d: Db, o: CloudObject, a: CloudSaves)
    requires Kept(inv, m) && inv(d) && o.secret.Some? && Answers(o, a) && ManagedName(o.ns, o.name) in m.cloudNames
    ensures inv(SaveCloud(d, o, a).0)
  {
    var n := ManagedName(o.ns, o.name);
    var w := PutCloud(n, CloudRecOf(o));
    PerformKeeps(inv, m, d, w, a.cloud.reply);
    var saved := Save(d, w, a.cloud);
    SaveEntriesKeeps(inv, m, saved, n, o.sizes, SizeWrite, a.sizes);
    SaveEntriesKeeps(inv, m, SaveEntries(saved, n, o.sizes, SizeWrite, a.sizes).0, n, o.images, ImageWrite, a.images);
  }

  lemma ApplyCloudKeeps(inv: Db -> bool, m: Manifest, d: Db, o: CloudObject, a: CloudSaves, vs: seq<Visit>)
    requires Kept(inv, m) && inv(d) && Answers(o, a) && ManagedName(o.ns, o.name) in m.cloudNames
    ensures inv(ApplyCloud(d, o, a, vs))
  {
    if o.secret.Some? {
      SaveCloudKeeps(inv, m, d, o, a);
      PruneEntriesKeeps(inv, m, SaveCloud(d, o, a).0, ManagedName(o.ns, o.name),
                        Entries(o.sizes).Keys, Entries(o.images).Keys, vs);
    }
  }

  lemma {:induction false} ApplyCloudsKeeps(
    inv: Db -> bool, m: Manifest, d: Db, items: seq<CloudObject>, rs: seq<CloudSaves>, vs: seq<seq<Visit>>)
    requires Kept(inv, m) && inv(d) && |rs| == |items| == |vs|
    requires forall i :: 0 <= i < |items| ==>
               Answers(items[i], rs[i]) && ManagedName(items[i].ns, items[i].name) in m.cloudNames
    ensures inv(ApplyClouds(d, items, rs, vs))
  {
    if items != [] {
      var i := |items| - 1;
      ApplyCloudsKeeps(inv, m, d, items[..i], rs[..i], vs[..i]);
      ApplyCloudKeeps(inv, m, ApplyClouds(d, items[..i], rs[..i], vs[..i]), items[i], rs[i], vs[i]);
    }
  }

  lemma {:induction false} ApplyForgesKeeps(
    inv: Db -> bool, m: Manifest, d: Db, items: seq<ForgeObject>, rs: seq<SaveReply>)
    requires Kept(inv, m) && inv(d) && |rs| == |items|
    requires forall i :: 0 <= i < |items| ==> ManagedName(items[i].ns, items[i].name) in m.forgeNames
    ensures inv(ApplyForges(d, items, rs))
  {
    if items != [] {
      var i := |items| - 1;
      ApplyForgesKeeps(inv, m, d, items[..i], rs[..i]);
      if items[i].secret.Some? {
        PerformKeeps(inv, m, ApplyForges(d, items[..i], rs[..i]),
                     PutForge(ManagedName(items[i].ns, items[i].name), ForgeRecOf(items[i])), rs[i].reply);
      }
    }
  }

  lemma {:induction false} ApplyPoolsKeeps(
    inv: Db -> bool, m: Manifest, d: Db, items: seq<PoolObject>, rs: seq<PoolReplies>)
    requires Kept(inv, m) && inv(d) && |rs| == |items|
    requires forall i :: 0 <= i < |items| ==> ManagedName(items[i].ns, items[i].name) in m.pools
    ensures inv(ApplyPools(d, items, rs))
  {
    if items != [] {
      var i := |items| - 1;
      ApplyPoolsKeeps(inv, m, d, items[..i], rs[..i]);
      var before, n := ApplyPools(d, items[..i], rs[..i]), ManagedName(items[i].ns, items[i].name);
      PerformKeeps(inv, m, before, PutPool(n, Written(n in before.pools, PoolRecOf(items[i]))), rs[i].save.reply);
    }
  }

  lemma NamesOfObjects(os: Objects)
    ensures var m := os.Manifest();
            && (forall i :: 0 <= i < |os.clouds| ==> ManagedName(os.clouds[i].ns, os.clouds[i].name) in m.cloudNames)
            && (forall i :: 0 <= i < |os.forges| ==> ManagedName(os.forges[i].ns, os.forges[i].name) in m.forgeNames)
            && (forall i :: 0 <= i < |os.pools| ==> ManagedName(os.pools[i].ns, os.pools[i].name) in m.pools)
  {
    PoolsOfKeys(os.pools);
    forall i | 0 <= i < |os.clouds| ensures ManagedName(os.clouds[i].ns, os.clouds[i].name) in CloudNames(os.clouds) {
      assert os.clouds[i] in os.clouds;
    }
    forall i | 0 <= i < |os.forges| ensures ManagedName(os.forges[i].ns, os.forges[i].name) in ForgeNames(os.forges) {
      assert os.forges[i] in os.forges;
    }
    forall i | 0 <= i < |os.pools| ensures ManagedName(os.pools[i].ns, os.pools[i].name) in PoolNames(os.pools) {
      assert os.pools[i] in os.pools;
    }
  }

  /** Whatever the cluster and the store answer, a pass keeps everything that each single write it can make keeps. */
  lemma ReconcileWithKeeps(inv: Db -> bool, db: Db, os: Objects, r: PassReplies, v: PassVisits)
    requires Fits(os, r) && |v.entries| == |os.clouds|
    requires Kept(inv, os.Manifest()) && inv(db)
    ensures inv(ReconcileWith(db, os, r, v))
  {
    var m := os.Manifest();
    NamesOfObjects(os);
    if r.clouds.Some? { ApplyCloudsKeeps(inv, m, db, os.clouds, r.clouds.value, v.entries); }
    var a := CloudPart(db, os, r, v.entries);
    if r.forges.Some? { ApplyForgesKeeps(inv, m, a, os.forges, r.forges.value); }
    var b := ForgePart(a, os, r);
    if r.pools.Some? { ApplyPoolsKeeps(inv, m, b, os.pools, r.pools.value); }
    var c := PoolPart(b, os, r);
    PruneRowsKeeps(inv, m, c, v.pools);
    PruneRowsKeeps(inv, m, PruneRows(c, m, v.pools), v.forges);
    PruneRowsKeeps(inv, m, PruneRows(PruneRows(c, m, v.pools), m, v.forges), v.clouds);
  }

  // ---- references, and what the cluster does not own ----

  /** The references of each pool that had them survive every pass, whatever is answered and whatever the state of other
      pools; and each pool that the pass writes has them, also one whose references were broken. */
  lemma EveryPassKeepsReferences(db: Db, os: Objects, r: PassReplies, v: PassVisits, p: string)
    requires Fits(os, r) && |v.entries| == |os.clouds|
    ensures var db' := ReconcileWith(db, os, r, v);
            && (Intact(db, p) ==> Intact(db', p))
            && (Intact(db', p) || Unwritten(db, db', p))
  {
    if Intact(db, p) { EveryPassKeepsIntact(db, os, r, v, p); }
    var inv := (d: Db) => Intact(d, p) || Unwritten(db, d, p);
    forall d, w | inv(d) && Admissible(d, os.Manifest(), w) && !Refuses(d, w) ensures inv(Stored(d, w)) {
      if Intact(d, p) { WriteKeepsReferences(d, os.Manifest(), w, p); } else { WriteMends(db, d, os.Manifest(), w, p); }
    }
    ReconcileWithKeeps(inv, db, os, r, v);
  }

  /** The pool is still there, as it was. */
  predicate Unwritten(db: Db, d: Db, p: string) { p in db.pools && p in d.pools && d.pools[p] == db.pools[p] }

  lemma WriteMends(db: Db, d: Db, m: Manifest, w: Write, p: string)
    requires Unwritten(db, d, p) && Admissible(d, m, w) && !Refuses(d, w)
    ensures Intact(Stored(d, w), p) || Unwritten(db, Stored(d, w), p)
  {
  }

  lemma EveryPassKeepsIntact(db: Db, os: Objects, r: PassReplies, v: PassVisits, p: string)
    requires Fits(os, r) && |v.entries| == |os.clouds| && Intact(db, p)
    ensures Intact(ReconcileWith(db, os, r, v), p)
  {
    var inv := (d: Db) => Intact(d, p);
    forall d, w | inv(d) && Admissible(d, os.Manifest(), w) && !Refuses(d, w) ensures inv(Stored(d, w)) {
      WriteKeepsReferences(d, os.Manifest(), w, p);
    }
    ReconcileWithKeeps(inv, db, os, r, v);
  }

  lemma WriteKeepsReferences(d: Db, m: Manifest, w: Write, p: string)
    requires Intact(d, p) && Admissible(d, m, w) && !Refuses(d, w)
    ensures Intact(Stored(d, w), p)
  {
    if p in d.pools && w.DropCloud? { assert RefersToCloud(d.pools[p], d.pools[p].cloud); }
  }

  /** The cloud is as it was, and so is what its catalogue says of entry `k`. */
  predicate CloudStands(db: Db, d: Db, k: Item)
    requires k.cloud in db.clouds
  {
    && k.cloud in d.clouds && d.clouds[k.cloud] == db.clouds[k.cloud]
    && At(d.sizes, k) == At(db.sizes, k) && At(d.images, k) == At(db.images, k)
  }

  lemma WriteLeavesCloud(db: Db, d: Db, m: Manifest, w: Write, k: Item)
    requires Foreign(db, m, k.cloud) && CloudStands(db, d, k) && Admissible(d, m, w)
    ensures CloudStands(db, Stored(d, w), k)
  {
  }

  /** Clouds without the marker that match no object stay as they are, with their catalogues. */
  lemma EveryPassLeavesForeignClouds(db: Db, os: Objects, r: PassReplies, v: PassVisits, k: Item)
    requires Fits(os, r) && |v.entries| == |os.clouds| && Foreign(db, os.Manifest(), k.cloud)
    ensures CloudStands(db, ReconcileWith(db, os, r, v), k)
  {
    var inv := (d: Db) => CloudStands(db, d, k);
    forall d, w | inv(d) && Admissible(d, os.Manifest(), w) && !Refuses(d, w) ensures inv(Stored(d, w)) {
      WriteLeavesCloud(db, d, os.Manifest(), w, k);
    }
    ReconcileWithKeeps(inv, db, os, r, v);
  }

  predicate ForgeStands(db: Db, d: Db, n: string)
    requires n in db.forges
  {
    n in d.forges && d.forges[n] == db.forges[n]
  }

  lemma WriteLeavesForge(db: Db, d: Db, m: Manifest, w: Write, n: string)
    requires n in db.forges && n !in m.forgeNames && !Managed(db.forges[n].settings)
    requires ForgeStands(db, d, n) && Admissible(d, m, w)
    ensures ForgeStands(db, Stored(d, w), n)
  {
  }

  /** Forges without the marker that match no object stay as they are. */
  lemma EveryPassLeavesForeignForges(db: Db, os: Objects, r: PassReplies, v: PassVisits, n: string)
    requires Fits(os, r) && |v.entries| == |os.clouds|
    requires n in db.forges && n !in os.Manifest().forgeNames && !Managed(db.forges[n].settings)
    ensures ForgeStands(db, ReconcileWith(db, os, r, v), n)
  {
    var inv := (d: Db) => ForgeStands(db, d, n);
    forall d, w | inv(d) && Admissible(d, os.Manifest(), w) && !Refuses(d, w) ensures inv(Stored(d, w)) {
      WriteLeavesForge(db, d, os.Manifest(), w, n);
    }
    ReconcileWithKeeps(inv, db, os, r, v);
  }

  /** The pool and its cloud are as they were. */
  predicate PoolStands(db: Db, d: Db, p: string)
    requires p in db.pools && db.pools[p].cloud in db.clouds
  {
    && p in d.pools && d.pools[p] == db.pools[p]
    && var cloud := db.pools[p].cloud; cloud in d.clouds && d.clouds[cloud] == db.clouds[cloud]
  }

  lemma WriteLeavesPool(db: Db, d: Db, m: Manifest, w: Write, p: string)
    requires p in db.pools && p !in m.pools && Foreign(db, m, db.pools[p].cloud)
    requires PoolStands(db, d, p) && Admissible(d, m, w)
    ensures PoolStands(db, Stored(d, w), p)
  {
  }

  /** Pools on such clouds that match no object stay as they are. */
  lemma EveryPassLeavesForeignPools(db: Db, os: Objects, r: PassReplies, v: PassVisits, p: string)
    requires Fits(os, r) && |v.entries| == |os.clouds|
    requires p in db.pools && p !in os.Manifest().pools && Foreign(db, os.Manifest(), db.pools[p].cloud)
    ensures PoolStands(db, ReconcileWith(db, os, r, v), p)
  {
    var inv := (d: Db) => PoolStands(db, d, p);
    forall d, w | inv(d) && Admissible(d, os.Manifest(), w) && !Refuses(d, w) ensures inv(Stored(d, w)) {
      WriteLeavesPool(db, d, os.Manifest(), w, p);
    }
    ReconcileWithKeeps(inv, db, os, r, v);
  }

  predicate Survives(d: Db, p: string) { p in d.pools && p in d.busy }

  lemma WriteKeepsBusyPool(d: Db, m: Manifest, w: Write, p: string)
    requires Survives(d, p) && Admissible(d, m, w)
    ensures Survives(Stored(d, w), p)
  {
  }

  /** A pool with live machines is never removed. */
  lemma EveryPassKeepsBusyPools(db: Db, os: Objects, r: PassReplies, v: PassVisits, p: string)
    requires Fits(os, r) && |v.entries| == |os.clouds| && p in db.pools && p in db.busy
    ensures p in ReconcileWith(db, os, r, v).pools
  {
    var inv := (d: Db) => Survives(d, p);
    forall d, w | inv(d) && Admissible(d, os.Manifest(), w) && !Refuses(d, w) ensures inv(Stored(d, w)) {
      WriteKeepsBusyPool(d, os.Manifest(), w, p);
    }
    ReconcileWithKeeps(inv, db, os, r, v);
  }
}
