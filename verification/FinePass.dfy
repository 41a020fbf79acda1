/** When every call works: the reconciler's pass over objects and records comes to the phases of the simple form
    (internal/k8s/reconcile.go). */
module FinePasses {
  import opened Types
  import opened K8s
  import opened ClusterObjects
  import opened StoreCalls

  // ---- one object more ----

  lemma WantedOfOne(n: string, spec: CloudSpec)
    ensures SizesWanted(map[n := spec]) == map[n := spec.sizes]
    ensures ImagesWanted(map[n := spec]) == map[n := spec.images]
    ensures CloudRecs(map[n := spec]) == map[n := spec.rec]
  {
  }

  lemma CloudPhaseOfOne(db: Db, n: string, spec: CloudSpec)
    ensures CloudPhase(db, map[n := spec]) ==
            db.(clouds := db.clouds[n := spec.rec],
                sizes := Synced(db.sizes, UsedSizes(db.pools), map[n := spec.sizes]),
                images := Synced(db.images, UsedImages(db.pools), map[n := spec.images]))
  {
    WantedOfOne(n, spec);
    UpdateOfUnion(db.clouds, map[], n, spec.rec);
    assert db.clouds + map[] == db.clouds;
  }

  lemma CloudPhaseOneMore(db: Db, clouds: map<string, CloudSpec>, n: string, spec: CloudSpec)
    requires n !in clouds
    ensures CloudPhase(CloudPhase(db, clouds), map[n := spec]) == CloudPhase(db, clouds[n := spec])
  {
    WantedOneMore(clouds, n, spec);
    CloudPhaseOfOne(CloudPhase(db, clouds), n, spec);
    SyncOneMore(db.sizes, UsedSizes(db.pools), SizesWanted(clouds), n, spec.sizes);
    SyncOneMore(db.images, UsedImages(db.pools), ImagesWanted(clouds), n, spec.images);
    UpdateOfUnion(db.clouds, CloudRecs(clouds), n, spec.rec);
  }

  lemma UpdateOfUnion<K, V>(a: map<K, V>, b: map<K, V>, k: K, v: V)
    ensures a + b[k := v] == (a + b)[k := v]
  {
  }

  lemma WantedOneMore(clouds: map<string, CloudSpec>, n: string, spec: CloudSpec)
    ensures SizesWanted(clouds[n := spec]) == SizesWanted(clouds)[n := spec.sizes]
    ensures ImagesWanted(clouds[n := spec]) == ImagesWanted(clouds)[n := spec.images]
    ensures CloudRecs(clouds[n := spec]) == CloudRecs(clouds)[n := spec.rec]
  {
  }

  lemma CloudPhaseOfNone(db: Db)
    ensures CloudPhase(db, map[]) == db
  {
    TidySyncIsIdentity(db.sizes, UsedSizes(db.pools), SizesWanted(map[]));
    TidySyncIsIdentity(db.images, UsedImages(db.pools), ImagesWanted(map[]));
    assert db.clouds + CloudRecs(map[]) == db.clouds;
  }

  function PoolAt(pools: map<string, PoolRec>, n: string): Option<PoolRec> {
    if n in pools then Some(pools[n]) else None
  }

  lemma PoolPhaseAt(db: Db, pools: map<string, PoolRec>, n: string)
    ensures PoolAt(PoolPhase(db, pools).pools, n) ==
            if n in pools && Accepts(db, pools[n]) then Some(Written(n in db.pools, pools[n])) else PoolAt(db.pools, n)
  {
  }

  lemma SamePools(a: map<string, PoolRec>, b: map<string, PoolRec>)
    requires forall n :: PoolAt(a, n) == PoolAt(b, n)
    ensures a == b
  {
    forall n ensures (n in a <==> n in b) && (n in a && n in b ==> a[n] == b[n]) {
      assert PoolAt(a, n) == PoolAt(b, n);
    }
  }

  lemma PoolPhaseOneMore(db: Db, pools: map<string, PoolRec>, n: string, p: PoolRec)
    requires n !in pools
    ensures PoolPhase(PoolPhase(db, pools), map[n := p]) == PoolPhase(db, pools[n := p])
  {
    var mid := PoolPhase(db, pools);
    var a, b := PoolPhase(mid, map[n := p]), PoolPhase(db, pools[n := p]);
    forall k ensures PoolAt(a.pools, k) == PoolAt(b.pools, k) {
      PoolPhaseAt(mid, map[n := p], k);
      PoolPhaseAt(db, pools, k);
      PoolPhaseAt(db, pools[n := p], k);
      assert Accepts(mid, p) == Accepts(db, p);
      assert k in map[n := p] <==> k == n;
    }
    SamePools(a.pools, b.pools);
  }

  lemma PoolPhaseOfOne(db: Db, n: string, p: PoolRec)
    ensures PoolPhase(db, map[n := p]).pools ==
            if Accepts(db, p) then db.pools[n := Written(n in db.pools, p)] else db.pools
  {
  }

  // ---- answers that are fine ----

  predicate FineSave(a: SaveReply) { a.found && a.reply.Ok? }

  predicate FineSaves(rs: seq<SaveReply>) { forall i :: 0 <= i < |rs| ==> FineSave(rs[i]) }

  predicate FineCloudSaves(a: CloudSaves) { FineSave(a.cloud) && FineSaves(a.sizes) && FineSaves(a.images) }

  predicate FinePool(a: PoolReplies) { a.forge && a.cloud && a.size && a.image && FineSave(a.save) }

  predicate FineVisits(vs: seq<Visit>) { forall v :: v in vs ==> v.owned && v.counted && v.reply.Ok? }

  /** Every object could be listed and every lookup and save worked. */
  predicate Fine(r: PassReplies) {
    && r.clouds.Some? && (forall i :: 0 <= i < |r.clouds.value| ==> FineCloudSaves(r.clouds.value[i]))
    && r.forges.Some? && FineSaves(r.forges.value)
    && r.pools.Some? && (forall i :: 0 <= i < |r.pools.value| ==> FinePool(r.pools.value[i]))
    && r.relisted
  }

  function Writes(vs: seq<Visit>): set<Write> { set v | v in vs :: v.w }

  lemma WritesOneMore(vs: seq<Visit>)
    requires vs != []
    ensures Writes(vs) == Writes(vs[..|vs| - 1]) + {vs[|vs| - 1].w}
  {
    assert vs == vs[..|vs| - 1] + [vs[|vs| - 1]];
  }

  // ---- the catalogue of one cloud ----

  /** The table with every listed entry of the cloud saved. */
  ghost predicate SavedTo<V>(table: map<Item, V>, t: map<Item, V>, cloud: string, entries: map<string, V>) {
    forall k :: At(t, k) == if k.cloud == cloud && k.name in entries then Some(entries[k.name]) else At(table, k)
  }

  /** The table with those of the entries in `seen` deleted that are not to be kept and that no pool uses. */
  ghost predicate PrunedTo<V>(table: map<Item, V>, t: map<Item, V>, cloud: string, keep: set<string>, used: set<Item>,
                              seen: set<Item>) {
    forall k :: At(t, k) ==
      if k.cloud == cloud && k.name !in keep && k !in used && k in seen then None else At(table, k)
  }

  lemma PrunedOneMore<V>(table: map<Item, V>, t: map<Item, V>, cloud: string, keep: set<string>, used: set<Item>,
                         seen: set<Item>, k: Item)
    requires PrunedTo(table, t, cloud, keep, used, seen)
    ensures var t' := if k.cloud == cloud && k.name !in keep && k !in used then t - {k} else t;
            PrunedTo(table, t', cloud, keep, used, seen + {k})
  {
  }

  function SizesIn(ws: set<Write>): set<Item> { set w | w in ws && w.DropSize? :: w.k }

  function ImagesIn(ws: set<Write>): set<Item> { set w | w in ws && w.DropImage? :: w.k }

  lemma {:induction false} FineSizes(d: Db, cloud: string, raw: seq<RawEntry<SizeRec>>, rs: seq<SaveReply>)
    requires cloud in d.clouds && |rs| == |raw| && FineSaves(rs)
    ensures var (e, ok) := SaveEntries(d, cloud, raw, SizeWrite, rs);
            ok && e == d.(sizes := e.sizes) && SavedTo(d.sizes, e.sizes, cloud, Entries(raw))
  {
    if raw != [] { FineSizes(d, cloud, raw[..|raw| - 1], rs[..|raw| - 1]); }
  }

  lemma {:induction false} FineImages(d: Db, cloud: string, raw: seq<RawEntry<ImageRec>>, rs: seq<SaveReply>)
    requires cloud in d.clouds && |rs| == |raw| && FineSaves(rs)
    ensures var (e, ok) := SaveEntries(d, cloud, raw, ImageWrite, rs);
            ok && e == d.(images := e.images) && SavedTo(d.images, e.images, cloud, Entries(raw))
  {
    if raw != [] { FineImages(d, cloud, raw[..|raw| - 1], rs[..|raw| - 1]); }
  }

  lemma FineSaveCloud(db: Db, o: CloudObject, a: CloudSaves)
    requires o.secret.Some? && Answers(o, a) && FineCloudSaves(a)
    ensures var (d, ok) := SaveCloud(db, o, a);
            var n := ManagedName(o.ns, o.name);
            && ok && d == db.(clouds := db.clouds[n := CloudRecOf(o)], sizes := d.sizes, images := d.images)
            && SavedTo(db.sizes, d.sizes, n, Entries(o.sizes)) && SavedTo(db.images, d.images, n, Entries(o.images))
  {
    var n := ManagedName(o.ns, o.name);
    var saved := Save(db, PutCloud(n, CloudRecOf(o)), a.cloud);
    FineSizes(saved, n, o.sizes, a.sizes);
    FineImages(SaveEntries(saved, n, o.sizes, SizeWrite, a.sizes).0, n, o.images, a.images);
  }

  /** `e` is `d` with the visited entries pruned. */
  ghost predicate EntriesPruned(d: Db, e: Db, cloud: string, sizes: set<string>, images: set<string>, ws: set<Write>) {
    && e == d.(sizes := e.sizes, images := e.images)
    && PrunedTo(d.sizes, e.sizes, cloud, sizes, UsedSizes(d.pools), SizesIn(ws))
    && PrunedTo(d.images, e.images, cloud, images, UsedImages(d.pools), ImagesIn(ws))
  }

  lemma OneSizeMore(
    d: Db, e: Db, cloud: string, sizes: set<string>, images: set<string>, ws: set<Write>, v: Visit)
    requires EntriesPruned(d, e, cloud, sizes, images, ws) && v.counted && v.reply.Ok? && v.w.DropSize?
    ensures EntriesPruned(d, Pruned(e, v, EntryDue(cloud, sizes, images, v.w)), cloud, sizes, images, ws + {v.w})
  {
    PrunedOneMore(d.sizes, e.sizes, cloud, sizes, UsedSizes(d.pools), SizesIn(ws), v.w.k);
    assert SizesIn(ws + {v.w}) == SizesIn(ws) + {v.w.k} && ImagesIn(ws + {v.w}) == ImagesIn(ws);
  }

  lemma OneImageMore(
    d: Db, e: Db, cloud: string, sizes: set<string>, images: set<string>, ws: set<Write>, v: Visit)
    requires EntriesPruned(d, e, cloud, sizes, images, ws) && v.counted && v.reply.Ok? && v.w.DropImage?
    ensures EntriesPruned(d, Pruned(e, v, EntryDue(cloud, sizes, images, v.w)), cloud, sizes, images, ws + {v.w})
  {
    PrunedOneMore(d.images, e.images, cloud, images, UsedImages(d.pools), ImagesIn(ws), v.w.k);
    assert ImagesIn(ws + {v.w}) == ImagesIn(ws) + {v.w.k} && SizesIn(ws + {v.w}) == SizesIn(ws);
  }

  lemma OneEntryMore(
    d: Db, e: Db, cloud: string, sizes: set<string>, images: set<string>, ws: set<Write>, v: Visit)
    requires EntriesPruned(d, e, cloud, sizes, images, ws) && v.counted && v.reply.Ok?
    ensures EntriesPruned(d, Pruned(e, v, EntryDue(cloud, sizes, images, v.w)), cloud, sizes, images, ws + {v.w})
  {
    if v.w.DropSize? {
      OneSizeMore(d, e, cloud, sizes, images, ws, v);
    } else if v.w.DropImage? {
      OneImageMore(d, e, cloud, sizes, images, ws, v);
    } else {
      assert SizesIn(ws + {v.w}) == SizesIn(ws) && ImagesIn(ws + {v.w}) == ImagesIn(ws);
    }
  }

  lemma {:induction false} FineEntries(d: Db, cloud: string, sizes: set<string>, images: set<string>, vs: seq<Visit>)
    requires FineVisits(vs)
    ensures EntriesPruned(d, PruneEntries(d, cloud, sizes, images, vs), cloud, sizes, images, Writes(vs))
  {
    if vs != [] {
      var v, before := vs[|vs| - 1], vs[..|vs| - 1];
      assert v in vs;
      FineEntries(d, cloud, sizes, images, before);
      WritesOneMore(vs);
      OneEntryMore(d, PruneEntries(d, cloud, sizes, images, before), cloud, sizes, images, Writes(before), v);
    }
  }

  /** The entries of the cloud that the two queries look for. */
  ghost function EntryRows(d: Db, cloud: string): set<Write> {
    (set k | k in d.sizes && k.cloud == cloud :: DropSize(k))
    + (set k | k in d.images && k.cloud == cloud :: DropImage(k))
  }

  lemma SavedThenPruned<V>(
    table: map<Item, V>, saved: map<Item, V>, t: map<Item, V>, n: string, entries: map<string, V>, used: set<Item>)
    requires SavedTo(table, saved, n, entries)
    requires forall k :: At(t, k) == if k.cloud == n && k.name !in entries && k !in used then None else At(saved, k)
    ensures t == Synced(table, used, map[n := entries])
  {
    forall k ensures At(t, k) == At(Synced(table, used, map[n := entries]), k) {
      SyncedAt(table, used, map[n := entries], k);
    }
    SameTable(t, Synced(table, used, map[n := entries]));
  }

  lemma FineCloud(db: Db, o: CloudObject, a: CloudSaves, vs: seq<Visit>)
    requires o.secret.Some? && Answers(o, a) && FineCloudSaves(a) && FineVisits(vs)
    requires EntryRows(SaveCloud(db, o, a).0, ManagedName(o.ns, o.name)) <= Writes(vs)
    ensures ApplyCloud(db, o, a, vs) == CloudPhase(db, map[ManagedName(o.ns, o.name) := CloudSpecOf(o)])
  {
    var n, d := ManagedName(o.ns, o.name), SaveCloud(db, o, a).0;
    FineSaveCloud(db, o, a);
    FineEntries(d, n, Entries(o.sizes).Keys, Entries(o.images).Keys, vs);
    var e := ApplyCloud(db, o, a, vs);
    forall k | k in d.sizes && k.cloud == n ensures k in SizesIn(Writes(vs)) {
      assert DropSize(k) in EntryRows(d, n);
    }
    forall k | k in d.images && k.cloud == n ensures k in ImagesIn(Writes(vs)) {
      assert DropImage(k) in EntryRows(d, n);
    }
    SavedThenPruned(db.sizes, d.sizes, e.sizes, n, Entries(o.sizes), UsedSizes(db.pools));
    SavedThenPruned(db.images, d.images, e.images, n, Entries(o.images), UsedImages(db.pools));
    CloudPhaseOfOne(db, n, CloudSpecOf(o));
  }

  // ---- forges and pools ----

  lemma FineForge(db: Db, before: map<string, ForgeRec>, items: seq<ForgeObject>, o: ForgeObject, a: SaveReply)
    requires db.forges == before + ForgesOf(items) && FineSave(a)
    ensures ApplyForge(db, o, a) == db.(forges := before + ForgesOf(items + [o]))
  {
    assert (items + [o])[..|items|] == items;
    if o.secret.Some? { UpdateOfUnion(before, ForgesOf(items), ManagedName(o.ns, o.name), ForgeRecOf(o)); }
  }

  lemma FinePoolApplied(db: Db, o: PoolObject, a: PoolReplies)
    requires FinePool(a)
    ensures ApplyPool(db, o, a) == PoolPhase(db, map[ManagedName(o.ns, o.name) := PoolRecOf(o)])
  {
    PoolPhaseOfOne(db, ManagedName(o.ns, o.name), PoolRecOf(o));
  }

  // ---- pruning ----

  ghost function PoolRows(d: Db): set<Write> { set n | n in d.pools :: DropPool(n) }

  ghost function ForgeRows(d: Db): set<Write> { set n | n in d.forges :: DropForge(n) }

  ghost function CloudRows(d: Db): set<Write> { set n | n in d.clouds :: DropCloud(n) }

  predicate OnlyPools(vs: seq<Visit>) { forall v :: v in vs ==> v.w.DropPool? }

  predicate OnlyForges(vs: seq<Visit>) { forall v :: v in vs ==> v.w.DropForge? }

  predicate OnlyClouds(vs: seq<Visit>) { forall v :: v in vs ==> v.w.DropCloud? }

  function PoolsGone(d: Db, m: Manifest, ws: set<Write>): set<string> {
    set n | n in d.pools && PrunesPool(d, n, m.pools.Keys) && DropPool(n) in ws
  }

  lemma OnePoolMore(d: Db, m: Manifest, ws: set<Write>, v: Visit)
    requires v.owned && v.counted && v.reply.Ok? && v.w.DropPool?
    ensures var e := d.(pools := d.pools - PoolsGone(d, m, ws));
            Pruned(e, v, RowDue(e, m, v.w)) == d.(pools := d.pools - PoolsGone(d, m, ws + {v.w}))
  {
    var n, gone := v.w.n, PoolsGone(d, m, ws);
    assert PoolsGone(d, m, ws + {v.w}) == gone + if n in d.pools && PrunesPool(d, n, m.pools.Keys) then {n} else {};
    assert d.pools - (gone + {n}) == d.pools - gone - {n};
  }

  lemma {:induction false} FinePools(d: Db, m: Manifest, vs: seq<Visit>)
    requires FineVisits(vs) && OnlyPools(vs)
    ensures PruneRows(d, m, vs) == d.(pools := d.pools - PoolsGone(d, m, Writes(vs)))
  {
    if vs == [] {
      assert PoolsGone(d, m, Writes(vs)) == {};
    } else {
      assert vs[|vs| - 1] in vs;
      FinePools(d, m, vs[..|vs| - 1]);
      WritesOneMore(vs);
      OnePoolMore(d, m, Writes(vs[..|vs| - 1]), vs[|vs| - 1]);
    }
  }

  lemma PoolsPruned(d: Db, m: Manifest, vs: seq<Visit>)
    requires FineVisits(vs) && OnlyPools(vs) && PoolRows(d) <= Writes(vs)
    ensures PruneRows(d, m, vs) == K8s.PrunePools(d, m.pools.Keys)
  {
    FinePools(d, m, vs);
    forall n | n in d.pools ensures DropPool(n) in Writes(vs) { assert DropPool(n) in PoolRows(d); }
    assert PruneRows(d, m, vs).pools == K8s.PrunePools(d, m.pools.Keys).pools;
  }

  predicate PrunesForge(db: Db, n: string, present: set<string>)
    requires n in db.forges
  {
    n !in present && Managed(db.forges[n].settings) && !ForgeUsed(db.pools, n)
  }

  function ForgesGone(d: Db, m: Manifest, ws: set<Write>): set<string> {
    set n | n in d.forges && PrunesForge(d, n, m.forgeNames) && DropForge(n) in ws
  }

  lemma OneForgeMore(d: Db, m: Manifest, ws: set<Write>, v: Visit)
    requires v.counted && v.reply.Ok? && v.w.DropForge?
    ensures var e := d.(forges := d.forges - ForgesGone(d, m, ws));
            Pruned(e, v, RowDue(e, m, v.w)) == d.(forges := d.forges - ForgesGone(d, m, ws + {v.w}))
  {
    var n, gone := v.w.n, ForgesGone(d, m, ws);
    assert ForgesGone(d, m, ws + {v.w}) == gone + if n in d.forges && PrunesForge(d, n, m.forgeNames) then {n} else {};
    assert d.forges - (gone + {n}) == d.forges - gone - {n};
  }

  lemma {:induction false} FineForges(d: Db, m: Manifest, vs: seq<Visit>)
    requires FineVisits(vs) && OnlyForges(vs)
    ensures PruneRows(d, m, vs) == d.(forges := d.forges - ForgesGone(d, m, Writes(vs)))
  {
    if vs == [] {
      assert ForgesGone(d, m, Writes(vs)) == {};
    } else {
      assert vs[|vs| - 1] in vs;
      FineForges(d, m, vs[..|vs| - 1]);
      WritesOneMore(vs);
      OneForgeMore(d, m, Writes(vs[..|vs| - 1]), vs[|vs| - 1]);
    }
  }

  lemma ForgesPruned(d: Db, m: Manifest, vs: seq<Visit>)
    requires FineVisits(vs) && OnlyForges(vs) && ForgeRows(d) <= Writes(vs)
    ensures PruneRows(d, m, vs) == K8s.PruneForges(d, m.forgeNames)
  {
    FineForges(d, m, vs);
    forall n | n in d.forges ensures DropForge(n) in Writes(vs) { assert DropForge(n) in ForgeRows(d); }
    assert PruneRows(d, m, vs).forges == K8s.PruneForges(d, m.forgeNames).forges;
  }

  predicate PrunesCloud(db: Db, n: string, present: set<string>)
    requires n in db.clouds
  {
    n !in present && Managed(db.clouds[n].settings) && !CloudReferred(db.pools, n)
  }

  /** The clouds in `gone` were deleted, with their catalogues. */
  function WithoutClouds(d: Db, gone: set<string>): Db {
    d.(clouds := d.clouds - gone,
       sizes := map k | k in d.sizes && k.cloud !in gone :: d.sizes[k],
       images := map k | k in d.images && k.cloud !in gone :: d.images[k])
  }

  lemma OneCloudGone(d: Db, gone: set<string>, n: string)
    ensures Stored(WithoutClouds(d, gone), DropCloud(n)) == WithoutClouds(d, gone + {n})
  {
  }

  function CloudsGone(d: Db, m: Manifest, ws: set<Write>): set<string> {
    set n | n in d.clouds && PrunesCloud(d, n, m.cloudNames) && DropCloud(n) in ws
  }

  lemma UsedIsReferred(pools: map<string, PoolRec>, n: string)
    ensures CloudUsed(pools, n) ==> CloudReferred(pools, n)
  {
    if CloudUsed(pools, n) {
      var p :| p in pools && pools[p].cloud == n;
      assert RefersToCloud(pools[p], n);
    }
  }

  lemma OneCloudMore(d: Db, m: Manifest, ws: set<Write>, v: Visit)
    requires v.counted && v.reply.Ok? && v.w.DropCloud?
    ensures var e := WithoutClouds(d, CloudsGone(d, m, ws));
            Pruned(e, v, RowDue(e, m, v.w)) == WithoutClouds(d, CloudsGone(d, m, ws + {v.w}))
  {
    var n, gone := v.w.n, CloudsGone(d, m, ws);
    OneCloudGone(d, gone, n);
    UsedIsReferred(d.pools, n);
    assert CloudsGone(d, m, ws + {v.w}) == gone + if n in d.clouds && PrunesCloud(d, n, m.cloudNames) then {n} else {};
    assert n in gone ==> gone + {n} == gone;
  }

  lemma {:induction false} FineClouds(d: Db, m: Manifest, vs: seq<Visit>)
    requires FineVisits(vs) && OnlyClouds(vs)
    ensures PruneRows(d, m, vs) == WithoutClouds(d, CloudsGone(d, m, Writes(vs)))
  {
    if vs == [] {
      assert CloudsGone(d, m, Writes(vs)) == {};
      assert WithoutClouds(d, {}) == d;
    } else {
      assert vs[|vs| - 1] in vs;
      FineClouds(d, m, vs[..|vs| - 1]);
      WritesOneMore(vs);
      OneCloudMore(d, m, Writes(vs[..|vs| - 1]), vs[|vs| - 1]);
    }
  }

  lemma CloudsLeftAre(db: Db, present: set<string>, gone: set<string>)
    requires gone == set n | n in db.clouds && PrunesCloud(db, n, present)
    ensures K8s.PruneClouds(db, present) == WithoutClouds(db, gone)
  {
  }

  lemma CloudsPruned(d: Db, m: Manifest, vs: seq<Visit>)
    requires FineVisits(vs) && OnlyClouds(vs) && CloudRows(d) <= Writes(vs)
    ensures PruneRows(d, m, vs) == K8s.PruneClouds(d, m.cloudNames)
  {
    FineClouds(d, m, vs);
    forall n | n in d.clouds ensures DropCloud(n) in Writes(vs) { assert DropCloud(n) in CloudRows(d); }
    CloudsLeftAre(d, m.cloudNames, CloudsGone(d, m, Writes(vs)));
  }
}
