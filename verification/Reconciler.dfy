/** The Kubernetes reconciler as it runs: object by object, record by record, with every call free to fail
    (internal/k8s/reconcile.go, internal/k8s/k8s.go). */
module Reconcilers {
  import opened Types
  import opened K8s
  import opened ClusterObjects
  import opened StoreCalls
  import opened FinePasses

  ghost predicate DistinctClouds(items: seq<CloudObject>) {
    forall i, j :: 0 <= i < j < |items| ==>
      ManagedName(items[i].ns, items[i].name) != ManagedName(items[j].ns, items[j].name)
  }

  ghost predicate DistinctPools(items: seq<PoolObject>) {
    forall i, j :: 0 <= i < j < |items| ==>
      ManagedName(items[i].ns, items[i].name) != ManagedName(items[j].ns, items[j].name)
  }

  /** No two clouds and no two pools have the same record name. */
  ghost predicate DistinctNames(os: Objects) { DistinctClouds(os.clouds) && DistinctPools(os.pools) }

  lemma AppliedInParts(db: Db, os: Objects)
    ensures K8s.Applied(db, os.Manifest()) ==
            PoolPhase(K8s.ForgePhase(CloudPhase(db, CloudsOf(os.clouds)), ForgesOf(os.forges)), PoolsOf(os.pools))
  {
  }

  lemma NextCloud(db: Db, items: seq<CloudObject>, i: nat)
    requires i < |items| && items[i].secret.Some? && DistinctClouds(items)
    ensures var n := ManagedName(items[i].ns, items[i].name);
            CloudPhase(CloudPhase(db, CloudsOf(items[..i])), map[n := CloudSpecOf(items[i])]) ==
            CloudPhase(db, CloudsOf(items[..i + 1]))
  {
    assert items[..i + 1][..i] == items[..i];
    CloudsOfKeys(items[..i]);
    CloudPhaseOneMore(db, CloudsOf(items[..i]), ManagedName(items[i].ns, items[i].name), CloudSpecOf(items[i]));
  }

  lemma NextPool(db: Db, items: seq<PoolObject>, i: nat)
    requires i < |items| && DistinctPools(items)
    ensures var n := ManagedName(items[i].ns, items[i].name);
            PoolPhase(PoolPhase(db, PoolsOf(items[..i])), map[n := PoolRecOf(items[i])]) ==
            PoolPhase(db, PoolsOf(items[..i + 1]))
  {
    assert items[..i + 1][..i] == items[..i];
    PoolsOfKeys(items[..i]);
    PoolPhaseOneMore(db, PoolsOf(items[..i]), ManagedName(items[i].ns, items[i].name), PoolRecOf(items[i]));
  }

  lemma FinePoolNext(db: Db, items: seq<PoolObject>, i: nat, a: PoolReplies)
    requires i < |items| && DistinctPools(items) && FinePool(a)
    ensures StoreCalls.ApplyPool(PoolPhase(db, PoolsOf(items[..i])), items[i], a) ==
            PoolPhase(db, PoolsOf(items[..i + 1]))
  {
    FinePoolApplied(PoolPhase(db, PoolsOf(items[..i])), items[i], a);
    NextPool(db, items, i);
  }

  lemma ApplyPoolsNext(db: Db, items: seq<PoolObject>, rs: seq<PoolReplies>, i: nat)
    requires i < |items| == |rs|
    ensures ApplyPools(db, items[..i + 1], rs[..i + 1]) ==
            StoreCalls.ApplyPool(ApplyPools(db, items[..i], rs[..i]), items[i], rs[i])
  {
    assert items[..i + 1][..i] == items[..i] && rs[..i + 1][..i] == rs[..i];
  }

  lemma {:induction false} PruningSizesKeepsImages(
    d: Db, n: string, keepSizes: set<string>, keepImages: set<string>, vs: seq<Visit>)
    requires forall v :: v in vs ==> v.w.DropSize?
    ensures PruneEntries(d, n, keepSizes, keepImages, vs).images == d.images
  {
    if vs != [] {
      assert vs[|vs| - 1] in vs;
      PruningSizesKeepsImages(d, n, keepSizes, keepImages, vs[..|vs| - 1]);
    }
  }

  lemma JoinedVisits(xs: seq<Visit>, ys: seq<Visit>)
    ensures Writes(xs + ys) == Writes(xs) + Writes(ys)
    ensures FineVisits(xs) && FineVisits(ys) ==> FineVisits(xs + ys)
  {
  }

  class Reconciler {
    var clouds: map<string, CloudRec>
    var forges: map<string, ForgeRec>
    var sizes: map<Item, SizeRec>
    var images: map<Item, ImageRec>
    var pools: map<string, PoolRec>
    var busy: set<string>

    constructor (db: Db)
      ensures View() == db
    {
      clouds, forges, sizes, images, pools, busy := db.clouds, db.forges, db.sizes, db.images, db.pools, db.busy;
    }

    function View(): Db
      reads this
    {
      Db(clouds, forges, sizes, images, pools, busy)
    }

    // ---- calls to the store ----

    method Do(w: Write, reply: Reply) returns (ok: bool)
      modifies this
      ensures View() == Perform(old(View()), w, reply)
      ensures ok <==> Works(old(View()), w, reply)
    {
      if Refuses(View(), w) {
        return false;
      }
      if reply.Applied() {
        match w
        case PutCloud(n, c) => clouds := clouds[n := c];
        case PutForge(n, f) => forges := forges[n := f];
        case PutSize(k, s) => sizes := sizes[k := s];
        case PutImage(k, i) => images := images[k := i];
        case PutPool(n, p) => pools := pools[n := p];
        case DropCloud(n) => clouds, sizes, images := clouds - {n}, Without(sizes, n), Without(images, n);
        case DropForge(n) => forges := forges - {n};
        case DropSize(k) => sizes := sizes - {k};
        case DropImage(k) => images := images - {k};
        case DropPool(n) => pools := pools - {n};
      }
      return reply.Ok?;
    }

    /** Looks the record up and saves it. */
    method Put(w: Write, a: SaveReply) returns (ok: bool)
      modifies this
      ensures View() == Save(old(View()), w, a)
      ensures ok <==> Saves(old(View()), w, a)
    {
      if Exists(View(), w) && !a.found {
        return false;
      }
      ok := Do(w, a.reply);
    }

    /** A query: some of the rows in some order; all of them when it works. What the calls about each row will answer is
        open, and fine when they work. */
    method Find(rows: set<Write>, works: bool) returns (vs: seq<Visit>)
      ensures forall v :: v in vs ==> v.w in rows
      ensures forall i, j :: 0 <= i < j < |vs| ==> vs[i].w != vs[j].w
      ensures works ==> FineVisits(vs) && rows <= Writes(vs)
    {
      var found: set<Write> := *;
      var order := Enumerate(if works then rows else found * rows);
      vs := [];
      for i := 0 to |order|
        invariant |vs| == i && forall j :: 0 <= j < i ==> vs[j].w == order[j] && vs[j].w in rows
        invariant works ==> FineVisits(vs)
      {
        var owned: bool, counted: bool, reply: Reply := *, *, *;
        assert order[i] in order;
        vs := vs + [if works then Visit(order[i], true, true, Ok) else Visit(order[i], owned, counted, reply)];
      }
      forall w | works && w in rows ensures w in Writes(vs) {
        assert w in order;
        var i :| 0 <= i < |order| && order[i] == w;
        assert vs[i] in vs;
      }
    }

    // ---- clouds ----

    /** Saves every listed entry of cloud `n`; the names are what the prune has to keep. */
    method PutEntries<V>(n: string, raw: seq<RawEntry<V>>, put: (Item, V) -> Write, rs: seq<SaveReply>)
      returns (ok: bool, want: set<string>)
      requires |rs| == |raw|
      modifies this
      ensures (View(), ok) == SaveEntries(old(View()), n, raw, put, rs)
      ensures ok ==> want == Entries(raw).Keys
    {
      want, ok := {}, true;
      ghost var before := View();
      for i := 0 to |raw|
        invariant (View(), ok) == SaveEntries(before, n, raw[..i], put, rs[..i])
        invariant ok ==> want == Entries(raw[..i]).Keys
      {
        assert raw[..i + 1][..i] == raw[..i] && rs[..i + 1][..i] == rs[..i];
        if ok && raw[i].name != "" {
          want := want + {raw[i].name};
          ok := Put(put(Item(n, raw[i].name), raw[i].value), rs[i]);
        }
      }
      assert raw[..|raw|] == raw && rs[..|raw|] == rs;
    }

    /** Removes entries the object no longer lists, leaving anything a pool still points at. */
    method PruneCatalogue(n: string, keepSizes: set<string>, keepImages: set<string>, works: bool)
      returns (ghost vs: seq<Visit>)
      modifies this
      ensures View() == PruneEntries(old(View()), n, keepSizes, keepImages, vs)
      ensures works ==> FineVisits(vs) && EntryRows(old(View()), n) <= Writes(vs)
    {
      ghost var before := View();
      var rows := Find(set k | k in sizes && k.cloud == n :: DropSize(k), works);
      PruneFound(n, keepSizes, keepImages, rows, before, []);
      vs := rows;
      assert [] + vs == vs;
      PruningSizesKeepsImages(before, n, keepSizes, keepImages, vs);
      rows := Find(set k | k in images && k.cloud == n :: DropImage(k), works);
      PruneFound(n, keepSizes, keepImages, rows, before, vs);
      JoinedVisits(vs, rows);
      vs := vs + rows;
    }

    /** The loop over the rows found, after those in `done`. */
    method PruneFound(n: string, keepSizes: set<string>, keepImages: set<string>, rows: seq<Visit>,
                      ghost before: Db, ghost done: seq<Visit>)
      requires View() == PruneEntries(before, n, keepSizes, keepImages, done)
      requires forall v :: v in rows ==> (v.w.DropSize? || v.w.DropImage?) && v.w.k.cloud == n
      modifies this
      ensures View() == PruneEntries(before, n, keepSizes, keepImages, done + rows)
    {
      assert done + [] == done;
      for i := 0 to |rows|
        invariant View() == PruneEntries(before, n, keepSizes, keepImages, done + rows[..i])
      {
        var v := rows[i];
        assert v in rows;
        assert (done + rows[..i + 1])[..|done| + i] == done + rows[..i];
        assert (done + rows[..i + 1])[|done| + i] == v;
        if (v.w.DropSize? && v.w.k.name in keepSizes) || (v.w.DropImage? && v.w.k.name in keepImages) {
          continue;
        }
        if v.counted && Counts(View(), v.w) {
          continue;
        }
        var _ := Do(v.w, v.reply);
      }
      assert rows[..|rows|] == rows;
    }

    /** Makes a cloud's sizes and images match the object, but keeps what a pool still uses; a save that fails stops
        it. */
    method SyncCatalogue(n: string, o: CloudObject, a: CloudSaves, works: bool) returns (ok: bool, ghost vs: seq<Visit>)
      requires Answers(o, a)
      modifies this
      ensures var (d, oks) := SaveEntries(old(View()), n, o.sizes, SizeWrite, a.sizes);
              var (e, okis) := SaveEntries(d, n, o.images, ImageWrite, a.images);
              && (ok <==> oks && okis)
              && View() == (if !oks then d else if !okis then e
                            else PruneEntries(e, n, Entries(o.sizes).Keys, Entries(o.images).Keys, vs))
              && (ok && works ==> FineVisits(vs) && EntryRows(e, n) <= Writes(vs))
    {
      var wantSizes, wantImages;
      vs := [];
      ok, wantSizes := PutEntries(n, o.sizes, SizeWrite, a.sizes);
      if !ok {
        return;
      }
      ok, wantImages := PutEntries(n, o.images, ImageWrite, a.images);
      if !ok {
        return;
      }
      vs := PruneCatalogue(n, wantSizes, wantImages, works);
    }

    method ApplyCloud(o: CloudObject, a: CloudSaves, works: bool) returns (ghost vs: seq<Visit>)
      requires Answers(o, a)
      modifies this
      ensures View() == StoreCalls.ApplyCloud(old(View()), o, a, vs)
      ensures works && FineCloudSaves(a) ==>
                View() == if o.secret.None? then old(View())
                          else CloudPhase(old(View()), map[ManagedName(o.ns, o.name) := CloudSpecOf(o)])
    {
      ghost var before := View();
      vs := [];
      if o.secret.None? {
        return;
      }
      var n := ManagedName(o.ns, o.name);
      var settings := o.settings;
      settings := settings[MANAGED_BY_LABEL := MANAGED_VALUE];
      var ok := Put(PutCloud(n, CloudRec(o.driver, Or(o.enabled, true), settings, o.secret.value)), a.cloud);
      if !ok {
        return;
      }
      ok, vs := SyncCatalogue(n, o, a, works);
      if works && FineCloudSaves(a) {
        FineSaveCloud(before, o, a);
        FineCloud(before, o, a, vs);
      }
    }

    method ReconcileClouds(items: seq<CloudObject>, rs: seq<CloudSaves>, works: bool)
      returns (ghost vs: seq<seq<Visit>>)
      requires |rs| == |items| && forall i :: 0 <= i < |items| ==> Answers(items[i], rs[i])
      modifies this
      ensures |vs| == |items| && View() == ApplyClouds(old(View()), items, rs, vs)
      ensures works && (forall i :: 0 <= i < |rs| ==> FineCloudSaves(rs[i])) && DistinctClouds(items) ==>
                View() == CloudPhase(old(View()), CloudsOf(items))
    {
      ghost var before := View();
      ghost var fine := works && (forall i :: 0 <= i < |rs| ==> FineCloudSaves(rs[i]))
                        && DistinctClouds(items);
      vs := [];
      CloudPhaseOfNone(before);
      for i := 0 to |items|
        invariant |vs| == i && View() == ApplyClouds(before, items[..i], rs[..i], vs)
        invariant fine ==> View() == CloudPhase(before, CloudsOf(items[..i]))
      {
        ghost var visits := ApplyCloud(items[i], rs[i], works);
        assert items[..i + 1][..i] == items[..i] && rs[..i + 1][..i] == rs[..i] && (vs + [visits])[..i] == vs;
        vs := vs + [visits];
        if fine && items[i].secret.Some? { NextCloud(before, items, i); }
      }
      assert items[..|items|] == items && rs[..|items|] == rs;
    }

    // ---- forges ----

    /** The webhook secret is not a credential for calling the forge; it lives in its own column. */
    method BuildForge(o: ForgeObject) returns (f: ForgeRec)
      requires o.secret.Some?
      ensures f == ForgeRecOf(o)
    {
      var creds := o.secret.value;
      var hook: Option<string> := None;
      if WEBHOOK_SECRET_KEY in creds && creds[WEBHOOK_SECRET_KEY] != "" {
        hook := Some(creds[WEBHOOK_SECRET_KEY]);
        creds := creds - {WEBHOOK_SECRET_KEY};
      }
      f := ForgeRec(o.kind, Or(o.enabled, true), o.settings[MANAGED_BY_LABEL := MANAGED_VALUE], creds, hook);
    }

    method ReconcileForges(items: seq<ForgeObject>, rs: seq<SaveReply>)
      requires |rs| == |items|
      modifies this
      ensures View() == ApplyForges(old(View()), items, rs)
      ensures FineSaves(rs) ==> View() == K8s.ForgePhase(old(View()), ForgesOf(items))
    {
      ghost var before := View();
      assert before.forges + map[] == before.forges;
      for i := 0 to |items|
        invariant View() == ApplyForges(before, items[..i], rs[..i])
        invariant FineSaves(rs) ==> View() == before.(forges := before.forges + ForgesOf(items[..i]))
      {
        assert items[..i + 1][..i] == items[..i] && rs[..i + 1][..i] == rs[..i];
        assert items[..i + 1] == items[..i] + [items[i]];
        if FineSaves(rs) { FineForge(View(), before.forges, items[..i], items[i], rs[i]); }
        if items[i].secret.None? {
          continue;
        }
        var f := BuildForge(items[i]);
        var _ := Put(PutForge(ManagedName(items[i].ns, items[i].name), f), rs[i]);
      }
      assert items[..|items|] == items && rs[..|items|] == rs;
    }

    // ---- pools ----

    method ApplyPool(o: PoolObject, a: PoolReplies)
      modifies this
      ensures View() == StoreCalls.ApplyPool(old(View()), o, a)
    {
      var n := ManagedName(o.ns, o.name);
      var forge, cloud := Qualify(o.ns, o.forgeRef), Qualify(o.ns, o.cloudRef);
      if !a.forge || forge !in forges || !a.cloud || cloud !in clouds || !a.size || Item(cloud, o.size) !in sizes {
        return;
      }
      var image: Option<Item> := None;
      if o.image != "" {
        if !a.image || Item(cloud, o.image) !in images {
          return;
        }
        image := Some(Item(cloud, o.image));
      }
      var p := PoolRec(forge, cloud, Item(cloud, o.size), image, Or(o.enabled, true), o.labels, Or(o.minIdle, 0),
                       Or(o.maxInstances, DEFAULT_MAX_INSTANCES), Or(o.jobTimeoutSec, DEFAULT_JOB_TIMEOUT_SEC),
                       Or(o.maxLifetimeSec, DEFAULT_MAX_LIFETIME_SEC), o.containerImage, Or(o.publicIPv4, true),
                       o.allowSSHFrom);
      if p.maxLifetimeSec <= p.jobTimeoutSec {
        return;
      }
      var _ := Put(PutPool(n, if n in pools then p else Inserted(p)), a.save);
    }

    method ReconcilePools(items: seq<PoolObject>, rs: seq<PoolReplies>)
      requires |rs| == |items|
      modifies this
      ensures View() == ApplyPools(old(View()), items, rs)
      ensures (forall i :: 0 <= i < |rs| ==> FinePool(rs[i])) && DistinctPools(items) ==>
                View() == PoolPhase(old(View()), PoolsOf(items))
    {
      ghost var before := View();
      ghost var fine := (forall i :: 0 <= i < |rs| ==> FinePool(rs[i])) && DistinctPools(items);
      assert PoolPhase(before, map[]).pools == before.pools;
      for i := 0 to |items|
        invariant View() == ApplyPools(before, items[..i], rs[..i])
        invariant fine ==> View() == PoolPhase(before, PoolsOf(items[..i]))
      {
        ApplyPoolsNext(before, items, rs, i);
        if fine { FinePoolNext(before, items, i, rs[i]); }
        ApplyPool(items[i], rs[i]);
      }
      assert items[..|items|] == items && rs[..|items|] == rs;
    }

    // ---- pruning ----

    /** A pool carries no settings of its own; it belongs to the cluster when its cloud does. */
    method ManagesPool(cloud: string, found: bool) returns (yes: bool)
      ensures yes <==> found && cloud in clouds && Managed(clouds[cloud].settings)
    {
      if !found || cloud !in clouds {
        return false;
      }
      return Managed(clouds[cloud].settings);
    }

    /** Pools first, because a cloud cannot go while a pool points at it; a pool with live machines is refused. */
    method PrunePools(m: Manifest, works: bool) returns (ghost vs: seq<Visit>)
      modifies this
      ensures View() == PruneRows(old(View()), m, vs)
      ensures works ==> View() == K8s.PrunePools(old(View()), m.pools.Keys)
    {
      ghost var before := View();
      var rows := Find(set n | n in pools :: DropPool(n), works);
      for i := 0 to |rows|
        invariant View() == PruneRows(before, m, rows[..i])
        invariant forall j :: i <= j < |rows| ==> rows[j] in rows && rows[j].w.n in pools
      {
        var v := rows[i];
        assert v in rows;
        assert rows[..i + 1][..i] == rows[..i];
        if v.w.n in m.pools {
          continue;
        }
        var manages := ManagesPool(pools[v.w.n].cloud, v.owned);
        if !manages || !v.counted || v.w.n in busy {
          continue;
        }
        var _ := Do(v.w, v.reply);
      }
      assert rows[..|rows|] == rows;
      vs := rows;
      if works { PoolsPruned(before, m, vs); }
    }

    method PruneForges(m: Manifest, works: bool) returns (ghost vs: seq<Visit>)
      modifies this
      ensures View() == PruneRows(old(View()), m, vs)
      ensures works ==> View() == K8s.PruneForges(old(View()), m.forgeNames)
    {
      ghost var before := View();
      var rows := Find(set n | n in forges :: DropForge(n), works);
      for i := 0 to |rows|
        invariant View() == PruneRows(before, m, rows[..i])
        invariant forall j :: i <= j < |rows| ==> rows[j] in rows && rows[j].w.n in forges
      {
        var v := rows[i];
        assert v in rows;
        assert rows[..i + 1][..i] == rows[..i];
        if v.w.n in m.forgeNames || !Managed(forges[v.w.n].settings) {
          continue;
        }
        if v.counted && ForgeUsed(pools, v.w.n) {
          continue;
        }
        var _ := Do(v.w, v.reply);
      }
      assert rows[..|rows|] == rows;
      vs := rows;
      if works { ForgesPruned(before, m, vs); }
    }

    method PruneClouds(m: Manifest, works: bool) returns (ghost vs: seq<Visit>)
      modifies this
      ensures View() == PruneRows(old(View()), m, vs)
      ensures works ==> View() == K8s.PruneClouds(old(View()), m.cloudNames)
    {
      ghost var before := View();
      var rows := Find(set n | n in clouds :: DropCloud(n), works);
      for i := 0 to |rows|
        invariant View() == PruneRows(before, m, rows[..i])
        invariant forall j :: i <= j < |rows| ==> rows[j] in rows && rows[j].w.n in clouds
      {
        var v := rows[i];
        assert v in rows;
        assert rows[..i + 1][..i] == rows[..i];
        if v.w.n in m.cloudNames || !Managed(clouds[v.w.n].settings) {
          continue;
        }
        if v.counted && CloudUsed(pools, v.w.n) {
          continue;
        }
        var _ := Do(v.w, v.reply);
      }
      assert rows[..|rows|] == rows;
      vs := rows;
      if works { CloudsPruned(before, m, vs); }
    }

    method PruneDeleted(m: Manifest, works: bool)
      returns (ghost goneP: seq<Visit>, ghost goneF: seq<Visit>, ghost goneC: seq<Visit>)
      modifies this
      ensures View() == PruneRows(PruneRows(PruneRows(old(View()), m, goneP), m, goneF), m, goneC)
      ensures works ==> View() == K8s.PruneDeleted(old(View()), m)
    {
      goneP := PrunePools(m, works);
      goneF := PruneForges(m, works);
      goneC := PruneClouds(m, works);
    }

    // ---- a pass ----

    /** Clouds, then forges, then pools, because a pool refers to the other two by name. Objects that cannot be listed
        are passed over. */
    method ApplyObjects(os: Objects, r: PassReplies, works: bool) returns (ghost entries: seq<seq<Visit>>)
      requires Fits(os, r)
      modifies this
      ensures |entries| == |os.clouds|
      ensures View() == PoolPart(ForgePart(CloudPart(old(View()), os, r, entries), os, r), os, r)
      ensures works && Fine(r) && DistinctNames(os) ==> View() == K8s.Applied(old(View()), os.Manifest())
    {
      AppliedInParts(View(), os);
      entries := seq(|os.clouds|, _ => []);
      if r.clouds.Some? {
        entries := ReconcileClouds(os.clouds, r.clouds.value, works);
      }
      if r.forges.Some? {
        ReconcileForges(os.forges, r.forges.value);
      }
      if r.pools.Some? {
        ReconcilePools(os.pools, r.pools.value);
      }
    }

    /** One pass: the objects, then what the cluster no longer has. `works` says that the calls made in pruning work. */
    method Reconcile(os: Objects, r: PassReplies, works: bool) returns (ghost v: PassVisits)
      requires Fits(os, r)
      modifies this
      ensures |v.entries| == |os.clouds| && View() == ReconcileWith(old(View()), os, r, v)
      ensures works && Fine(r) && DistinctNames(os) ==> View() == K8s.Reconcile(old(View()), os.Manifest())
    {
      ghost var entries := ApplyObjects(os, r, works);
      ghost var goneP: seq<Visit>, goneF: seq<Visit>, goneC: seq<Visit> := [], [], [];
      if r.relisted {
        goneP, goneF, goneC := PruneDeleted(os.Manifest(), works);
      }
      v := PassVisits(entries, goneP, goneF, goneC);
    }
  }
}
