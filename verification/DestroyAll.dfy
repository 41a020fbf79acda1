/** The operator's last resort (DestroyAll in internal/controller/reap.go): every machine of this deployment goes, on
    every cloud that answers, whatever the tables say. */
module Wipes {
  import opened Types
  import opened Worlds
  import opened Reaper

  /** The visit of one listed machine; a foreign name is left alone. */
  function WipeMachine(w: World, k: Mid, m: Machine, v: MachineVisit): World {
    if HasOurName(m.name) then RemoveMachine(w, k, v.delete) else w
  }

  function WipeListing(w: World, cloud: nat, listing: map<string, Machine>, vs: seq<MachineVisit>): World {
    if vs == [] then w
    else
      var v := vs[|vs| - 1];
      var before := WipeListing(w, cloud, listing, vs[..|vs| - 1]);
      if v.id in listing then WipeMachine(before, Mid(cloud, v.id), listing[v.id], v) else before
  }

  /** How many of the deletes were reported to have worked. */
  function CountedIn(listing: map<string, Machine>, vs: seq<MachineVisit>): nat {
    if vs == [] then 0
    else
      var v := vs[|vs| - 1];
      CountedIn(listing, vs[..|vs| - 1])
      + if v.id in listing && HasOurName(listing[v.id].name) && v.delete.Ok? then 1 else 0
  }

  function WipeCloud(w: World, v: CloudVisit): World {
    if v.resolved && v.listed then WipeListing(w, v.cloud, Listing(w, v.cloud), v.machines) else w
  }

  function WipeClouds(w: World, vs: seq<CloudVisit>): World {
    if vs == [] then w else WipeCloud(WipeClouds(w, vs[..|vs| - 1]), vs[|vs| - 1])
  }

  function Counted(w: World, vs: seq<CloudVisit>): nat {
    if vs == [] then 0
    else
      var v, before := vs[|vs| - 1], vs[..|vs| - 1];
      Counted(w, before)
      + if v.resolved && v.listed then CountedIn(Listing(WipeClouds(w, before), v.cloud), v.machines) else 0
  }

  ghost predicate WipesVisited(w: World, vs: seq<CloudVisit>) {
    vs == [] ||
    (var v, before := vs[|vs| - 1], vs[..|vs| - 1];
     && WipesVisited(w, before)
     && (v.resolved && v.listed ==>
           Enumerates(MachineIds(v.machines), Listing(WipeClouds(w, before), v.cloud).Keys)))
  }

  /** Every configured cloud once, and every machine it lists once. */
  ghost predicate WipePass(w: World, vs: seq<CloudVisit>) {
    Enumerates(CloudIds(vs), w.clouds.Keys) && WipesVisited(w, vs)
  }

  /** Nothing but machines of ours is gone. */
  ghost predicate OnlyOurs(w: World, w': World) {
    && w' == w.(machines := w'.machines)
    && Shrunk(w.machines, w'.machines)
    && forall k :: k in w.machines && k !in w'.machines ==> Ours(w.self, w.machines[k])
  }

  lemma {:induction false} WipeListingKeeps(w: World, w': World, cloud: nat, listing: map<string, Machine>,
                                            vs: seq<MachineVisit>)
    requires OnlyOurs(w, w')
    requires forall id :: id in listing ==>
      && Mid(cloud, id) in w.machines && w.machines[Mid(cloud, id)] == listing[id]
      && Owner(w.self, "").Matches(listing[id].tags)
    ensures var w'' := WipeListing(w', cloud, listing, vs);
            && OnlyOurs(w, w'') && Shrunk(w'.machines, w''.machines)
            && (forall v :: v in vs && v.id in listing && v.delete.Ok? && HasOurName(listing[v.id].name) ==>
                  Mid(cloud, v.id) !in w''.machines)
  {
    if vs != [] {
      WipeListingKeeps(w, w', cloud, listing, vs[..|vs| - 1]);
      forall v | v in vs && v != vs[|vs| - 1] ensures v in vs[..|vs| - 1] {
      }
    }
  }

  predicate WipeVisitOk(v: CloudVisit) {
    v.resolved && v.listed && forall m :: m in v.machines ==> m.delete.Ok?
  }

  lemma WipeCloudClears(w: World, w': World, v: CloudVisit)
    requires OnlyOurs(w, w')
    requires v.resolved && v.listed ==> Enumerates(MachineIds(v.machines), Listing(w', v.cloud).Keys)
    ensures var w'' := WipeCloud(w', v);
            && OnlyOurs(w, w'') && Shrunk(w'.machines, w''.machines)
            && (WipeVisitOk(v) ==>
                  forall k :: k in w''.machines && k.cloud == v.cloud ==> !Ours(w.self, w''.machines[k]))
  {
    if v.resolved && v.listed {
      var listing, w'' := Listing(w', v.cloud), WipeCloud(w', v);
      WipeListingKeeps(w, w', v.cloud, listing, v.machines);
      if WipeVisitOk(v) {
        forall k | k in w''.machines && k.cloud == v.cloud ensures !Ours(w.self, w''.machines[k]) {
          if k.id in listing { var m := VisitOfMachine(v.machines, listing.Keys, k.id); }
        }
      }
    }
  }

  lemma VisitOfMachine(vs: seq<MachineVisit>, ids: set<string>, id: string) returns (v: MachineVisit)
    requires Enumerates(MachineIds(vs), ids) && id in ids
    ensures v in vs && v.id == id
  {
    assert id in MachineIds(vs);
    var i :| 0 <= i < |vs| && MachineIds(vs)[i] == id;
    v := vs[i];
  }

  /** Only machines of this deployment go, no row and no registration is touched, and on every cloud whose calls worked
      none of them is left. */
  lemma {:induction false} DestroyAllGuarantee(w: World, vs: seq<CloudVisit>)
    requires WipesVisited(w, vs)
    ensures var w' := WipeClouds(w, vs);
            && OnlyOurs(w, w')
            && (forall v, k :: v in vs && WipeVisitOk(v) && k in w'.machines && k.cloud == v.cloud ==>
                  !Ours(w.self, w'.machines[k]))
  {
    if vs != [] {
      var last, before := vs[|vs| - 1], vs[..|vs| - 1];
      DestroyAllGuarantee(w, before);
      WipeCloudClears(w, WipeClouds(w, before), last);
      forall v | v in vs && v != last ensures v in before {
      }
    }
  }

  // ---- the count ----

  /** No delete that reports an error has worked after all. */
  predicate Honest(vs: seq<MachineVisit>) { forall v :: v in vs ==> v.delete != Err(true) }

  /** The ids still to be visited are those of machines that are still there. */
  lemma {:induction false} UnvisitedStay(w: World, cloud: nat, listing: map<string, Machine>, vs: seq<MachineVisit>,
                                         id: string)
    requires Mid(cloud, id) in w.machines && forall v :: v in vs ==> v.id != id
    ensures Mid(cloud, id) in WipeListing(w, cloud, listing, vs).machines
  {
    if vs != [] { UnvisitedStay(w, cloud, listing, vs[..|vs| - 1], id); }
  }

  lemma {:induction false} ListingCount(w: World, cloud: nat, listing: map<string, Machine>, vs: seq<MachineVisit>)
    requires Honest(vs) && (forall id :: id in listing ==> Mid(cloud, id) in w.machines)
    requires forall i, j :: 0 <= i < j < |vs| ==> vs[i].id != vs[j].id
    ensures |WipeListing(w, cloud, listing, vs).machines| + CountedIn(listing, vs) == |w.machines|
  {
    if vs != [] {
      var v, before := vs[|vs| - 1], vs[..|vs| - 1];
      assert v in vs && forall u :: u in before ==> u in vs;
      ListingCount(w, cloud, listing, before);
      if v.id in listing {
        forall u | u in before ensures u.id != v.id {
          var i :| 0 <= i < |before| && before[i] == u;
          assert vs[i] == u;
        }
        UnvisitedStay(w, cloud, listing, before, v.id);
        OneMachineLess(WipeListing(w, cloud, listing, before).machines, Mid(cloud, v.id));
      }
    }
  }

  lemma OneMachineLess(machines: map<Mid, Machine>, k: Mid)
    requires k in machines
    ensures |machines - {k}| + 1 == |machines|
  {
  }

  lemma DistinctVisits(vs: seq<MachineVisit>, ids: set<string>)
    requires Enumerates(MachineIds(vs), ids)
    ensures forall i, j :: 0 <= i < j < |vs| ==> vs[i].id != vs[j].id
  {
    forall i, j | 0 <= i < j < |vs| ensures vs[i].id != vs[j].id {
      assert MachineIds(vs)[i] == vs[i].id && MachineIds(vs)[j] == vs[j].id;
    }
  }

  /** The number reported is the number of machines that are gone. */
  lemma {:induction false} DestroyAllCounts(w: World, vs: seq<CloudVisit>)
    requires WipesVisited(w, vs) && forall v :: v in vs ==> Honest(v.machines)
    ensures |WipeClouds(w, vs).machines| + Counted(w, vs) == |w.machines|
  {
    if vs != [] {
      var v, before := vs[|vs| - 1], vs[..|vs| - 1];
      assert v in vs && forall u :: u in before ==> u in vs;
      DestroyAllCounts(w, before);
      if v.resolved && v.listed {
        var u := WipeClouds(w, before);
        DistinctVisits(v.machines, Listing(u, v.cloud).Keys);
        ListingCount(u, v.cloud, Listing(u, v.cloud), v.machines);
      }
    }
  }
}
