/** How many machines to create and for which jobs: planScale, matchingJobs, mergeJobs and normalizeLabel
    (internal/controller/controller.go). */
module Scaling {
  import opened Types
  import opened Instances

  datatype Job = Job(id: string, labels: seq<string>)

  // ---- labels ----

  function LowerChar(c: char): char {
    if 'A' <= c <= 'Z' then c - 'A' + 'a' else c
  }

  function Lower(s: string): (r: string)
    ensures |r| == |s|
  {
    seq(|s|, i requires 0 <= i < |s| => LowerChar(s[i]))
  }

  /** The first position of a colon, or |s|. */
  function ColonAt(s: string): (i: nat)
    ensures i <= |s| && (i < |s| ==> s[i] == ':') && (forall j :: 0 <= j < i ==> s[j] != ':')
  {
    if s == [] || s[0] == ':' then 0 else 1 + ColonAt(s[1..])
  }

  /** The bare lower-case name of a label that may carry a pinned image after a colon. */
  function NormalizeLabel(l: string): string {
    var i := ColonAt(l);
    if 0 < i < |l| then Lower(l[..i]) else Lower(l)
  }

  /** Lower-casing neither makes nor removes a colon, and doing it twice changes nothing more. */
  lemma LowerKeepsColons(s: string)
    ensures ColonAt(Lower(s)) == ColonAt(s) && Lower(Lower(s)) == Lower(s)
  {
    assert forall i :: 0 <= i < |s| ==> (Lower(s)[i] == ':' <==> s[i] == ':');
    var i, j := ColonAt(s), ColonAt(Lower(s));
    assert i < |s| ==> Lower(s)[i] == ':';
    assert j < |s| ==> s[j] == ':';
  }

  lemma NormalizeIsIdempotent(l: string)
    ensures NormalizeLabel(NormalizeLabel(l)) == NormalizeLabel(l)
  {
    var i := ColonAt(l);
    if 0 < i < |l| {
      LowerKeepsColons(l[..i]);
      assert forall j :: 0 <= j < i ==> l[..i][j] != ':';
      assert ColonAt(l[..i]) == i;
    } else {
      LowerKeepsColons(l);
    }
  }

  /** The pinned image and the case of a label do not matter. */
  lemma NormalizeIgnoresPinAndCase(name: string, image: string)
    requires name != "" && ':' !in name
    ensures NormalizeLabel(name + ":" + image) == NormalizeLabel(name) == NormalizeLabel(Lower(name))
    ensures forall c :: c in NormalizeLabel(name + ":" + image) ==> !('A' <= c <= 'Z')
  {
    var pinned := name + ":" + image;
    assert pinned[|name|] == ':' && forall i :: 0 <= i < |name| ==> pinned[i] == name[i];
    assert ColonAt(pinned) == |name| && pinned[..|name|] == name;
    assert forall i :: 0 <= i < |name| ==> Lower(name)[i] == LowerChar(name[i]) != ':';
    assert ColonAt(name) == |name| == ColonAt(Lower(name));
    assert Lower(Lower(name)) == Lower(name);
  }

  function NormalizedLabels(labels: seq<string>): seq<string> {
    seq(|labels|, i requires 0 <= i < |labels| => NormalizeLabel(labels[i]))
  }

  /** The pool offers every label the job asks for. */
  predicate Serves(poolLabels: seq<string>, j: Job) {
    forall l :: l in j.labels ==> NormalizeLabel(l) in NormalizedLabels(poolLabels)
  }

  // ---- what labels mean ----

  /** What a label says before the first colon; one that begins with the colon says all of it. */
  function BareName(l: string): string {
    if ':' in l && l[0] != ':' then l[..ColonAt(l)] else l
  }

  /** The same letter, or the two cases of one. */
  predicate SameLetter(c: char, d: char) {
    || c == d
    || ('A' <= c <= 'Z' && d as int == c as int + 32)
    || ('A' <= d <= 'Z' && c as int == d as int + 32)
  }

  predicate SameName(a: string, b: string) {
    |a| == |b| && forall i :: 0 <= i < |a| ==> SameLetter(a[i], b[i])
  }

  lemma LowerAgreesExactlyWhen(a: string, b: string)
    ensures Lower(a) == Lower(b) <==> SameName(a, b)
  {
    if Lower(a) == Lower(b) {
      forall i | 0 <= i < |a| ensures SameLetter(a[i], b[i]) { assert Lower(a)[i] == Lower(b)[i]; }
    }
  }

  lemma NormalizeIsLowerBare(l: string)
    ensures NormalizeLabel(l) == Lower(BareName(l))
  {
    if ':' in l { assert ColonAt(l) < |l|; }
  }

  /** Two labels mean the same exactly when their bare names agree letter by letter, up to case. */
  lemma LabelsAgreeExactlyWhen(a: string, b: string)
    ensures NormalizeLabel(a) == NormalizeLabel(b) <==> SameName(BareName(a), BareName(b))
  {
    NormalizeIsLowerBare(a);
    NormalizeIsLowerBare(b);
    LowerAgreesExactlyWhen(BareName(a), BareName(b));
  }

  /** Some label of the pool has the bare name of `l`. */
  predicate Offers(poolLabels: seq<string>, l: string) {
    exists p :: p in poolLabels && SameName(BareName(l), BareName(p))
  }

  predicate OffersAll(poolLabels: seq<string>, j: Job) { forall l :: l in j.labels ==> Offers(poolLabels, l) }

  lemma OffersExactlyWhen(poolLabels: seq<string>, l: string)
    ensures NormalizeLabel(l) in NormalizedLabels(poolLabels) <==> Offers(poolLabels, l)
  {
    var normal := NormalizedLabels(poolLabels);
    if NormalizeLabel(l) in normal {
      var i :| 0 <= i < |normal| && normal[i] == NormalizeLabel(l);
      LabelsAgreeExactlyWhen(l, poolLabels[i]);
    }
    if Offers(poolLabels, l) {
      var p :| p in poolLabels && SameName(BareName(l), BareName(p));
      var i :| 0 <= i < |poolLabels| && poolLabels[i] == p;
      LabelsAgreeExactlyWhen(l, p);
      assert normal[i] == NormalizeLabel(l);
    }
  }

  /** A pool serves a job exactly when for each name the job asks for it has a label of that bare name, up to case. */
  lemma ServesExactlyWhen(poolLabels: seq<string>, j: Job)
    ensures Serves(poolLabels, j) <==> OffersAll(poolLabels, j)
  {
    forall l ensures NormalizeLabel(l) in NormalizedLabels(poolLabels) <==> Offers(poolLabels, l) {
      OffersExactlyWhen(poolLabels, l);
    }
  }

  function Matching(jobs: seq<Job>, poolLabels: seq<string>): seq<Job> {
    if jobs == [] then []
    else
      var last := jobs[|jobs| - 1];
      Matching(jobs[..|jobs| - 1], poolLabels) + if Serves(poolLabels, last) then [last] else []
  }

  method MatchingJobs(jobs: seq<Job>, poolLabels: seq<string>) returns (out: seq<Job>)
    ensures out == Matching(jobs, poolLabels)
    ensures out == KeptBy(jobs, (j: Job) => OffersAll(poolLabels, j))
  {
    var have: set<string> := {};
    for i := 0 to |poolLabels|
      invariant forall l :: l in have <==> l in NormalizedLabels(poolLabels[..i])
    {
      assert NormalizedLabels(poolLabels[..i + 1]) == NormalizedLabels(poolLabels[..i])
             + [NormalizeLabel(poolLabels[i])];
      have := have + {NormalizeLabel(poolLabels[i])};
    }
    assert poolLabels[..|poolLabels|] == poolLabels;
    out := [];
    for i := 0 to |jobs|
      invariant out == Matching(jobs[..i], poolLabels)
    {
      var ok := true;
      var needs := jobs[i].labels;
      for n := 0 to |needs|
        invariant ok <==> forall k :: 0 <= k < n ==> NormalizeLabel(needs[k]) in NormalizedLabels(poolLabels)
      {
        if NormalizeLabel(needs[n]) !in have {
          ok := false;
          break;
        }
      }
      assert ok <==> Serves(poolLabels, jobs[i]);
      assert jobs[..i + 1][..i] == jobs[..i];
      if ok {
        out := out + [jobs[i]];
      }
    }
    assert jobs[..|jobs|] == jobs;
    MatchingInOrder(jobs, poolLabels);
  }

  /** The pool serves the same jobs whether its labels are pinned to an image or bare; so asking the forge for the
      bare labels asks for exactly those jobs. */
  lemma {:induction false} PinnedLabelsServeTheSame(jobs: seq<Job>, labels: seq<string>)
    ensures Matching(jobs, NormalizedLabels(labels)) == Matching(jobs, labels)
  {
    if jobs != [] {
      PinnedLabelsServeTheSame(jobs[..|jobs| - 1], labels);
      forall i | 0 <= i < |labels|
        ensures NormalizedLabels(NormalizedLabels(labels))[i] == NormalizedLabels(labels)[i]
      {
        NormalizeIsIdempotent(labels[i]);
      }
      assert NormalizedLabels(NormalizedLabels(labels)) == NormalizedLabels(labels);
    }
  }

  // ---- jobs by id ----

  predicate DistinctJobs(jobs: seq<Job>) {
    forall i, j :: 0 <= i < j < |jobs| ==> jobs[i].id != jobs[j].id
  }

  lemma AppendDistinct(jobs: seq<Job>, j: Job)
    requires DistinctJobs(jobs) && forall x :: x in jobs ==> x.id != j.id
    ensures DistinctJobs(jobs + [j])
  {
  }

  predicate NamedJobs(jobs: seq<Job>) {
    forall i :: 0 <= i < |jobs| ==> jobs[i].id != ""
  }

  function Ids(jobs: seq<Job>): set<string> {
    set j | j in jobs :: j.id
  }

  lemma {:induction false} MatchingMembers(jobs: seq<Job>, labels: seq<string>)
    ensures forall j :: j in Matching(jobs, labels) <==> j in jobs && OffersAll(labels, j)
  {
    if jobs != [] {
      var last, before := jobs[|jobs| - 1], jobs[..|jobs| - 1];
      ServesExactlyWhen(labels, last);
      MatchingMembers(before, labels);
      assert jobs == before + [last];
    }
  }

  lemma {:induction false} MatchingDistinct(jobs: seq<Job>, labels: seq<string>)
    requires DistinctJobs(jobs)
    ensures DistinctJobs(Matching(jobs, labels))
  {
    if jobs != [] {
      var last, before := jobs[|jobs| - 1], jobs[..|jobs| - 1];
      MatchingDistinct(before, labels);
      MatchingMembers(before, labels);
      assert forall x :: x in before ==> x.id != last.id;
      AppendDistinct(Matching(before, labels), last);
    }
  }

  /** What is kept is what the pool serves; and distinct named jobs stay so. */
  lemma MatchingKeeps(jobs: seq<Job>, labels: seq<string>)
    ensures var m := Matching(jobs, labels);
            && (forall j :: j in m <==> j in jobs && OffersAll(labels, j))
            && (DistinctJobs(jobs) ==> DistinctJobs(m))
            && (NamedJobs(jobs) ==> NamedJobs(m))
  {
    var m := Matching(jobs, labels);
    MatchingMembers(jobs, labels);
    if DistinctJobs(jobs) { MatchingDistinct(jobs, labels); }
    if NamedJobs(jobs) { forall i | 0 <= i < |m| ensures m[i].id != "" { assert m[i] in m; } }
  }

  /** `part` is what is left of `whole` at the positions `at`, in the order it had. */
  ghost predicate Picks(part: seq<Job>, whole: seq<Job>, at: seq<nat>) {
    && |at| == |part|
    && (forall i, j :: 0 <= i < j < |at| ==> at[i] < at[j])
    && (forall i :: 0 <= i < |at| ==> at[i] < |whole| && part[i] == whole[at[i]])
  }

  lemma PicksOneMore(part: seq<Job>, whole: seq<Job>, at: seq<nat>, last: Job, keep: bool)
    requires Picks(part, whole, at)
    ensures var at' := if keep then at + [|whole|] else at;
            && Picks(part + if keep then [last] else [], whole + [last], at')
            && (forall k: nat :: k < |whole| ==> (k in at' <==> k in at))
            && (|whole| in at' <==> keep)
  {
    assert forall k :: k in at ==> k < |whole|;
  }

  /** The jobs of a queue that `keep` holds of. */
  ghost function KeptBy(jobs: seq<Job>, keep: Job -> bool): seq<Job> {
    if jobs == [] then []
    else
      var last := jobs[|jobs| - 1];
      KeptBy(jobs[..|jobs| - 1], keep) + if keep(last) then [last] else []
  }

  /** They are those and no others, in the order they had. */
  lemma {:induction false} KeptInOrder(jobs: seq<Job>, keep: Job -> bool) returns (at: seq<nat>)
    ensures Picks(KeptBy(jobs, keep), jobs, at)
    ensures forall k: nat :: k < |jobs| ==> (k in at <==> keep(jobs[k]))
  {
    if jobs == [] {
      at := [];
    } else {
      var before, last := jobs[..|jobs| - 1], jobs[|jobs| - 1];
      at := KeptInOrder(before, keep);
      assert jobs == before + [last];
      PicksOneMore(KeptBy(before, keep), before, at, last, keep(last));
      at := if keep(last) then at + [|before|] else at;
    }
  }

  /** The jobs kept are, in the order of the queue, exactly those of which the pool has all the names. */
  lemma {:induction false} MatchingInOrder(jobs: seq<Job>, labels: seq<string>)
    ensures Matching(jobs, labels) == KeptBy(jobs, (j: Job) => OffersAll(labels, j))
  {
    if jobs != [] {
      ServesExactlyWhen(labels, jobs[|jobs| - 1]);
      MatchingInOrder(jobs[..|jobs| - 1], labels);
    }
  }

  // ---- mergeJobs ----

  /** Polled demand first, then what only a webhook announced. */
  method MergeJobs(polled: seq<Job>, hooked: seq<Job>) returns (out: seq<Job>)
    ensures out == Merged(polled, hooked)
  {
    if |hooked| == 0 {
      return polled;
    }
    var seen: set<string> := {};
    for i := 0 to |polled|
      invariant seen == set k | 0 <= k < i :: polled[k].id
    {
      seen := seen + {polled[i].id};
    }
    assert seen == Ids(polled);
    out := polled;
    for i := 0 to |hooked|
      invariant out == Merged(polled, hooked[..i])
    {
      assert hooked[..i + 1][..i] == hooked[..i];
      if hooked[i].id !in seen {
        out := out + [hooked[i]];
      }
    }
    assert hooked[..|hooked|] == hooked;
  }

  function Merged(polled: seq<Job>, hooked: seq<Job>): seq<Job> {
    if hooked == [] then polled
    else
      var last := hooked[|hooked| - 1];
      Merged(polled, hooked[..|hooked| - 1]) + if last.id in Ids(polled) then [] else [last]
  }

  /** Every job that either side knows is there once, the polled entry winning. */
  lemma {:induction false} MergeIsAUnion(polled: seq<Job>, hooked: seq<Job>)
    requires DistinctJobs(polled) && DistinctJobs(hooked)
    ensures var m := Merged(polled, hooked);
            && DistinctJobs(m)
            && Ids(m) == Ids(polled) + Ids(hooked)
            && polled <= m
            && (forall j :: j in m <==> j in polled || (j in hooked && j.id !in Ids(polled)))
  {
    if hooked != [] {
      var last, before := hooked[|hooked| - 1], hooked[..|hooked| - 1];
      assert hooked == before + [last];
      MergeIsAUnion(polled, before);
      assert forall j :: j in before ==> j.id != last.id;
      assert forall j :: j in Merged(polled, before) && last.id !in Ids(polled) ==> j.id != last.id;
      if last.id !in Ids(polled) { AppendDistinct(Merged(polled, before), last); }
    }
  }

  predicate Known(polled: seq<Job>, id: string) { exists p :: p in polled && p.id == id }

  /** What is announced comes after what is polled, in its own order, and leaves out exactly what is polled. */
  lemma {:induction false} MergedInOrder(polled: seq<Job>, hooked: seq<Job>)
    ensures Merged(polled, hooked) == polled + KeptBy(hooked, (j: Job) => !Known(polled, j.id))
  {
    if hooked == [] {
      assert polled + [] == polled;
    } else {
      MergedInOrder(polled, hooked[..|hooked| - 1]);
      assert hooked[|hooked| - 1].id in Ids(polled) <==> Known(polled, hooked[|hooked| - 1].id);
    }
  }

  // ---- planScale ----

  datatype Plan = Plan(forJobs: seq<Job>, warm: nat, queued: nat, uncovered: nat, idle: nat, atCeiling: nat)

  /** A machine nobody has claimed and that was not created for a job. */
  predicate Spare(r: Row) {
    r.state in {Pending, Provisioning, Booting, Idle} && r.jobId == ""
  }

  function CountSpare(live: seq<Row>): (n: nat)
    ensures n <= CountLive(live)
  {
    if live == [] then 0
    else CountSpare(live[..|live| - 1]) + if Spare(live[|live| - 1]) then 1 else 0
  }

  function CountLive(live: seq<Row>): nat {
    if live == [] then 0
    else CountLive(live[..|live| - 1]) + if live[|live| - 1].Live() then 1 else 0
  }

  function Covered(live: seq<Row>): set<string> {
    set r | r in live && r.jobId != "" :: r.jobId
  }

  function Uncovered(jobs: seq<Job>, covered: set<string>): seq<Job> {
    if jobs == [] then []
    else
      var last := jobs[|jobs| - 1];
      Uncovered(jobs[..|jobs| - 1], covered) + if last.id in covered then [] else [last]
  }

  /** What is left of a queue behind its first `idle` jobs. */
  function Behind(queue: seq<Job>, idle: nat): seq<Job> { if idle >= |queue| then [] else queue[idle..] }

  function UpTo(queue: seq<Job>, room: nat): seq<Job> { if |queue| > room then queue[..room] else queue }

  /** The decision: idle machines soak up the head of the uncovered queue, the ceiling cuts its tail, and what room
      is left tops up the unbound machines. */
  function PlanFor(maxInstances: int, minIdle: int, jobs: seq<Job>, live: seq<Row>): Plan {
    PlanOf(Uncovered(jobs, Covered(live)), CountSpare(live), Max(maxInstances - CountLive(live), 0), minIdle, |jobs|)
  }

  /** The plan for a queue of uncovered jobs, with so many idle machines and so much room. */
  function PlanOf(queue: seq<Job>, idle: nat, room: nat, minIdle: int, queued: nat): Plan {
    var needed := Behind(queue, idle);
    var launched := UpTo(needed, room);
    var spare := room - |launched|;
    Plan(launched,
         if spare > 0 && minIdle - idle > 0 then Min(minIdle - idle, spare) else 0,
         queued, |queue|, idle, |needed| - |launched|)
  }

  /** One look at the pool's machines: which jobs have one, how many machines are spare, how many count. */
  method Tally(live: seq<Row>) returns (covered: set<string>, idle: nat, total: nat)
    ensures covered == Covered(live) && idle == CountSpare(live) && total == CountLive(live)
  {
    covered, idle, total := {}, 0, 0;
    for i := 0 to |live|
      invariant covered == Covered(live[..i])
      invariant total == CountLive(live[..i])
      invariant idle == CountSpare(live[..i])
    {
      assert live[..i + 1] == live[..i] + [live[i]];
      CountsOneMore(live[..i], live[i]);
      CoveredOneMore(live[..i], live[i]);
      if live[i].jobId != "" {
        covered := covered + {live[i].jobId};
      }
      match live[i].state {
        case Pending | Provisioning | Booting | Idle =>
          if live[i].jobId == "" {
            idle := idle + 1;
          }
          total := total + 1;
        case Busy | Draining | Failed =>
          total := total + 1;
        case Deleted =>
      }
    }
    assert live[..|live|] == live;
  }

  method PlanScale(maxInstances: int, minIdle: int, jobs: seq<Job>, live: seq<Row>) returns (plan: Plan)
    ensures plan == PlanFor(maxInstances, minIdle, jobs, live)
  {
    plan := Plan([], 0, |jobs|, 0, 0, 0);
    var covered, idle, total := Tally(live);
    plan := plan.(idle := idle);

    var uncovered: seq<Job> := [];
    for i := 0 to |jobs|
      invariant uncovered == Uncovered(jobs[..i], covered)
    {
      assert jobs[..i + 1][..i] == jobs[..i];
      if jobs[i].id !in covered {
        uncovered := uncovered + [jobs[i]];
      }
    }
    assert jobs[..|jobs|] == jobs;
    plan := plan.(uncovered := |uncovered|);

    var toLaunch := uncovered;
    if plan.idle >= |toLaunch| {
      toLaunch := [];
    } else if plan.idle > 0 {
      toLaunch := toLaunch[plan.idle..];
    }

    var room := Max(maxInstances - total, 0);
    if |toLaunch| > room {
      plan := plan.(atCeiling := |toLaunch| - room);
      toLaunch := toLaunch[..room];
    }
    plan := plan.(forJobs := toLaunch);

    var spare := room - |toLaunch|;
    if spare > 0 {
      var want := minIdle - plan.idle;
      if want > 0 {
        plan := plan.(warm := Min(want, spare));
      }
    }
  }

  /** No demand is lost: each uncovered job is left to an idle machine, gets a machine, or waits at the ceiling; and
      jobs wait only when the pool is full and nothing is launched to keep warm. */
  lemma PlanConservesDemand(maxInstances: int, minIdle: int, jobs: seq<Job>, live: seq<Row>)
    ensures var p := PlanFor(maxInstances, minIdle, jobs, live);
            && p.uncovered == Min(p.idle, p.uncovered) + |p.forJobs| + p.atCeiling
            && (p.atCeiling > 0 ==>
                  p.warm == 0 && CountLive(live) + |p.forJobs| == Max(maxInstances, CountLive(live)))
  {
  }

  /** The plan never takes the pool over its ceiling, and adds nothing to a pool already over it. */
  lemma PlanRespectsCeiling(maxInstances: int, minIdle: int, jobs: seq<Job>, live: seq<Row>)
    ensures var p := PlanFor(maxInstances, minIdle, jobs, live);
            CountLive(live) + |p.forJobs| + p.warm <= Max(maxInstances, CountLive(live))
  {
  }

  lemma {:induction false} UncoveredAre(jobs: seq<Job>, covered: set<string>)
    ensures forall j :: j in Uncovered(jobs, covered) <==> j in jobs && j.id !in covered
    ensures NamedJobs(jobs) ==> NamedJobs(Uncovered(jobs, covered))
  {
    if jobs != [] {
      var last := jobs[|jobs| - 1];
      UncoveredAre(jobs[..|jobs| - 1], covered);
      assert jobs == jobs[..|jobs| - 1] + [last];
    }
  }

  predicate HasMachine(live: seq<Row>, id: string) { id != "" && exists r :: r in live && r.jobId == id }

  /** The jobs left are, in the order of the queue, exactly those that no machine was created for. */
  lemma {:induction false} UncoveredInOrder(jobs: seq<Job>, live: seq<Row>)
    ensures Uncovered(jobs, Covered(live)) == KeptBy(jobs, (j: Job) => !HasMachine(live, j.id))
  {
    if jobs != [] {
      var last := jobs[|jobs| - 1];
      UncoveredInOrder(jobs[..|jobs| - 1], live);
      assert last.id in Covered(live) <==> HasMachine(live, last.id);
    }
  }

  /** What counts as spare and as live: machines on their way up or idle, not created for a job; and all that are not
      deleted. */
  lemma RowCounts(maxInstances: int, minIdle: int, jobs: seq<Job>, live: seq<Row>, r: Row)
    ensures var before, after := PlanFor(maxInstances, minIdle, jobs, live),
            PlanFor(maxInstances, minIdle, jobs, live + [r]);
            after.idle == before.idle +
                          if r.jobId == "" && (r.state == Pending || r.state == Provisioning || r.state == Booting
                                               || r.state == Idle)
                          then 1 else 0
    ensures CountLive(live + [r]) == CountLive(live) + if r.state == Deleted then 0 else 1
  {
    CountsOneMore(live, r);
  }

  /** The numbers of a plan: of the uncovered jobs the idle machines take as many as they are, the room as many of the
      rest as it has, and what room is left is filled up to the number of machines to be kept idle, no further. */
  lemma PlanNumbers(maxInstances: int, minIdle: int, jobs: seq<Job>, live: seq<Row>)
    ensures var p := PlanFor(maxInstances, minIdle, jobs, live);
            var room := Max(0, maxInstances - CountLive(live));
            var left := Max(0, p.uncovered - p.idle);
            && p.queued == |jobs| && p.uncovered == |Uncovered(jobs, Covered(live))|
            && |p.forJobs| == Min(left, room) && p.atCeiling == left - |p.forJobs|
            && p.warm == Min(Max(0, minIdle - p.idle), room - |p.forJobs|)
  {
    NumbersOf(Uncovered(jobs, Covered(live)), CountSpare(live), Max(maxInstances - CountLive(live), 0), minIdle,
              |jobs|);
  }

  lemma NumbersOf(queue: seq<Job>, idle: nat, room: nat, minIdle: int, queued: nat)
    ensures var p, left := PlanOf(queue, idle, room, minIdle, queued), Max(0, |queue| - idle);
            && p.queued == queued && p.uncovered == |queue| && p.idle == idle
            && |p.forJobs| == Min(left, room) && p.atCeiling == left - |p.forJobs|
            && p.warm == Min(Max(0, minIdle - idle), room - |p.forJobs|)
  {
  }

  lemma {:induction false} UncoveredDistinct(jobs: seq<Job>, covered: set<string>)
    requires DistinctJobs(jobs)
    ensures DistinctJobs(Uncovered(jobs, covered))
  {
    if jobs != [] {
      var last := jobs[|jobs| - 1];
      UncoveredDistinct(jobs[..|jobs| - 1], covered);
      UncoveredAre(jobs[..|jobs| - 1], covered);
      assert forall x :: x in jobs[..|jobs| - 1] ==> x.id != last.id;
      AppendDistinct(Uncovered(jobs[..|jobs| - 1], covered), last);
    }
  }

  /** What is launched for are distinct waiting jobs that no machine was created for. */
  lemma PlanLaunchesForUncovered(maxInstances: int, minIdle: int, jobs: seq<Job>, live: seq<Row>)
    requires DistinctJobs(jobs) && NamedJobs(jobs)
    ensures var p := PlanFor(maxInstances, minIdle, jobs, live);
            && DistinctJobs(p.forJobs) && NamedJobs(p.forJobs)
            && (forall j :: j in p.forJobs ==> j in jobs && j.id !in Covered(live))
  {
    UncoveredAre(jobs, Covered(live));
    UncoveredDistinct(jobs, Covered(live));
  }

  /** The jobs of a queue behind the first `idle`, as many as there is room for. */
  function Stretch(queue: seq<Job>, idle: nat, room: nat): seq<Job> {
    queue[Min(idle, |queue|)..Min(idle + room, |queue|)]
  }

  lemma IsAStretch(queue: seq<Job>, idle: nat, room: nat, minIdle: int, queued: nat)
    ensures PlanOf(queue, idle, room, minIdle, queued).forJobs == Stretch(queue, idle, room)
  {
    if idle < |queue| && |queue| - idle > room { assert queue[idle..][..room] == queue[idle..idle + room]; }
  }

  /** The jobs launched for are the stretch of uncovered jobs behind those left to idle machines, as long as there is
      room. Nothing else counts, in particular no other pool. */
  lemma LaunchedAreAStretch(maxInstances: int, minIdle: int, jobs: seq<Job>, live: seq<Row>)
    ensures PlanFor(maxInstances, minIdle, jobs, live).forJobs ==
            Stretch(Uncovered(jobs, Covered(live)), CountSpare(live), Max(maxInstances - CountLive(live), 0))
  {
    IsAStretch(Uncovered(jobs, Covered(live)), CountSpare(live), Max(maxInstances - CountLive(live), 0), minIdle,
               |jobs|);
  }

  lemma OneServedJobIsUncovered(job: Job, labels: seq<string>)
    requires Serves(labels, job)
    ensures Uncovered(Matching([job], labels), {}) == [job]
  {
    var none: seq<Job> := [];
    assert [job][..0] == none;
    assert Matching([job], labels) == [job];
    assert Uncovered([job], {}) == [job];
  }

  // ---- planning again ----

  /** The rows a plan's launches add: one bound to each job, the warm ones unbound, all on their way up. */
  predicate Adds(p: Plan, added: seq<Row>) {
    && |added| == |p.forJobs| + p.warm
    && (forall i :: 0 <= i < |added| ==>
          && added[i].state in {Pending, Provisioning, Booting, Idle}
          && added[i].jobId == if i < |p.forJobs| then p.forJobs[i].id else "")
  }

  /** Rows that count are added, those from the `m`-th on spare. */
  lemma {:induction false} CountsAppend(live: seq<Row>, added: seq<Row>, m: nat)
    requires forall i :: 0 <= i < |added| ==> added[i].Live() && (Spare(added[i]) <==> i >= m)
    ensures CountLive(live + added) == CountLive(live) + |added|
    ensures CountSpare(live + added) == CountSpare(live) + Max(|added| - m, 0)
  {
    if added == [] {
      assert live + added == live;
    } else {
      var before, last := added[..|added| - 1], added[|added| - 1];
      CountsAppend(live, before, m);
      assert live + added == live + before + [last];
      CountsOneMore(live + before, last);
    }
  }

  lemma CoveredOneMore(rows: seq<Row>, r: Row)
    ensures Covered(rows + [r]) == Covered(rows) + if r.jobId != "" then {r.jobId} else {}
  {
  }

  lemma CountsOneMore(rows: seq<Row>, r: Row)
    ensures CountLive(rows + [r]) == CountLive(rows) + if r.Live() then 1 else 0
    ensures CountSpare(rows + [r]) == CountSpare(rows) + if Spare(r) then 1 else 0
  {
  }

  lemma CoveredAppend(live: seq<Row>, p: Plan, added: seq<Row>)
    requires Adds(p, added) && NamedJobs(p.forJobs)
    ensures Covered(live + added) == Covered(live) + Ids(p.forJobs)
  {
  }

  lemma {:induction false} UncoveredTwice(jobs: seq<Job>, c: set<string>, d: set<string>)
    ensures Uncovered(Uncovered(jobs, c), d) == Uncovered(jobs, c + d)
  {
    if jobs != [] {
      var last, before := jobs[|jobs| - 1], jobs[..|jobs| - 1];
      UncoveredTwice(before, c, d);
      if last.id !in c {
        assert Uncovered(jobs, c)[..|Uncovered(before, c)|] == Uncovered(before, c);
      } else {
        assert Uncovered(jobs, c) == Uncovered(before, c);
      }
    }
  }

  lemma {:induction false} UncoveredSplit(a: seq<Job>, b: seq<Job>, c: set<string>)
    requires forall j :: j in b ==> j.id in c
    ensures Uncovered(a + b, c) == Uncovered(a, c)
    decreases |b|
  {
    if b == [] {
      assert a + b == a;
    } else {
      assert (a + b)[..|a + b| - 1] == a + b[..|b| - 1];
      UncoveredSplit(a, b[..|b| - 1], c);
    }
  }

  lemma {:induction false} UncoveredShrinks(jobs: seq<Job>, c: set<string>)
    ensures |Uncovered(jobs, c)| <= |jobs|
  {
    if jobs != [] { UncoveredShrinks(jobs[..|jobs| - 1], c); }
  }

  /** A plan fills the room, or leaves no job waiting and as many spare machines as are to be kept. */
  lemma PlanFills(queue: seq<Job>, idle: nat, room: nat, minIdle: int, queued: nat)
    ensures var p := PlanOf(queue, idle, room, minIdle, queued);
            && |p.forJobs| + p.warm <= room
            && (|p.forJobs| + p.warm < room ==> p.atCeiling == 0 && minIdle <= idle + p.warm)
  {
  }

  /** With no room, or no more uncovered jobs than spare machines and none missing, nothing is launched. */
  lemma NothingToLaunch(queue: seq<Job>, idle: nat, room: nat, minIdle: int, queued: nat)
    requires room == 0 || (|queue| <= idle && minIdle <= idle)
    ensures var p := PlanOf(queue, idle, room, minIdle, queued); p.forJobs == [] && p.warm == 0
  {
  }

  /** A plan carried out is its own fixed point: planning again for the same queue launches nothing. */
  lemma ReplanLaunchesNothing(maxInstances: int, minIdle: int, jobs: seq<Job>, live: seq<Row>, added: seq<Row>)
    requires NamedJobs(jobs)
    requires Adds(PlanFor(maxInstances, minIdle, jobs, live), added)
    ensures var again := PlanFor(maxInstances, minIdle, jobs, live + added);
            again.forJobs == [] && again.warm == 0
  {
    var p := PlanFor(maxInstances, minIdle, jobs, live);
    var room := Max(maxInstances - CountLive(live), 0);
    PlanNamesJobs(maxInstances, minIdle, jobs, live);
    AddedCount(p, live, added);
    PlanFills(Uncovered(jobs, Covered(live)), CountSpare(live), room, minIdle, |jobs|);
    if p.atCeiling == 0 { LeftForIdle(maxInstances, minIdle, jobs, live, added); }
    NothingToLaunch(Uncovered(jobs, Covered(live + added)), CountSpare(live + added),
                    Max(maxInstances - CountLive(live + added), 0), minIdle, |jobs|);
  }

  lemma PlanNamesJobs(maxInstances: int, minIdle: int, jobs: seq<Job>, live: seq<Row>)
    requires NamedJobs(jobs)
    ensures NamedJobs(PlanFor(maxInstances, minIdle, jobs, live).forJobs)
  {
    UncoveredAre(jobs, Covered(live));
  }

  lemma AddedCount(p: Plan, live: seq<Row>, added: seq<Row>)
    requires NamedJobs(p.forJobs) && Adds(p, added)
    ensures CountLive(live + added) == CountLive(live) + |added|
    ensures CountSpare(live + added) == CountSpare(live) + p.warm
  {
    forall i | 0 <= i < |added| ensures added[i].Live() && (Spare(added[i]) <==> i >= |p.forJobs|) {
      assert i < |p.forJobs| ==> added[i].jobId == p.forJobs[i].id != "";
    }
    CountsAppend(live, added, |p.forJobs|);
  }

  /** When no job waits at the ceiling, the queue is what the idle machines take and what is launched for. */
  lemma QueueSplits(queue: seq<Job>, idle: nat, room: nat, minIdle: int, queued: nat)
    requires PlanOf(queue, idle, room, minIdle, queued).atCeiling == 0
    ensures queue == queue[..Min(idle, |queue|)] + PlanOf(queue, idle, room, minIdle, queued).forJobs
  {
  }

  /** When no job waits at the ceiling, what stays uncovered is what the idle machines take. */
  lemma LeftForIdle(maxInstances: int, minIdle: int, jobs: seq<Job>, live: seq<Row>, added: seq<Row>)
    requires NamedJobs(jobs)
    requires var p := PlanFor(maxInstances, minIdle, jobs, live); Adds(p, added) && p.atCeiling == 0
    ensures |Uncovered(jobs, Covered(live + added))| <= CountSpare(live)
  {
    var queue, idle := Uncovered(jobs, Covered(live)), CountSpare(live);
    var room := Max(maxInstances - CountLive(live), 0);
    var launched := PlanOf(queue, idle, room, minIdle, |jobs|).forJobs;
    PlanNamesJobs(maxInstances, minIdle, jobs, live);
    CoveredAppend(live, PlanFor(maxInstances, minIdle, jobs, live), added);
    UncoveredTwice(jobs, Covered(live), Ids(launched));
    QueueSplits(queue, idle, room, minIdle, |jobs|);
    UncoveredSplit(queue[..Min(idle, |queue|)], launched, Ids(launched));
    UncoveredShrinks(queue[..Min(idle, |queue|)], Ids(launched));
  }
}
