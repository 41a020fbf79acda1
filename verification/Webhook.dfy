/** The queue that webhooks feed: deliveries write it (internal/web/webhook.go, internal/store/store.go), reconcile
    passes read it and check it against the forge (webhookDemand in internal/controller/controller.go). */
module Webhooks {
  import opened Types
  import Decimals
  import Scaling

  /** One row per forge and job. */
  datatype Key = Key(forge: nat, job: string)

  datatype Hook = Hook(labels: seq<string>, repo: string, ref: string, queuedAt: int, receivedAt: int,
                       checkedAt: Option<int>)

  // ---- deliveries ----

  /** A workflow_job delivery: whether its body parses, what it says, when it came, and how its write went. */
  datatype Delivery = Delivery(forge: nat, parses: bool, action: string, id: int, labels: seq<string>,
                               repo: string, ref: string, queuedAt: int, at: int, reply: Reply)

  function KeyOf(d: Delivery): Key { Key(d.forge, Decimals.FormatInt(d.id)) }

  function HookOf(d: Delivery): Hook { Hook(d.labels, d.repo, d.ref, d.queuedAt, d.at, None) }

  /** The delivery says something about its job and its write took effect. */
  predicate Tells(d: Delivery) {
    d.parses && d.id != 0 && d.action in {"queued", "in_progress", "completed"} && d.reply.Applied()
  }

  function Deliver(t: map<Key, Hook>, d: Delivery): map<Key, Hook> {
    if !Tells(d) then t
    else if d.action == "queued" then t[KeyOf(d) := HookOf(d)]
    else t - {KeyOf(d)}
  }

  /** Deliveries about different jobs, or from different forges, never touch each other's rows. */
  lemma JobsDoNotCollide(d: Delivery, e: Delivery)
    requires KeyOf(d) == KeyOf(e)
    ensures d.forge == e.forge && d.id == e.id
  {
    Decimals.FormatIntIsInjective(d.id, e.id);
  }

  // ---- a pass over the queue ----

  const CHECK_AFTER: int := 90 * SECOND
  const MAX_AGE: int := 2 * HOUR
  const CHECKS_PER_PASS: nat := 10

  datatype Entry = Entry(job: string, hook: Hook)

  /** The forge's answer about a job. */
  datatype Verdict = Waiting | NotWaiting | Unanswered

  /** What happens around one row: the forge's answer if asked, the delete, the write of the check's time. */
  datatype Answer = Answer(verdict: Verdict, drop: Reply, mark: Reply)

  predicate AgedOut(h: Hook, now: int) { now - h.receivedAt > MAX_AGE }

  predicate Due(h: Hook, now: int) {
    && !AgedOut(h, now)
    && now - h.receivedAt > CHECK_AFTER
    && (h.checkedAt.None? || now - h.checkedAt.value > CHECK_AFTER)
  }

  /** The jobs of the rows that are due, in order. */
  function DueJobs(rows: seq<Entry>, now: int): (due: seq<string>)
    ensures |due| <= |rows|
  {
    if rows == [] then []
    else
      var last := rows[|rows| - 1];
      DueJobs(rows[..|rows| - 1], now) + if Due(last.hook, now) then [last.job] else []
  }

  /** Row `k` is asked about: it is due, and fewer than ten due rows come before it. */
  predicate Examined(rows: seq<Entry>, k: nat, now: int, canCheck: bool)
    requires k < |rows|
  {
    canCheck && Due(rows[k].hook, now) && |DueJobs(rows[..k], now)| < CHECKS_PER_PASS
  }

  predicate Dropped(rows: seq<Entry>, answers: seq<Answer>, k: nat, now: int, canCheck: bool)
    requires k < |rows| && k < |answers|
  {
    AgedOut(rows[k].hook, now) || (Examined(rows, k, now, canCheck) && answers[k].verdict.NotWaiting?)
  }

  function JobOf(e: Entry): Scaling.Job { Scaling.Job(e.job, e.hook.labels) }

  /** The demand that is returned: in order, the rows that were not dropped. */
  function Returned(rows: seq<Entry>, answers: seq<Answer>, now: int, canCheck: bool): seq<Scaling.Job>
    requires |answers| == |rows|
  {
    if rows == [] then []
    else
      var k := |rows| - 1;
      Returned(rows[..k], answers[..k], now, canCheck) +
      if Dropped(rows, answers, k, now, canCheck) then [] else [JobOf(rows[k])]
  }

  /** What is left of row `k` in the table. */
  function Left(rows: seq<Entry>, answers: seq<Answer>, k: nat, now: int, canCheck: bool): Option<Hook>
    requires k < |rows| && k < |answers|
  {
    var h := rows[k].hook;
    if Dropped(rows, answers, k, now, canCheck) then
      if answers[k].drop.Applied() then None else Some(h)
    else if Examined(rows, k, now, canCheck) && answers[k].verdict.Waiting? && answers[k].mark.Applied() then
      Some(h.(checkedAt := Some(now)))
    else Some(h)
  }

  function Write(t: map<Key, Hook>, key: Key, h: Option<Hook>): map<Key, Hook> {
    if h.Some? then t[key := h.value] else t - {key}
  }

  /** The table after a pass over the rows of one forge. */
  function AfterPass(t: map<Key, Hook>, forge: nat, rows: seq<Entry>, answers: seq<Answer>, now: int,
                     canCheck: bool): map<Key, Hook>
    requires |answers| == |rows|
  {
    if rows == [] then t
    else
      var k := |rows| - 1;
      Write(AfterPass(t, forge, rows[..k], answers[..k], now, canCheck), Key(forge, rows[k].job),
            Left(rows, answers, k, now, canCheck))
  }

  /** The rows are those of the forge, once each, oldest first. */
  ghost predicate Listing(t: map<Key, Hook>, forge: nat, rows: seq<Entry>) {
    && DistinctRows(rows)
    && OldestFirst(rows)
    && (forall e :: e in rows ==> Key(forge, e.job) in t && t[Key(forge, e.job)] == e.hook)
    && (forall k :: k in t && k.forge == forge ==> Entry(k.job, t[k]) in rows)
  }

  predicate DistinctRows(rows: seq<Entry>) {
    forall i, j :: 0 <= i < j < |rows| ==> rows[i].job != rows[j].job
  }

  predicate OldestFirst(rows: seq<Entry>) {
    forall i, j :: 0 <= i < j < |rows| ==> rows[i].hook.receivedAt <= rows[j].hook.receivedAt
  }

  predicate Oldest(t: map<Key, Hook>, keys: set<Key>, k: Key)
    requires keys <= t.Keys
  {
    k in keys && forall j :: j in keys ==> t[k].receivedAt <= t[j].receivedAt
  }

  lemma {:induction false} OldestExists(t: map<Key, Hook>, keys: set<Key>)
    requires keys != {} && keys <= t.Keys
    ensures exists k :: Oldest(t, keys, k)
  {
    var k :| k in keys;
    var rest := keys - {k};
    if rest == {} {
      assert keys == {k};
      assert Oldest(t, keys, k);
    } else {
      OldestExists(t, rest);
      var m :| Oldest(t, rest, m);
      assert Oldest(t, keys, if t[k].receivedAt <= t[m].receivedAt then k else m);
    }
  }

  class HookTable {
    var jobs: map<Key, Hook>

    constructor ()
      ensures jobs == map[]
    {
      jobs := map[];
    }

    /** Stores or refreshes a job; a refreshed one counts as never checked. */
    method Record(k: Key, h: Hook, reply: Reply) returns (ok: bool)
      modifies this
      ensures ok <==> reply.Ok?
      ensures jobs == if reply.Applied() then old(jobs)[k := if k in old(jobs) then h.(checkedAt := None) else h]
                      else old(jobs)
    {
      var j := h;
      if k in jobs {
        j := j.(checkedAt := None);
      }
      if reply.Applied() {
        jobs := jobs[k := j];
      }
      return reply.Ok?;
    }

    /** Forgets a job; one that was never recorded is no error. */
    method Delete(k: Key, reply: Reply) returns (ok: bool)
      modifies this
      ensures ok <==> reply.Ok?
      ensures jobs == if reply.Applied() then old(jobs) - {k} else old(jobs)
    {
      if reply.Applied() {
        jobs := jobs - {k};
      }
      return reply.Ok?;
    }

    /** applyWorkflowJob: records a queued job and retires one that has moved on. The outcome is the label the delivery
        is counted under. */
    method ApplyWorkflowJob(d: Delivery) returns (outcome: string, ok: bool)
      modifies this
      ensures jobs == Deliver(old(jobs), d)
      ensures var told, k := d.parses && d.id != 0 && d.reply.Applied(), Key(d.forge, Decimals.FormatInt(d.id));
              jobs == if told && d.action == "queued"
                      then old(jobs)[k := Hook(d.labels, d.repo, d.ref, d.queuedAt, d.at, None)]
                      else if told && (d.action == "in_progress" || d.action == "completed") then old(jobs) - {k}
                      else old(jobs)
      ensures !d.parses || d.id == 0 ==> outcome == "bad_payload" && !ok
      ensures d.parses && d.id != 0 ==>
                if d.action in {"queued", "in_progress", "completed"}
                then ok == d.reply.Ok? && outcome == (if ok then d.action else "error")
                else ok && outcome == (if d.action == "waiting" then "waiting" else "ignored")
    {
      if !d.parses {
        return "bad_payload", false;
      }
      if d.id == 0 {
        return "bad_payload", false;
      }
      var k := Key(d.forge, Decimals.FormatInt(d.id));
      if d.action == "waiting" {
        return "waiting", true;
      } else if d.action == "queued" {
        ok := Record(k, Hook(d.labels, d.repo, d.ref, d.queuedAt, d.at, None), d.reply);
        return if ok then "queued" else "error", ok;
      } else if d.action == "in_progress" || d.action == "completed" {
        ok := Delete(k, d.reply);
        return if ok then d.action else "error", ok;
      } else {
        return "ignored", true;
      }
    }

    /** The rows of a forge in the order they were received; rows received at the same moment in any order. */
    method WebhookJobs(forge: nat) returns (rows: seq<Entry>)
      ensures Listing(jobs, forge, rows)
    {
      rows := [];
      var left := set k | k in jobs && k.forge == forge;
      while left != {}
        invariant left <= set k | k in jobs && k.forge == forge
        invariant DistinctRows(rows) && OldestFirst(rows)
        invariant forall e :: e in rows ==>
                    Key(forge, e.job) in jobs && Key(forge, e.job) !in left && jobs[Key(forge, e.job)] == e.hook
        invariant forall k :: k in jobs && k.forge == forge && k !in left ==> Entry(k.job, jobs[k]) in rows
        invariant forall e, k :: e in rows && k in left ==> e.hook.receivedAt <= jobs[k].receivedAt
        decreases left
      {
        OldestExists(jobs, left);
        var k :| Oldest(jobs, left, k);
        left := left - {k};
        rows := rows + [Entry(k.job, jobs[k])];
      }
    }

    /** One pass over a forge's announced jobs; at most ten are checked. */
    method WebhookDemand(forge: nat, now: int, canCheck: bool)
      returns (out: seq<Scaling.Job>, checks: nat, ghost rows: seq<Entry>, ghost answers: seq<Answer>)
      modifies this
      ensures Listing(old(jobs), forge, rows) && |answers| == |rows|
      ensures out == Returned(rows, answers, now, canCheck)
      ensures jobs == AfterPass(old(jobs), forge, rows, answers, now, canCheck)
      ensures checks == if canCheck then Min(CHECKS_PER_PASS, |DueJobs(rows, now)|) else 0
    {
      ghost var before := jobs;
      var listed := WebhookJobs(forge);
      rows, answers, out, checks := listed, [], [], 0;
      for i := 0 to |listed|
        invariant Progress(before, forge, rows, answers, i, now, canCheck, out, checks)
      {
        out, checks, answers := NextRow(forge, listed, i, now, canCheck, out, checks, before, answers);
      }
      assert rows[..|rows|] == rows;
    }

    /** The pass has dealt with the first `i` rows; the others are as they were listed. */
    ghost predicate Progress(before: map<Key, Hook>, forge: nat, rows: seq<Entry>, answers: seq<Answer>, i: nat,
                             now: int, canCheck: bool, out: seq<Scaling.Job>, checks: nat)
      reads this
    {
      && |answers| == i <= |rows| && DistinctRows(rows)
      && out == Returned(rows[..i], answers, now, canCheck)
      && jobs == AfterPass(before, forge, rows[..i], answers, now, canCheck)
      && checks == (if canCheck then Min(CHECKS_PER_PASS, |DueJobs(rows[..i], now)|) else 0)
      && (forall k :: i <= k < |rows| ==>
            Key(forge, rows[k].job) in jobs && jobs[Key(forge, rows[k].job)] == rows[k].hook)
    }

    method NextRow(forge: nat, rows: seq<Entry>, i: nat, now: int, canCheck: bool, out: seq<Scaling.Job>, checks: nat,
                   ghost before: map<Key, Hook>, ghost answers: seq<Answer>)
      returns (out': seq<Scaling.Job>, checks': nat, ghost answers': seq<Answer>)
      requires Progress(before, forge, rows, answers, i, now, canCheck, out, checks) && i < |rows|
      modifies this
      ensures Progress(before, forge, rows, answers', i + 1, now, canCheck, out', checks')
    {
      var answer: Answer := *;
      var keep: bool;
      keep, checks' := VisitRow(forge, rows, i, now, canCheck, checks, answer);
      out' := if keep then out + [JobOf(rows[i])] else out;
      answers' := answers + [answer];
      OneRowMore(before, forge, rows, answers, answer, i, now, canCheck);
    }

    method VisitRow(forge: nat, rows: seq<Entry>, i: nat, now: int, canCheck: bool, checks: nat, a: Answer)
      returns (keep: bool, checks': nat)
      requires i < |rows| && Key(forge, rows[i].job) in jobs && jobs[Key(forge, rows[i].job)] == rows[i].hook
      requires checks == if canCheck then Min(CHECKS_PER_PASS, |DueJobs(rows[..i], now)|) else 0
      modifies this
      ensures var answers := seq(i + 1, _ => a);
              && keep == !Dropped(rows, answers, i, now, canCheck)
              && jobs == Write(old(jobs), Key(forge, rows[i].job), Left(rows, answers, i, now, canCheck))
      ensures checks' == if Examined(rows, i, now, canCheck) then checks + 1 else checks
    {
      var row, k := rows[i].hook, Key(forge, rows[i].job);
      var age := now - row.receivedAt;
      checks' := checks;
      assert jobs == jobs[k := row];
      if age > MAX_AGE {
        var _ := Delete(k, a.drop);
        return false, checks';
      } else if canCheck && checks < CHECKS_PER_PASS && age > CHECK_AFTER &&
                (row.checkedAt == None || now - row.checkedAt.value > CHECK_AFTER) {
        checks' := checks' + 1;
        match a.verdict {
          case Unanswered =>
          case NotWaiting =>
            var _ := Delete(k, a.drop);
            return false, checks';
          case Waiting =>
            if a.mark.Applied() {
              jobs := jobs[k := jobs[k].(checkedAt := Some(now))];
            }
        }
      }
      return true, checks';
    }
  }

  /** What becomes of a row depends on the rows before it only. */
  lemma OneRowMore(t: map<Key, Hook>, forge: nat, rows: seq<Entry>, answers: seq<Answer>, a: Answer, i: nat, now: int,
                   canCheck: bool)
    requires i < |rows| && |answers| == i
    ensures var answers', alike := answers + [a], seq(i + 1, _ => a);
            && Returned(rows[..i + 1], answers', now, canCheck) ==
               Returned(rows[..i], answers, now, canCheck)
               + (if Dropped(rows, alike, i, now, canCheck) then [] else [JobOf(rows[i])])
            && AfterPass(t, forge, rows[..i + 1], answers', now, canCheck) ==
               Write(AfterPass(t, forge, rows[..i], answers, now, canCheck), Key(forge, rows[i].job),
                     Left(rows, alike, i, now, canCheck))
            && DueJobs(rows[..i + 1], now) == DueJobs(rows[..i], now)
               + (if Due(rows[i].hook, now) then [rows[i].job] else [])
  {
    assert rows[..i + 1][..i] == rows[..i] && (answers + [a])[..i] == answers;
  }

  // ---- what a pass achieves ----

  predicate Distinct(jobs: seq<string>) {
    forall i, j :: 0 <= i < j < |jobs| ==> jobs[i] != jobs[j]
  }

  lemma {:induction false} DueAreDistinct(rows: seq<Entry>, now: int)
    requires DistinctRows(rows)
    ensures Distinct(DueJobs(rows, now))
    ensures forall d :: d in DueJobs(rows, now) <==> exists e :: e in rows && e.job == d && Due(e.hook, now)
  {
    if rows != [] {
      var before, last := rows[..|rows| - 1], rows[|rows| - 1];
      DueAreDistinct(before, now);
      LastIsAnotherJob(rows);
      OneMoreDue(before, last, now);
      assert rows == before + [last];
    }
  }

  lemma LastIsAnotherJob(rows: seq<Entry>)
    requires DistinctRows(rows) && rows != []
    ensures forall e :: e in rows[..|rows| - 1] ==> e.job != rows[|rows| - 1].job
  {
  }

  lemma OneMoreDue(before: seq<Entry>, last: Entry, now: int)
    requires Distinct(DueJobs(before, now)) && forall e :: e in before ==> e.job != last.job
    requires forall d :: d in DueJobs(before, now) <==> exists e :: e in before && e.job == d && Due(e.hook, now)
    ensures Distinct(DueJobs(before + [last], now))
    ensures forall d :: d in DueJobs(before + [last], now) <==>
              exists e :: e in before + [last] && e.job == d && Due(e.hook, now)
  {
    assert (before + [last])[..|before|] == before;
    assert last.job !in DueJobs(before, now);
    assert forall e :: e in before + [last] <==> e in before || e == last;
  }

  /** The due jobs up to row `k` come first among all due jobs. */
  lemma {:induction false} DuePrefix(rows: seq<Entry>, k: nat, now: int)
    requires k <= |rows|
    ensures DueJobs(rows[..k], now) <= DueJobs(rows, now)
    ensures k < |rows| && Due(rows[k].hook, now) ==>
              && |DueJobs(rows[..k], now)| < |DueJobs(rows, now)|
              && DueJobs(rows, now)[|DueJobs(rows[..k], now)|] == rows[k].job
    decreases |rows|
  {
    if k == |rows| {
      assert rows[..k] == rows;
    } else {
      var before := rows[..|rows| - 1];
      DuePrefix(before, k, now);
      assert before[..k] == rows[..k];
    }
  }

  /** What a pass does with one row, in seconds: after two hours it is dropped unasked; after one and a half minutes,
      and that long after the last answer, the forge is asked, if it can be and has been asked fewer than ten times; and
      the row goes only if the answer is that the job no longer waits, stays as it is without an answer, and otherwise
      notes the time. */
  lemma RowOutcome(rows: seq<Entry>, answers: seq<Answer>, k: nat, now: int, canCheck: bool)
    requires k < |rows| == |answers|
    ensures var h, a := rows[k].hook, answers[k];
            var age := now - h.receivedAt;
            var expired := age > 7_200_000_000_000;
            var due := !expired && age > 90_000_000_000
                       && (h.checkedAt.None? || now - h.checkedAt.value > 90_000_000_000);
            var asked := canCheck && due && |DueJobs(rows[..k], now)| < 10;
            && (Due(h, now) <==> due) && (Examined(rows, k, now, canCheck) <==> asked)
            && (Dropped(rows, answers, k, now, canCheck) <==> expired || (asked && a.verdict == NotWaiting))
            && Left(rows, answers, k, now, canCheck) ==
               if expired || (asked && a.verdict == NotWaiting) then if a.drop.Applied() then None else Some(h)
               else if asked && a.verdict == Waiting && a.mark.Applied()
               then Some(Hook(h.labels, h.repo, h.ref, h.queuedAt, h.receivedAt, Some(now)))
               else Some(h)
  {
  }

  /** Exactly the first ten due jobs are asked about in a pass. */
  lemma TheFirstTenAreExamined(rows: seq<Entry>, k: nat, now: int)
    requires DistinctRows(rows) && k < |rows|
    ensures var due := DueJobs(rows, now);
            && (rows[k].job in due <==> Due(rows[k].hook, now))
            && (rows[k].job in due[..Min(10, |due|)] <==> Examined(rows, k, now, true))
            && (rows[k].job in due[Min(10, |due|)..] <==>
                  Due(rows[k].hook, now) && !Examined(rows, k, now, true))
  {
    var due := DueJobs(rows, now);
    DueAreDistinct(rows, now);
    DuePrefix(rows, k, now);
    assert rows[k] in rows;
    forall e | e in rows && e.job == rows[k].job ensures e == rows[k] {
      var j :| 0 <= j < |rows| && rows[j] == e;
    }
    if Due(rows[k].hook, now) { PlaceInDue(due, |DueJobs(rows[..k], now)|, Min(CHECKS_PER_PASS, |due|)); }
  }

  /** In a list without repetitions, an element is among the first `n` exactly when its place is. */
  lemma PlaceInDue(due: seq<string>, i: nat, n: nat)
    requires Distinct(due) && i < |due| && n <= |due|
    ensures due[i] in due
    ensures due[i] in due[..n] <==> i < n
    ensures due[i] in due[n..] <==> i >= n
  {
  }

  /** The positions of the rows that were not dropped. */
  function Kept(rows: seq<Entry>, answers: seq<Answer>, now: int, canCheck: bool): seq<nat>
    requires |answers| == |rows|
  {
    if rows == [] then []
    else
      var k := |rows| - 1;
      Kept(rows[..k], answers[..k], now, canCheck) + if Dropped(rows, answers, k, now, canCheck) then [] else [k]
  }

  /** Whether a row is dropped depends on the rows before it only. */
  lemma DroppedBefore(rows: seq<Entry>, answers: seq<Answer>, now: int, canCheck: bool)
    requires |answers| == |rows| && rows != []
    ensures var n := |rows| - 1;
            forall k :: 0 <= k < n ==>
              Dropped(rows[..n], answers[..n], k, now, canCheck) == Dropped(rows, answers, k, now, canCheck)
  {
    var n := |rows| - 1;
    forall k | 0 <= k < n
      ensures Dropped(rows[..n], answers[..n], k, now, canCheck) == Dropped(rows, answers, k, now, canCheck)
    {
      assert rows[..n][..k] == rows[..k];
    }
  }

  predicate Increasing(at: seq<nat>) {
    forall i, j :: 0 <= i < j < |at| ==> at[i] < at[j]
  }

  lemma {:induction false} KeptIncrease(rows: seq<Entry>, answers: seq<Answer>, now: int, canCheck: bool)
    requires |answers| == |rows|
    ensures var at := Kept(rows, answers, now, canCheck);
            Increasing(at) && forall i :: 0 <= i < |at| ==> at[i] < |rows|
  {
    if rows != [] { KeptIncrease(rows[..|rows| - 1], answers[..|rows| - 1], now, canCheck); }
  }

  lemma {:induction false} KeptAreNotDropped(
    rows: seq<Entry>, answers: seq<Answer>, now: int, canCheck: bool, k: nat)
    requires |answers| == |rows| && k < |rows|
    ensures k in Kept(rows, answers, now, canCheck) <==> !Dropped(rows, answers, k, now, canCheck)
  {
    var n := |rows| - 1;
    KeptIncrease(rows[..n], answers[..n], now, canCheck);
    if k < n {
      KeptAreNotDropped(rows[..n], answers[..n], now, canCheck, k);
      DroppedBefore(rows, answers, now, canCheck);
    }
  }

  /** Exactly the rows not dropped, each once, in order. */
  lemma KeptInOrder(rows: seq<Entry>, answers: seq<Answer>, now: int, canCheck: bool)
    requires |answers| == |rows|
    ensures var at := Kept(rows, answers, now, canCheck);
            && Increasing(at)
            && (forall k :: k in at ==> k < |rows| && !Dropped(rows, answers, k, now, canCheck))
            && (forall k :: 0 <= k < |rows| && !Dropped(rows, answers, k, now, canCheck) ==> k in at)
  {
    KeptIncrease(rows, answers, now, canCheck);
    forall k | 0 <= k < |rows|
      ensures k in Kept(rows, answers, now, canCheck) <==> !Dropped(rows, answers, k, now, canCheck)
    {
      KeptAreNotDropped(rows, answers, now, canCheck, k);
    }
  }

  /** The demand of a pass is one job for each row that neither aged out nor was reported gone, in the order of the
      rows. */
  lemma {:induction false} ReturnedAreTheKept(rows: seq<Entry>, answers: seq<Answer>, now: int, canCheck: bool)
    requires |answers| == |rows|
    ensures var out, at := Returned(rows, answers, now, canCheck), Kept(rows, answers, now, canCheck);
            && Increasing(at)
            && (forall k :: k in at ==> k < |rows| && !Dropped(rows, answers, k, now, canCheck))
            && (forall k :: 0 <= k < |rows| && !Dropped(rows, answers, k, now, canCheck) ==> k in at)
            && |out| == |at|
            && (forall i :: 0 <= i < |at| ==>
                  at[i] in at && out[i] == Scaling.Job(rows[at[i]].job, rows[at[i]].hook.labels))
  {
    KeptInOrder(rows, answers, now, canCheck);
    if rows != [] {
      var n := |rows| - 1;
      ReturnedAreTheKept(rows[..n], answers[..n], now, canCheck);
      DroppedBefore(rows, answers, now, canCheck);
    }
  }

  lemma ReturnedAreDistinct(rows: seq<Entry>, answers: seq<Answer>, now: int, canCheck: bool)
    requires |answers| == |rows| && DistinctRows(rows)
    ensures Scaling.DistinctJobs(Returned(rows, answers, now, canCheck))
  {
    ReturnedAreTheKept(rows, answers, now, canCheck);
  }

  lemma AtWrite(t: map<Key, Hook>, key: Key, h: Option<Hook>, other: Key)
    ensures At(Write(t, key, h), other) == if other == key then h else At(t, other)
  {
  }

  predicate IsRow(rows: seq<Entry>, forge: nat, key: Key) {
    exists k :: 0 <= k < |rows| && key == Key(forge, rows[k].job)
  }

  /** Row by row, what a pass leaves in the table; rows it did not list stay. */
  lemma {:induction false} AfterPassByRow(t: map<Key, Hook>, forge: nat, rows: seq<Entry>, answers: seq<Answer>,
                                          now: int, canCheck: bool, key: Key)
    requires |answers| == |rows| && DistinctRows(rows)
    ensures var t' := AfterPass(t, forge, rows, answers, now, canCheck);
            && (forall k :: 0 <= k < |rows| && key == Key(forge, rows[k].job) ==>
                  At(t', key) == Left(rows, answers, k, now, canCheck))
            && (!IsRow(rows, forge, key) ==> At(t', key) == At(t, key))
  {
    if rows != [] {
      var n := |rows| - 1;
      AfterPassByRow(t, forge, rows[..n], answers[..n], now, canCheck, key);
      AtWrite(AfterPass(t, forge, rows[..n], answers[..n], now, canCheck), Key(forge, rows[n].job),
              Left(rows, answers, n, now, canCheck), key);
      forall k | 0 <= k < n && key == Key(forge, rows[k].job)
        ensures Left(rows[..n], answers[..n], k, now, canCheck) == Left(rows, answers, k, now, canCheck)
      {
        assert rows[..n][..k] == rows[..k];
      }
      assert IsRow(rows[..n], forge, key) ==> IsRow(rows, forge, key);
    }
  }

  function At(t: map<Key, Hook>, key: Key): Option<Hook> {
    if key in t then Some(t[key]) else None
  }

  // ---- the whole history of the table ----

  /** What writes the table: a delivery, or a pass over the rows of one forge. */
  datatype Event =
    | Delivered(d: Delivery)
    | Passed(forge: nat, rows: seq<Entry>, answers: seq<Answer>, now: int, canCheck: bool)

  function Happen(t: map<Key, Hook>, e: Event): map<Key, Hook> {
    match e
    case Delivered(d) => Deliver(t, d)
    case Passed(forge, rows, answers, now, canCheck) =>
      if |answers| == |rows| then AfterPass(t, forge, rows, answers, now, canCheck) else t
  }

  /** The table after a history of events. */
  function TableAfter(es: seq<Event>): map<Key, Hook> {
    if es == [] then map[] else Happen(TableAfter(es[..|es| - 1]), es[|es| - 1])
  }

  /** A pass goes over what the table holds when it starts. */
  ghost predicate MayHappen(t: map<Key, Hook>, e: Event) {
    e.Passed? ==> |e.answers| == |e.rows| && Listing(t, e.forge, e.rows)
  }

  ghost predicate IsHistory(es: seq<Event>) {
    forall i :: 0 <= i < |es| ==> MayHappen(TableAfter(es[..i]), es[i])
  }

  /** A delivery, written to effect, says that the job is queued. */
  predicate Queues(e: Event, k: Key) {
    && e.Delivered? && e.d.parses && e.d.id != 0 && e.d.reply.Applied() && e.d.action == "queued"
    && k == Key(e.d.forge, Decimals.FormatInt(e.d.id))
  }

  /** A delivery says that the job has moved on, or a pass drops its row and the delete takes effect. */
  predicate Retires(e: Event, k: Key) {
    match e
    case Delivered(d) =>
      && d.parses && d.id != 0 && d.reply.Applied() && (d.action == "in_progress" || d.action == "completed")
      && k == Key(d.forge, Decimals.FormatInt(d.id))
    case Passed(forge, rows, answers, now, canCheck) =>
      && |answers| == |rows| && forge == k.forge
      && exists r :: 0 <= r < |rows| && rows[r].job == k.job && Dropped(rows, answers, r, now, canCheck)
                     && answers[r].drop.Applied()
  }

  /** Event `i` queues the job, and nothing after it queues it again or retires it. */
  predicate LastQueued(es: seq<Event>, k: Key, i: int) {
    && 0 <= i < |es| && Queues(es[i], k)
    && forall j :: i < j < |es| ==> !Queues(es[j], k) && !Retires(es[j], k)
  }

  predicate SameJob(h: Hook, h': Hook) { h'.(checkedAt := None) == h.(checkedAt := None) }

  /** The row says what the delivery said. */
  predicate SaysAs(h: Hook, d: Delivery) {
    h.labels == d.labels && h.repo == d.repo && h.ref == d.ref && h.queuedAt == d.queuedAt && h.receivedAt == d.at
  }

  lemma PassKeepsOrRetires(
    t: map<Key, Hook>, forge: nat, rows: seq<Entry>, answers: seq<Answer>, now: int, canCheck: bool, k: Key)
    requires |answers| == |rows| && Listing(t, forge, rows)
    ensures var before, after := At(t, k), At(AfterPass(t, forge, rows, answers, now, canCheck), k);
            if Retires(Passed(forge, rows, answers, now, canCheck), k) then after.None?
            else after.Some? == before.Some? && (after.Some? ==> SameJob(before.value, after.value))
  {
    var t' := AfterPass(t, forge, rows, answers, now, canCheck);
    AfterPassByRow(t, forge, rows, answers, now, canCheck, k);
    if r :| 0 <= r < |rows| && k == Key(forge, rows[r].job) {
      assert rows[r] in rows && At(t, k) == Some(rows[r].hook);
      assert At(t', k) == Left(rows, answers, r, now, canCheck);
      assert forall q :: 0 <= q < |rows| && rows[q].job == k.job ==> q == r;
    }
  }

  /** What one event does to the row of job `k`. */
  lemma EventAt(t: map<Key, Hook>, e: Event, k: Key)
    requires MayHappen(t, e)
    ensures var before, after := At(t, k), At(Happen(t, e), k);
            if Queues(e, k) then after == Some(HookOf(e.d))
            else if Retires(e, k) then after.None?
            else after.Some? == before.Some? && (after.Some? ==> SameJob(before.value, after.value))
  {
    if e.Passed? { PassKeepsOrRetires(t, e.forge, e.rows, e.answers, e.now, e.canCheck, k); }
  }

  lemma LastQueuedOneMore(before: seq<Event>, last: Event, k: Key, i: int)
    ensures LastQueued(before + [last], k, i) <==>
              if i == |before| then Queues(last, k)
              else LastQueued(before, k, i) && !Queues(last, k) && !Retires(last, k)
  {
    var es := before + [last];
    assert es[|before|] == last && forall j :: 0 <= j < |before| ==> es[j] == before[j];
  }

  lemma HistoryBefore(es: seq<Event>)
    requires IsHistory(es) && es != []
    ensures IsHistory(es[..|es| - 1]) && MayHappen(TableAfter(es[..|es| - 1]), es[|es| - 1])
  {
    var before := es[..|es| - 1];
    forall i | 0 <= i < |before| ensures MayHappen(TableAfter(before[..i]), before[i]) {
      assert before[..i] == es[..i];
    }
  }

  lemma LastQueuedBefore(es: seq<Event>, k: Key)
    requires es != []
    ensures var before, last := es[..|es| - 1], es[|es| - 1];
            forall i :: LastQueued(es, k, i) <==>
                          if i == |before| then Queues(last, k)
                          else LastQueued(before, k, i) && !Queues(last, k) && !Retires(last, k)
  {
    var before, last := es[..|es| - 1], es[|es| - 1];
    assert es == before + [last];
    forall i ensures LastQueued(es, k, i) <==>
                       if i == |before| then Queues(last, k)
                       else LastQueued(before, k, i) && !Queues(last, k) && !Retires(last, k)
    {
      LastQueuedOneMore(before, last, k, i);
    }
  }

  /** `h` is what the deliveries and passes of `es` leave of job `k`. */
  ghost predicate Told(es: seq<Event>, k: Key, h: Option<Hook>) {
    && (h.Some? <==> exists i :: LastQueued(es, k, i))
    && (forall i :: LastQueued(es, k, i) ==> h.Some? && SaysAs(h.value, es[i].d))
  }

  lemma ToldOneMore(es: seq<Event>, k: Key, h: Option<Hook>, h': Option<Hook>)
    requires es != [] && Told(es[..|es| - 1], k, h)
    requires var e := es[|es| - 1];
             if Queues(e, k) then h' == Some(HookOf(e.d))
             else if Retires(e, k) then h'.None?
             else h'.Some? == h.Some? && (h'.Some? ==> SameJob(h.value, h'.value))
    ensures Told(es, k, h')
  {
    var n := |es| - 1;
    LastQueuedBefore(es, k);
    assert forall i :: LastQueued(es[..n], k, i) ==> es[i] == es[..n][i];
    if Queues(es[n], k) {
      assert LastQueued(es, k, n);
    } else if h.Some? {
      var i :| LastQueued(es[..n], k, i);
      assert !Retires(es[n], k) ==> LastQueued(es, k, i);
    }
  }

  /** Over any history of deliveries and passes: a job is in the table exactly when it was queued and since then neither
      reported as moved on nor dropped by a pass; and its row is the last queued delivery's, apart from the time of the
      last check. */
  lemma {:induction false} TableIsLastQueued(es: seq<Event>, k: Key)
    requires IsHistory(es)
    ensures k in TableAfter(es) <==> exists i :: LastQueued(es, k, i)
    ensures forall i :: LastQueued(es, k, i) ==>
              k in TableAfter(es) && SaysAs(TableAfter(es)[k], es[i].d)
  {
    if es != [] {
      var before := es[..|es| - 1];
      HistoryBefore(es);
      TableIsLastQueued(before, k);
      EventAt(TableAfter(before), es[|es| - 1], k);
      ToldOneMore(es, k, At(TableAfter(before), k), At(TableAfter(es), k));
    }
  }

  /** Every job in the table was announced by some delivery. */
  lemma AnnouncedJobsAreNamed(es: seq<Event>, k: Key)
    requires IsHistory(es) && k in TableAfter(es)
    ensures k.job != ""
  {
    TableIsLastQueued(es, k);
    var i :| LastQueued(es, k, i);
    var id := es[i].d.id;
    Decimals.FormatIsDigits(if id < 0 then -id else id);
  }

  /** What webhooks contribute to a scaling decision, at any time, are distinct jobs with an id, as planScale needs
      them. */
  lemma AnnouncedDemandIsWellFormed(
    es: seq<Event>, forge: nat, rows: seq<Entry>, answers: seq<Answer>, now: int, canCheck: bool)
    requires IsHistory(es) && MayHappen(TableAfter(es), Passed(forge, rows, answers, now, canCheck))
    ensures var out := Returned(rows, answers, now, canCheck); Scaling.DistinctJobs(out) && Scaling.NamedJobs(out)
  {
    var out, at := Returned(rows, answers, now, canCheck), Kept(rows, answers, now, canCheck);
    ReturnedAreTheKept(rows, answers, now, canCheck);
    ReturnedAreDistinct(rows, answers, now, canCheck);
    forall i | 0 <= i < |out| ensures out[i].id != "" {
      assert at[i] in at && rows[at[i]] in rows;
      AnnouncedJobsAreNamed(es, Key(forge, rows[at[i]].job));
    }
  }

  // ---- how many passes it takes ----

  function DueKeys(t: map<Key, Hook>, forge: nat, now: int): set<Key> {
    set k | k in t && k.forge == forge && Due(t[k], now)
  }

  /** A pass in which every call works. */
  ghost predicate WorkingPass(t: map<Key, Hook>, t': map<Key, Hook>, forge: nat, rows: seq<Entry>,
                              answers: seq<Answer>, now: int)
  {
    && |answers| == |rows| && Listing(t, forge, rows)
    && (forall a :: a in answers ==> a.drop.Ok? && a.mark.Ok? && !a.verdict.Unanswered?)
    && t' == AfterPass(t, forge, rows, answers, now, true)
  }

  function Keys(forge: nat, jobs: seq<string>): set<Key> {
    set j | j in jobs :: Key(forge, j)
  }

  lemma {:induction false} KeysCount(forge: nat, jobs: seq<string>)
    requires Distinct(jobs)
    ensures |Keys(forge, jobs)| == |jobs|
  {
    if jobs != [] {
      var before, last := jobs[..|jobs| - 1], jobs[|jobs| - 1];
      KeysCount(forge, before);
      assert jobs == before + [last];
      assert Keys(forge, jobs) == Keys(forge, before) + {Key(forge, last)};
      assert Key(forge, last) !in Keys(forge, before);
    }
  }

  lemma DueKeysAreDueJobs(t: map<Key, Hook>, forge: nat, rows: seq<Entry>, now: int)
    requires Listing(t, forge, rows)
    ensures DueKeys(t, forge, now) == Keys(forge, DueJobs(rows, now))
            && |DueKeys(t, forge, now)| == |DueJobs(rows, now)|
  {
    DueAreDistinct(rows, now);
    KeysCount(forge, DueJobs(rows, now));
    forall key | key in DueKeys(t, forge, now) ensures key in Keys(forge, DueJobs(rows, now)) {
      assert Entry(key.job, t[key]) in rows;
    }
    forall key | key in Keys(forge, DueJobs(rows, now)) ensures key in DueKeys(t, forge, now) {
      var e :| e in rows && e.job == key.job && Due(e.hook, now);
    }
  }

  /** A pass in which every call works settles exactly ten due rows, or all of them if there are fewer. */
  lemma WorkingPassSettlesTen(t: map<Key, Hook>, t': map<Key, Hook>, forge: nat, rows: seq<Entry>,
                              answers: seq<Answer>, now: int)
    requires WorkingPass(t, t', forge, rows, answers, now)
    ensures |DueKeys(t', forge, now)| == Max(|DueKeys(t, forge, now)| - CHECKS_PER_PASS, 0)
  {
    var due := DueJobs(rows, now);
    var later := due[Min(CHECKS_PER_PASS, |due|)..];
    DueAreDistinct(rows, now);
    DueKeysAreDueJobs(t, forge, rows, now);
    StillDue(t, t', forge, rows, answers, now);
    KeysCount(forge, later);
  }

  lemma StillDue(t: map<Key, Hook>, t': map<Key, Hook>, forge: nat, rows: seq<Entry>, answers: seq<Answer>, now: int)
    requires WorkingPass(t, t', forge, rows, answers, now)
    ensures var due := DueJobs(rows, now); DueKeys(t', forge, now) == Keys(forge, due[Min(CHECKS_PER_PASS, |due|)..])
  {
    var due := DueJobs(rows, now);
    var later := due[Min(CHECKS_PER_PASS, |due|)..];
    forall key ensures key in DueKeys(t', forge, now) <==> key in Keys(forge, later) {
      if k :| 0 <= k < |rows| && key == Key(forge, rows[k].job) {
        RowStillDue(t, t', forge, rows, answers, now, k);
      } else {
        OthersAreNotDue(t, t', forge, rows, answers, now, key);
      }
    }
  }

  lemma RowStillDue(t: map<Key, Hook>, t': map<Key, Hook>, forge: nat, rows: seq<Entry>, answers: seq<Answer>,
                    now: int, k: nat)
    requires WorkingPass(t, t', forge, rows, answers, now) && k < |rows|
    ensures var due := DueJobs(rows, now);
            Key(forge, rows[k].job) in DueKeys(t', forge, now) <==> rows[k].job in due[Min(CHECKS_PER_PASS, |due|)..]
  {
    var key := Key(forge, rows[k].job);
    TheFirstTenAreExamined(rows, k, now);
    AfterPassByRow(t, forge, rows, answers, now, true, key);
    assert answers[k] in answers;
    assert At(t', key) == Left(rows, answers, k, now, true);
  }

  lemma OthersAreNotDue(t: map<Key, Hook>, t': map<Key, Hook>, forge: nat, rows: seq<Entry>, answers: seq<Answer>,
                        now: int, key: Key)
    requires WorkingPass(t, t', forge, rows, answers, now) && !IsRow(rows, forge, key)
    ensures key !in DueKeys(t', forge, now) && key !in Keys(forge, DueJobs(rows, now))
  {
    DueAreDistinct(rows, now);
    AfterPassByRow(t, forge, rows, answers, now, true, key);
    forall e | e in rows ensures key != Key(forge, e.job) {
      var k :| 0 <= k < |rows| && rows[k] == e;
    }
    assert At(t', key) == At(t, key);
    forall j | j in t && j.forge == forge ensures IsRow(rows, forge, j) {
      assert Entry(j.job, t[j]) in rows;
      var k :| 0 <= k < |rows| && rows[k] == Entry(j.job, t[j]);
    }
  }

  /** With the clock standing still and everything working, every due row has been settled after exactly as many passes
      as there are tens of them, rounded up. */
  lemma {:induction false} SettledAfterCeilingOfTens(ts: seq<map<Key, Hook>>, forge: nat, rows: seq<seq<Entry>>,
                                                     answers: seq<seq<Answer>>, now: int, n: nat)
    requires |ts| == |rows| + 1 == |answers| + 1 && n < |ts|
    requires forall i :: 0 <= i < |rows| ==> WorkingPass(ts[i], ts[i + 1], forge, rows[i], answers[i], now)
    ensures |DueKeys(ts[n], forge, now)| == Max(|DueKeys(ts[0], forge, now)| - CHECKS_PER_PASS * n, 0)
    ensures DueKeys(ts[n], forge, now) == {} <==>
              n >= (|DueKeys(ts[0], forge, now)| + CHECKS_PER_PASS - 1) / CHECKS_PER_PASS
  {
    if n > 0 {
      SettledAfterCeilingOfTens(ts, forge, rows, answers, now, n - 1);
      WorkingPassSettlesTen(ts[n - 1], ts[n], forge, rows[n - 1], answers[n - 1], now);
    }
    assert DueKeys(ts[n], forge, now) == {} <==> |DueKeys(ts[n], forge, now)| == 0;
  }

  /** The question about row `k`, if it was asked at all, brought nothing that lasts: no answer, or one whose write had
      no effect. */
  predicate Unsettled(rows: seq<Entry>, answers: seq<Answer>, k: nat, now: int, canCheck: bool)
    requires k < |rows| && k < |answers|
  {
    Examined(rows, k, now, canCheck) ==>
      match answers[k].verdict
      case Unanswered => true
      case NotWaiting => !answers[k].drop.Applied()
      case Waiting => !answers[k].mark.Applied()
  }

  /** Checks that fail use up the pass: every due row stays due, also those that were not among the ten asked about,
      exactly when each of the ten got no answer or one whose write had no effect. */
  lemma UnansweredChecksBlockTheRest(
    t: map<Key, Hook>, forge: nat, rows: seq<Entry>, answers: seq<Answer>, now: int, canCheck: bool)
    requires Listing(t, forge, rows) && |answers| == |rows|
    ensures DueKeys(AfterPass(t, forge, rows, answers, now, canCheck), forge, now) == DueKeys(t, forge, now) <==>
              forall k :: 0 <= k < |rows| ==> Unsettled(rows, answers, k, now, canCheck)
  {
    var t' := AfterPass(t, forge, rows, answers, now, canCheck);
    forall k | 0 <= k < |rows|
      ensures var key := Key(forge, rows[k].job);
              (key in DueKeys(t', forge, now)) <==>
              (key in DueKeys(t, forge, now) && Unsettled(rows, answers, k, now, canCheck))
      ensures !Unsettled(rows, answers, k, now, canCheck) ==> Key(forge, rows[k].job) in DueKeys(t, forge, now)
    {
      RowStaysDue(t, forge, rows, answers, now, canCheck, k);
    }
    forall key: Key | !IsRow(rows, forge, key)
      ensures key in DueKeys(t', forge, now) <==> key in DueKeys(t, forge, now)
    {
      AfterPassByRow(t, forge, rows, answers, now, canCheck, key);
      assert At(t', key) == At(t, key);
    }
  }

  lemma RowStaysDue(
    t: map<Key, Hook>, forge: nat, rows: seq<Entry>, answers: seq<Answer>, now: int, canCheck: bool, k: nat)
    requires Listing(t, forge, rows) && |answers| == |rows| && k < |rows|
    ensures var key, t' := Key(forge, rows[k].job), AfterPass(t, forge, rows, answers, now, canCheck);
            && (key in DueKeys(t', forge, now) <==>
                  key in DueKeys(t, forge, now) && Unsettled(rows, answers, k, now, canCheck))
            && (!Unsettled(rows, answers, k, now, canCheck) ==> key in DueKeys(t, forge, now))
  {
    var key, t' := Key(forge, rows[k].job), AfterPass(t, forge, rows, answers, now, canCheck);
    AfterPassByRow(t, forge, rows, answers, now, canCheck, key);
    assert rows[k] in rows && At(t, key) == Some(rows[k].hook);
    assert At(t', key) == Left(rows, answers, k, now, canCheck);
  }
}
