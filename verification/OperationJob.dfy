// OperationJobs: which targets a job works on (opscore/candidate.go), what it does to
// them (operationjob_manager.go) and how it sums them up (operationjob_controller.go).

module Targets {
  import opened Options
  import opened Pods

  datatype Progress = Blank | Pending | Processing | Failed | Succeeded

  // The recorded status of one target.
  datatype Ops = Ops(progress: Progress, start: Option<int>, end: Option<int>, released: bool)

  const NEW_OPS := Ops(Pending, None, None, false)

  // A target with its index in the spec.
  datatype Candidate = Candidate(idx: nat, name: Text, status: Ops)

  predicate IsPending(s: Ops) {
    s.progress == Blank || s.progress == Pending
  }

  predicate IsFinished(s: Ops) {
    s.progress == Failed || s.progress == Succeeded
  }

  function MarkFailed(s: Ops): Ops {
    if s.progress != Succeeded then s.(progress := Failed) else s
  }

  // What the cluster and the action handler say about a target.
  datatype Attempt = Begun | NotYet | Refused
  datatype Action = Running | ActionFailed | ActionSucceeded
  datatype View = View(found: bool, available: bool, during: bool, attempt: Attempt, action: Action, cleaned: bool)

  // filterAndOperateAllowOpsTargets, on one target.
  function Begin(lifecycle: bool, v: View, now: int, s: Ops): Ops {
    if IsFinished(s) then s
    else if lifecycle && !v.found then s.(progress := Failed)
    else if !IsPending(s) || (lifecycle && !v.during && v.attempt != Begun) then s
    else s.(progress := Processing, start := if s.start.None? then Some(now) else s.start)
  }

  // getTargetsOpsStatus, on one target.
  function Follow(lifecycle: bool, v: View, s: Ops): Ops {
    if IsFinished(s) || IsPending(s) || (lifecycle && !v.found) then s
    else if lifecycle && v.action != Running && !v.cleaned then s
    else match v.action
      case Running => s.(progress := Processing)
      case ActionFailed => s.(progress := Failed)
      case ActionSucceeded => if lifecycle && !v.available then s else s.(progress := Succeeded)
  }

  // ------------------------------------------------------------------ layouts

  predicate Distinct(names: seq<Text>) {
    forall i, j :: 0 <= i < j < |names| ==> names[i] != names[j]
  }

  // The candidates c are the targets in some order, target i with the status sheet[i].
  ghost predicate Lays(c: seq<Candidate>, targets: seq<Text>, sheet: seq<Ops>) {
    && |c| == |targets| == |sheet|
    && (forall k :: 0 <= k < |c| ==> c[k].idx < |sheet| && c[k].name == targets[c[k].idx] && c[k].status == sheet[c[k].idx])
    && forall j, k :: 0 <= j < k < |c| ==> c[j].idx != c[k].idx
  }

  function Range(n: nat): (r: set<nat>)
    ensures |r| == n && forall i :: i in r <==> 0 <= i < n
  {
    if n == 0 then {} else Range(n - 1) + {n - 1}
  }

  // The indices of the first k candidates.
  function Indices(c: seq<Candidate>, k: nat): set<nat>
    requires k <= |c|
  {
    set j | 0 <= j < k :: c[j].idx
  }

  lemma {:induction false} IndicesSize(c: seq<Candidate>, k: nat)
    requires k <= |c| && forall i, j :: 0 <= i < j < |c| ==> c[i].idx != c[j].idx
    ensures |Indices(c, k)| == k
  {
    if k > 0 {
      IndicesSize(c, k - 1);
      assert Indices(c, k) == Indices(c, k - 1) + {c[k - 1].idx};
    }
  }

  lemma AllIndices(c: seq<Candidate>, targets: seq<Text>, sheet: seq<Ops>)
    requires Lays(c, targets, sheet)
    ensures Indices(c, |c|) == Range(|c|)
  {
    IndicesSize(c, |c|);
    SameSizeSubset(Indices(c, |c|), Range(|c|));
  }

  // ---------------------------------------------------------------- selection

  // The order of the sort: started targets first, then by index.
  predicate Less(l: Candidate, r: Candidate) {
    if IsPending(l.status) != IsPending(r.status) then IsPending(r.status) else l.idx < r.idx
  }

  predicate Before(sheet: seq<Ops>, i: nat, j: nat)
    requires i < |sheet| && j < |sheet|
  {
    if IsPending(sheet[i]) != IsPending(sheet[j]) then IsPending(sheet[j]) else i < j
  }

  function Capped(partition: Option<nat>, n: nat): nat {
    if partition.None? || partition.value > n then n else partition.value
  }

  // The targets that the job works on: as many as the partition admits, the first in
  // the order of the sort.
  ghost predicate Chosen(sheet: seq<Ops>, partition: Option<nat>, chosen: set<nat>) {
    && chosen <= Range(|sheet|) && |chosen| == Capped(partition, |sheet|)
    && forall i, j :: i in chosen && 0 <= j < |sheet| && j !in chosen ==> Before(sheet, i, j)
  }

  method Swap(a: array<Candidate>, k: nat, ghost targets: seq<Text>, ghost sheet: seq<Ops>)
    requires 0 < k < a.Length && Lays(a[..], targets, sheet)
    modifies a
    ensures Lays(a[..], targets, sheet)
    ensures a[k] == old(a[k - 1]) && a[k - 1] == old(a[k])
    ensures forall j :: 0 <= j < a.Length && j != k && j != k - 1 ==> a[j] == old(a[j])
  {
    a[k], a[k - 1] := a[k - 1], a[k];
  }

  // The sort, in place.
  method Sort(a: array<Candidate>, ghost targets: seq<Text>, ghost sheet: seq<Ops>)
    requires Lays(a[..], targets, sheet)
    modifies a
    ensures Lays(a[..], targets, sheet)
    ensures forall i, j :: 0 <= i < j < a.Length ==> Less(a[i], a[j])
  {
    for n := 0 to a.Length
      invariant Lays(a[..], targets, sheet)
      invariant forall i, j :: 0 <= i < j < n ==> Less(a[i], a[j])
    {
      var k := n;
      while k > 0 && Less(a[k], a[k - 1])
        invariant 0 <= k <= n
        invariant Lays(a[..], targets, sheet)
        invariant forall i, j :: 0 <= i < j <= n && j != k && i != k ==> Less(a[i], a[j])
        invariant forall j :: k < j <= n ==> Less(a[k], a[j])
      {
        Swap(a, k, targets, sheet);
        k := k - 1;
      }
      assert k > 0 ==> a[k - 1].idx != a[k].idx;
    }
  }

  // DecideCandidateByPartition: the candidates to work on are the first k.
  method DecideByPartition(a: array<Candidate>, partition: Option<nat>, ghost targets: seq<Text>, ghost sheet: seq<Ops>)
    returns (k: nat)
    requires Lays(a[..], targets, sheet)
    modifies a
    ensures Lays(a[..], targets, sheet) && k <= a.Length
    ensures Chosen(sheet, partition, Indices(a[..], k))
  {
    k := a.Length;
    if partition.Some? {
      Sort(a, targets, sheet);
      if partition.value < a.Length {
        k := partition.value;
      }
    }
    IndicesSize(a[..], k);
    AllIndices(a[..], targets, sheet);
    forall i, j | i in Indices(a[..], k) && 0 <= j < |sheet| && j !in Indices(a[..], k) ensures Before(sheet, i, j) {
      assert j in Indices(a[..], a.Length);
    }
  }

  // --------------------------------------------------------- the plain prefix

  // Only targets below the partition have been started.
  predicate Held(sheet: seq<Ops>, p: nat) {
    forall i :: 0 <= i < |sheet| && (!IsPending(sheet[i]) || sheet[i].start.Some?) ==> i < p
  }

  // Then the sort selects the first targets of the spec.
  lemma SortSelectsPrefix(sheet: seq<Ops>, p: nat, chosen: set<nat>)
    requires Held(sheet, p) && Chosen(sheet, Some(p), chosen)
    ensures chosen == Range(Capped(Some(p), |sheet|))
  {
    var k := Capped(Some(p), |sheet|);
    if k == |sheet| {
      SameSizeSubset(chosen, Range(|sheet|));
    } else {
      forall i | i in chosen ensures i < k {
        if i >= k {
          Missing(Range(k), chosen, i);
        }
      }
      SameSizeSubset(chosen, Range(k));
    }
  }

  lemma Missing(a: set<nat>, b: set<nat>, i: nat)
    requires |a| == |b| && i in b && i !in a
    ensures exists j :: j in a && j !in b
  {
    if a <= b {
      SubsetSize(a, b - {i});
    }
  }
}

module Jobs {
  import opened Options
  import opened Pods
  import opened Targets

  datatype Status = Status(progress: Progress, start: Option<int>, end: Option<int>, details: map<Text, Ops>,
                           total: nat, failed: nat, succeeded: nat)

  const NEW_STATUS := Status(Blank, None, None, map[], 0, 0, 0)

  // What a reconcile meets: the time, the action, the targets, and which writes fail.
  datatype Env = Env(now: int, deadline: Option<int>, known: bool, lifecycle: bool, view: Text -> View,
                     releases: Text -> bool, firstWrite: bool, lastWrite: bool)

  function Listed(targets: seq<Text>, s: Status): seq<Ops> {
    seq(|targets|, i requires 0 <= i < |targets| => if targets[i] in s.details then s.details[targets[i]] else NEW_OPS)
  }

  // ------------------------------------------------------------ the deadline

  // A started target that still has time ends the walk over the targets.
  predicate HasTime(s: Ops, deadline: int, now: int) {
    s.start.Some? && now - s.start.value < deadline
  }

  function Expired(s: Ops): Ops {
    if s.start.Some? then MarkFailed(s) else s
  }

  function TimedOut(sheet: seq<Ops>, deadline: int, now: int): (r: seq<Ops>)
    ensures |r| == |sheet|
    ensures forall i :: 0 <= i < |r| ==> r[i] == sheet[i] || r[i] == Expired(sheet[i])
    decreases |sheet|
  {
    if sheet == [] || HasTime(sheet[0], deadline, now) then sheet
    else [Expired(sheet[0])] + TimedOut(sheet[1..], deadline, now)
  }

  lemma {:induction false} TimedOutStops(sheet: seq<Ops>, i: nat, deadline: int, now: int)
    requires i <= |sheet| && forall j :: 0 <= j < i ==> !HasTime(sheet[j], deadline, now)
    requires i < |sheet| ==> HasTime(sheet[i], deadline, now)
    ensures forall j :: 0 <= j < i ==> TimedOut(sheet, deadline, now)[j] == Expired(sheet[j])
    ensures forall j :: i <= j < |sheet| ==> TimedOut(sheet, deadline, now)[j] == sheet[j]
    decreases i
  {
    if i > 0 {
      TimedOutStops(sheet[1..], i - 1, deadline, now);
    }
  }

  // ensureActiveDeadlineAndTTL, without the TTL.
  method EnsureActiveDeadline(a: array<Candidate>, deadline: int, now: int, ghost targets: seq<Text>, ghost sheet: seq<Ops>)
    requires Lays(a[..], targets, sheet) && forall k :: 0 <= k < a.Length ==> a[k].idx == k
    modifies a
    ensures Lays(a[..], targets, TimedOut(sheet, deadline, now))
  {
    var i := 0;
    while i < a.Length && !HasTime(a[i].status, deadline, now)
      invariant 0 <= i <= a.Length
      invariant forall k :: 0 <= k < a.Length ==>
        a[k] == Candidate(k, targets[k], if k < i then Expired(sheet[k]) else sheet[k])
      invariant forall k :: 0 <= k < i ==> !HasTime(sheet[k], deadline, now)
    {
      if a[i].status.start.Some? {
        a[i] := a[i].(status := MarkFailed(a[i].status));
      }
      i := i + 1;
    }
    TimedOutStops(sheet, i, deadline, now);
  }

  // ------------------------------------------------------------- the release

  predicate ToRelease(s: Ops) {
    s.progress == Failed && !s.released
  }

  function Free(env: Env, name: Text, s: Ops): Ops {
    if ToRelease(s) && env.releases(name) then s.(released := true) else s
  }

  function Freed(targets: seq<Text>, sheet: seq<Ops>, env: Env): seq<Ops>
    requires |targets| == |sheet|
  {
    seq(|sheet|, i requires 0 <= i < |sheet| => Free(env, targets[i], sheet[i]))
  }

  // ---------------------------------------------------------------- the work

  function Worked(targets: seq<Text>, sheet: seq<Ops>, chosen: set<nat>, env: Env): (r: seq<Ops>)
    requires |targets| == |sheet|
  {
    seq(|sheet|, i requires 0 <= i < |sheet| =>
      if i in chosen then Follow(env.lifecycle, env.view(targets[i]), Begin(env.lifecycle, env.view(targets[i]), env.now, sheet[i]))
      else sheet[i])
  }

  // --------------------------------------------------------------- the summary

  function Ended(s: Ops, now: int): Ops {
    if s.end.None? && IsFinished(s) then s.(end := Some(now)) else s
  }

  function Having(sheet: seq<Ops>, p: Progress): set<nat> {
    set i | i in Range(|sheet|) && sheet[i].progress == p
  }

  function Details(targets: seq<Text>, sheet: seq<Ops>, now: int): map<Text, Ops>
    requires |targets| == |sheet| && Distinct(targets)
  {
    map i | 0 <= i < |targets| :: targets[i] := Ended(sheet[i], now)
  }

  lemma DetailsAt(targets: seq<Text>, sheet: seq<Ops>, now: int, i: nat)
    requires |targets| == |sheet| && Distinct(targets) && i < |targets|
    ensures targets[i] in Details(targets, sheet, now) && Details(targets, sheet, now)[targets[i]] == Ended(sheet[i], now)
  {
  }

  function Summed(was: Status, targets: seq<Text>, sheet: seq<Ops>, now: int): Status
    requires |targets| == |sheet| && Distinct(targets)
  {
    var total, succeeded, failed, pending := |sheet|, |Having(sheet, Succeeded)|, |Having(sheet, Failed)|, |Having(sheet, Pending)|;
    var details := Details(targets, sheet, now);
    if was.progress == Succeeded || was.progress == Failed then
      was.(details := details, total := total, failed := failed, succeeded := succeeded)
    else
      var done := succeeded + failed == total;
      Status(
        if done then (if failed > 0 then Failed else Succeeded) else if pending == total then Pending else Processing,
        if was.start.None? then Some(now) else was.start,
        if done && was.end.None? then Some(now) else was.end,
        details, total, failed, succeeded)
  }

  // ------------------------------------------------------------- a reconcile

  function Timed(targets: seq<Text>, s: Status, env: Env): seq<Ops> {
    if env.deadline.Some? then TimedOut(Listed(targets, s), env.deadline.value, env.now) else Listed(targets, s)
  }

  predicate Releasing(sheet: seq<Ops>) {
    exists i :: 0 <= i < |sheet| && ToRelease(sheet[i])
  }

  function Closed(sheet: seq<Ops>, now: int): seq<Ops> {
    seq(|sheet|, i requires 0 <= i < |sheet| => Ended(sheet[i], now))
  }

  // The targets once the failed ones have been released, as far as that works.
  function Released(targets: seq<Text>, s: Status, env: Env): seq<Ops> {
    if env.known then Freed(targets, Timed(targets, s, env), env) else Timed(targets, s, env)
  }

  // The targets that the reconcile goes on with.
  function Settled(targets: seq<Text>, s: Status, env: Env): seq<Ops> {
    if Releasing(Timed(targets, s, env)) then Closed(Released(targets, s, env), env.now) else Timed(targets, s, env)
  }

  // The status that goes with them; it is written if there was anything to release.
  function First(targets: seq<Text>, s: Status, env: Env): Status
    requires Distinct(targets)
  {
    if Releasing(Timed(targets, s, env)) then Summed(s, targets, Released(targets, s, env), env.now) else s
  }

  // The reconcile gets as far as working on targets.
  predicate GoesOn(targets: seq<Text>, s: Status, env: Env) {
    env.known && (Releasing(Timed(targets, s, env)) ==> env.firstWrite && !Releasing(Settled(targets, s, env)))
  }

  // What the reconcile leaves in the stored status when it works on the targets `chosen`.
  function After(targets: seq<Text>, s: Status, env: Env, chosen: set<nat>): Status
    requires Distinct(targets)
  {
    if GoesOn(targets, s, env) && env.lastWrite
    then Summed(First(targets, s, env), targets, Worked(targets, Settled(targets, s, env), chosen, env), env.now)
    else if env.firstWrite then First(targets, s, env)
    else s
  }

  ghost predicate Reconciles(targets: seq<Text>, partition: Option<nat>, s: Status, env: Env, t: Status)
    requires Distinct(targets)
  {
    if GoesOn(targets, s, env)
    then exists chosen :: Chosen(Settled(targets, s, env), partition, chosen) && t == After(targets, s, env, chosen)
    else t == After(targets, s, env, {})
  }

  // ------------------------------------------------------------------ latching

  // Finished targets keep their progress.
  ghost predicate Latched(was: seq<Ops>, now: seq<Ops>) {
    |was| == |now| && forall i :: 0 <= i < |was| && IsFinished(was[i]) ==> now[i].progress == was[i].progress
  }

  lemma SettlingLatches(targets: seq<Text>, s: Status, env: Env)
    ensures Latched(Listed(targets, s), Released(targets, s, env))
    ensures Latched(Listed(targets, s), Settled(targets, s, env))
  {
    assert Latched(Listed(targets, s), Timed(targets, s, env));
  }

  lemma WorkLatches(targets: seq<Text>, sheet: seq<Ops>, chosen: set<nat>, env: Env)
    requires |targets| == |sheet|
    ensures Latched(sheet, Worked(targets, sheet, chosen, env))
  {
  }

  lemma ListedAfter(was: Status, targets: seq<Text>, sheet: seq<Ops>, now: int)
    requires |targets| == |sheet| && Distinct(targets)
    ensures Listed(targets, Summed(was, targets, sheet, now)) == Closed(sheet, now)
  {
    forall i | 0 <= i < |targets| ensures Listed(targets, Summed(was, targets, sheet, now))[i] == Closed(sheet, now)[i] {
      DetailsAt(targets, sheet, now, i);
    }
  }

  // --------------------------------------------------------- the job's verdict

  predicate AllSucceeded(sheet: seq<Ops>) {
    forall i :: 0 <= i < |sheet| ==> sheet[i].progress == Succeeded
  }

  predicate FailedAtLast(sheet: seq<Ops>) {
    (forall i :: 0 <= i < |sheet| ==> IsFinished(sheet[i])) && exists i :: 0 <= i < |sheet| && sheet[i].progress == Failed
  }

  // A finished job says the truth about its targets.
  ghost predicate Truthful(targets: seq<Text>, s: Status) {
    && (s.progress == Succeeded ==> AllSucceeded(Listed(targets, s)))
    && (s.progress == Failed ==> FailedAtLast(Listed(targets, s)))
  }

  // A computed status says all of it, and its counts add up.
  ghost predicate Exact(targets: seq<Text>, s: Status) {
    var sheet := Listed(targets, s);
    && (s.progress == Succeeded <==> AllSucceeded(sheet))
    && (s.progress == Failed <==> FailedAtLast(sheet))
    && s.total == |targets| && s.succeeded == |Having(sheet, Succeeded)| && s.failed == |Having(sheet, Failed)|
    && s.succeeded + s.failed + |Having(sheet, Pending)| + |Having(sheet, Processing)| + |Having(sheet, Blank)| == s.total
  }

  lemma DisjointSizes(a: set<nat>, b: set<nat>)
    requires a !! b
    ensures |a + b| == |a| + |b|
  {
  }

  lemma CountsAddUp(sheet: seq<Ops>)
    ensures |Having(sheet, Succeeded)| + |Having(sheet, Failed)| + |Having(sheet, Pending)|
            + |Having(sheet, Processing)| + |Having(sheet, Blank)| == |sheet|
  {
    var s, f, p, r, b := Having(sheet, Succeeded), Having(sheet, Failed), Having(sheet, Pending),
                         Having(sheet, Processing), Having(sheet, Blank);
    DisjointSizes(s, f);
    DisjointSizes(s + f, p);
    DisjointSizes(s + f + p, r);
    DisjointSizes(s + f + p + r, b);
    Everyone(sheet);
  }

  lemma Everyone(sheet: seq<Ops>)
    ensures Having(sheet, Succeeded) + Having(sheet, Failed) + Having(sheet, Pending)
            + Having(sheet, Processing) + Having(sheet, Blank) == Range(|sheet|)
  {
    forall i | i in Range(|sheet|)
      ensures var p := sheet[i].progress; p == Succeeded || p == Failed || p == Pending || p == Processing || p == Blank
    {
      assert var p := sheet[i].progress; p.Succeeded? || p.Failed? || p.Pending? || p.Processing? || p.Blank?;
    }
  }

  lemma DoneIffAllFinished(sheet: seq<Ops>)
    ensures |Having(sheet, Succeeded)| + |Having(sheet, Failed)| == |sheet| <==> forall i :: 0 <= i < |sheet| ==> IsFinished(sheet[i])
  {
    var s, f := Having(sheet, Succeeded), Having(sheet, Failed);
    DisjointSizes(s, f);
    if |s| + |f| == |sheet| {
      SameSizeSubset(s + f, Range(|sheet|));
      forall i | 0 <= i < |sheet| ensures IsFinished(sheet[i]) {
        assert i in s + f;
      }
    }
    if forall i :: 0 <= i < |sheet| ==> IsFinished(sheet[i]) {
      forall i | i in Range(|sheet|) ensures i in s + f {
      }
      assert s + f == Range(|sheet|);
    }
  }

  lemma SomeFailedIffCounted(sheet: seq<Ops>)
    ensures |Having(sheet, Failed)| > 0 <==> exists i :: 0 <= i < |sheet| && sheet[i].progress == Failed
  {
    var f := Having(sheet, Failed);
    if exists i :: 0 <= i < |sheet| && sheet[i].progress == Failed {
      var i :| 0 <= i < |sheet| && sheet[i].progress == Failed;
      assert i in f;
    }
    if f != {} {
      var i :| i in f;
    }
  }

  lemma ClosingKeepsCounts(sheet: seq<Ops>, now: int)
    ensures forall p :: Having(Closed(sheet, now), p) == Having(sheet, p)
    ensures AllSucceeded(Closed(sheet, now)) == AllSucceeded(sheet)
    ensures FailedAtLast(Closed(sheet, now)) == FailedAtLast(sheet)
  {
    assert forall i :: 0 <= i < |sheet| ==> Closed(sheet, now)[i].progress == sheet[i].progress;
  }

  lemma LatchedVerdict(was: seq<Ops>, now: seq<Ops>)
    requires Latched(was, now)
    ensures AllSucceeded(was) ==> AllSucceeded(now)
    ensures FailedAtLast(was) ==> FailedAtLast(now)
  {
  }

  lemma SummedIsExact(was: Status, targets: seq<Text>, sheet: seq<Ops>, now: int)
    requires Distinct(targets) && Truthful(targets, was) && Latched(Listed(targets, was), sheet)
    ensures Exact(targets, Summed(was, targets, sheet, now))
  {
    ListedAfter(was, targets, sheet, now);
    ClosingKeepsCounts(sheet, now);
    CountsAddUp(sheet);
    DoneIffAllFinished(sheet);
    SomeFailedIffCounted(sheet);
    LatchedVerdict(Listed(targets, was), sheet);
    assert AllSucceeded(sheet) ==> !FailedAtLast(sheet);
  }

  lemma LatchedThrough(a: seq<Ops>, b: seq<Ops>, c: seq<Ops>)
    requires Latched(a, b) && Latched(b, c)
    ensures Latched(a, c)
  {
  }

  lemma SummingLatches(was: Status, targets: seq<Text>, sheet: seq<Ops>, now: int)
    requires Distinct(targets) && Truthful(targets, was) && Latched(Listed(targets, was), sheet)
    ensures var t := Summed(was, targets, sheet, now);
      && Exact(targets, t) && Latched(Listed(targets, was), Listed(targets, t)) && Latched(Listed(targets, t), sheet)
  {
    SummedIsExact(was, targets, sheet, now);
    ListedAfter(was, targets, sheet, now);
    assert forall i :: 0 <= i < |sheet| ==> Closed(sheet, now)[i].progress == sheet[i].progress;
  }

  ghost predicate Faithful(targets: seq<Text>, s: Status, t: Status) {
    Latched(Listed(targets, s), Listed(targets, t)) && Truthful(targets, t) && (t == s || Exact(targets, t))
  }

  lemma FirstLatches(targets: seq<Text>, s: Status, env: Env)
    requires Distinct(targets) && Truthful(targets, s)
    ensures Faithful(targets, s, First(targets, s, env))
    ensures Latched(Listed(targets, First(targets, s, env)), Settled(targets, s, env))
  {
    SettlingLatches(targets, s, env);
    SummingLatches(s, targets, Released(targets, s, env), env.now);
    ListedAfter(s, targets, Released(targets, s, env), env.now);
  }

  lemma AfterLatches(targets: seq<Text>, s: Status, env: Env, chosen: set<nat>)
    requires Distinct(targets) && Truthful(targets, s)
    ensures Faithful(targets, s, After(targets, s, env, chosen))
  {
    var first, settled := First(targets, s, env), Settled(targets, s, env);
    FirstLatches(targets, s, env);
    WorkLatches(targets, settled, chosen, env);
    var worked := Worked(targets, settled, chosen, env);
    LatchedThrough(Listed(targets, first), settled, worked);
    SummingLatches(first, targets, worked, env.now);
    LatchedThrough(Listed(targets, s), Listed(targets, first), Listed(targets, Summed(first, targets, worked, env.now)));
  }

  // One reconcile keeps a finished target's progress and a truthful job truthful; a
  // status that it computed is exact.
  lemma ReconcileLatches(targets: seq<Text>, partition: Option<nat>, s: Status, env: Env, t: Status)
    requires Distinct(targets) && Truthful(targets, s) && Reconciles(targets, partition, s, env, t)
    ensures Faithful(targets, s, t)
  {
    if GoesOn(targets, s, env) {
      var chosen :| Chosen(Settled(targets, s, env), partition, chosen) && t == After(targets, s, env, chosen);
      AfterLatches(targets, s, env, chosen);
    } else {
      AfterLatches(targets, s, env, {});
    }
  }

  // ------------------------------------------------------ why targets finish

  // The status of target i in the stored job.
  function Target(targets: seq<Text>, s: Status, i: nat): Ops
    requires i < |targets|
  {
    Listed(targets, s)[i]
  }

  // The time of target i, and of every target before it that was started, is over.
  ghost predicate Overran(targets: seq<Text>, s: Status, env: Env, i: nat)
    requires i < |targets|
  {
    && env.deadline.Some? && Target(targets, s, i).start.Some?
    && forall j: nat :: j <= i && Target(targets, s, j).start.Some? ==>
         env.now - Target(targets, s, j).start.value >= env.deadline.value
  }

  lemma {:induction false} WalkStops(sheet: seq<Ops>, j: nat, i: nat, deadline: int, now: int)
    requires j <= i < |sheet| && HasTime(sheet[j], deadline, now)
    ensures TimedOut(sheet, deadline, now)[i] == sheet[i]
    decreases i
  {
    if j > 0 && !HasTime(sheet[0], deadline, now) {
      WalkStops(sheet[1..], j - 1, i - 1, deadline, now);
    }
  }

  lemma {:induction false} WalkReaches(sheet: seq<Ops>, i: nat, deadline: int, now: int)
    requires i < |sheet| && forall j :: 0 <= j <= i ==> !HasTime(sheet[j], deadline, now)
    ensures TimedOut(sheet, deadline, now)[i] == Expired(sheet[i])
    decreases i
  {
    if i > 0 {
      WalkReaches(sheet[1..], i - 1, deadline, now);
    }
  }

  // The deadline fails exactly the unfinished targets that have overrun it.
  lemma DeadlineFails(targets: seq<Text>, s: Status, env: Env, i: nat)
    requires i < |targets|
    ensures var was := Target(targets, s, i);
      Timed(targets, s, env)[i] == if Overran(targets, s, env, i) && was.progress != Succeeded then was.(progress := Failed) else was
  {
    if env.deadline.Some? {
      var sheet, d := Listed(targets, s), env.deadline.value;
      if j: nat :| j <= i && HasTime(sheet[j], d, env.now) {
        WalkStops(sheet, j, i, d, env.now);
        assert Target(targets, s, j) == sheet[j];
      } else {
        WalkReaches(sheet, i, d, env.now);
        assert forall j: nat :: j <= i ==> Target(targets, s, j) == sheet[j] && !HasTime(sheet[j], d, env.now);
      }
    }
  }

  // Releasing and closing change neither progress nor start.
  lemma SettlingKeeps(targets: seq<Text>, s: Status, env: Env, i: nat)
    requires i < |targets|
    ensures var timed := Timed(targets, s, env)[i];
      && Settled(targets, s, env)[i].progress == Released(targets, s, env)[i].progress == timed.progress
      && Settled(targets, s, env)[i].start == Released(targets, s, env)[i].start == timed.start
  {
  }

  // What a reconcile leaves of a target.
  lemma AfterAt(targets: seq<Text>, s: Status, env: Env, chosen: set<nat>, i: nat)
    requires Distinct(targets) && i < |targets|
    ensures Target(targets, After(targets, s, env, chosen), i) in
      {Target(targets, s, i), Ended(Released(targets, s, env)[i], env.now),
       Ended(Worked(targets, Settled(targets, s, env), chosen, env)[i], env.now)}
    ensures GoesOn(targets, s, env) && env.lastWrite ==>
      Target(targets, After(targets, s, env, chosen), i) == Ended(Worked(targets, Settled(targets, s, env), chosen, env)[i], env.now)
  {
    ListedAfter(s, targets, Released(targets, s, env), env.now);
    ListedAfter(First(targets, s, env), targets, Worked(targets, Settled(targets, s, env), chosen, env), env.now);
  }

  // The action has ended well, and the Pod is back in service where that matters.
  predicate Achieved(env: Env, name: Text) {
    && env.view(name).action == ActionSucceeded
    && (env.lifecycle ==> env.view(name).found && env.view(name).available && env.view(name).cleaned)
  }

  // The action has failed, or there is no Pod to act on.
  predicate Lost(env: Env, name: Text) {
    || (env.view(name).action == ActionFailed && (env.lifecycle ==> env.view(name).found && env.view(name).cleaned))
    || (env.lifecycle && !env.view(name).found)
  }

  lemma WorkedReads(targets: seq<Text>, sheet: seq<Ops>, chosen: set<nat>, env: Env, i: nat)
    requires |targets| == |sheet| && i < |sheet|
    ensures var was, next := sheet[i], Worked(targets, sheet, chosen, env)[i];
      && (next.progress == Succeeded && was.progress != Succeeded ==> Achieved(env, targets[i]) && was.progress != Failed)
      && (next.progress == Failed && was.progress != Failed ==> Lost(env, targets[i]) && was.progress != Succeeded)
  {
  }

  // A target succeeds only when its action has, and fails only when the action has, when
  // its Pod is gone, or when its time is over.
  ghost predicate Justified(targets: seq<Text>, s: Status, env: Env, t: Status, i: nat)
    requires i < |targets|
  {
    var was, next := Target(targets, s, i), Target(targets, t, i);
    && (next.progress == Succeeded && was.progress != Succeeded ==> Achieved(env, targets[i]) && was.progress != Failed)
    && (next.progress == Failed && was.progress != Failed ==>
          (Lost(env, targets[i]) || Overran(targets, s, env, i)) && was.progress != Succeeded)
  }

  lemma AfterIsJustified(targets: seq<Text>, s: Status, env: Env, chosen: set<nat>, i: nat)
    requires Distinct(targets) && i < |targets|
    ensures Justified(targets, s, env, After(targets, s, env, chosen), i)
  {
    AfterAt(targets, s, env, chosen, i);
    DeadlineFails(targets, s, env, i);
    SettlingKeeps(targets, s, env, i);
    WorkedReads(targets, Settled(targets, s, env), chosen, env, i);
  }

  lemma FinishedForAReason(targets: seq<Text>, partition: Option<nat>, s: Status, env: Env, t: Status, i: nat)
    requires Distinct(targets) && Reconciles(targets, partition, s, env, t) && i < |targets|
    ensures Justified(targets, s, env, t, i)
  {
    if GoesOn(targets, s, env) {
      var chosen :| Chosen(Settled(targets, s, env), partition, chosen) && t == After(targets, s, env, chosen);
      AfterIsJustified(targets, s, env, chosen, i);
    } else {
      AfterIsJustified(targets, s, env, {}, i);
    }
  }

  // ------------------------------------------------------------------ histories

  // The reconciles of a job, the partition that each of them sees, and the status that
  // it leaves.
  datatype Turn = Turn(partition: Option<nat>, env: Env, status: Status)

  ghost predicate History(targets: seq<Text>, s: Status, turns: seq<Turn>)
    requires Distinct(targets)
    decreases |turns|
  {
    turns == [] ||
    (Reconciles(targets, turns[0].partition, s, turns[0].env, turns[0].status) && History(targets, turns[0].status, turns[1..]))
  }

  function Outcome(s: Status, turns: seq<Turn>): Status {
    if turns == [] then s else turns[|turns| - 1].status
  }

  lemma OutcomeOfRest(turns: seq<Turn>, s: Status)
    requires turns != []
    ensures Outcome(turns[0].status, turns[1..]) == Outcome(s, turns)
  {
  }

  // Over any history no finished target changes, and every computed status says exactly
  // what has become of the targets.
  lemma {:induction false} ProgressLatches(targets: seq<Text>, s: Status, turns: seq<Turn>)
    requires Distinct(targets) && Truthful(targets, s) && History(targets, s, turns)
    ensures Faithful(targets, s, Outcome(s, turns))
    decreases |turns|
  {
    if turns != [] {
      var next := turns[0].status;
      ReconcileLatches(targets, turns[0].partition, s, turns[0].env, next);
      ProgressLatches(targets, next, turns[1..]);
      OutcomeOfRest(turns, s);
      LatchedThrough(Listed(targets, s), Listed(targets, next), Listed(targets, Outcome(s, turns)));
    }
  }

  // ------------------------------------------------------------ the plain prefix

  lemma SettlingHolds(targets: seq<Text>, s: Status, env: Env, p: nat)
    requires Held(Listed(targets, s), p)
    ensures Held(Released(targets, s, env), p) && Held(Settled(targets, s, env), p)
  {
    assert Held(Timed(targets, s, env), p);
  }

  lemma WorkHolds(targets: seq<Text>, sheet: seq<Ops>, env: Env, p: nat)
    requires |targets| == |sheet| && Held(sheet, p)
    ensures Held(Worked(targets, sheet, Range(Capped(Some(p), |sheet|)), env), p)
  {
  }

  lemma SummingHolds(was: Status, targets: seq<Text>, sheet: seq<Ops>, now: int, p: nat)
    requires |targets| == |sheet| && Distinct(targets) && Held(sheet, p)
    ensures Held(Listed(targets, Summed(was, targets, sheet, now)), p)
  {
    ListedAfter(was, targets, sheet, now);
  }

  // While only targets below the partition have been started, a reconcile with its sort
  // is a reconcile that works on the first targets of the spec.
  lemma ReconcileRefinesPrefix(targets: seq<Text>, p: nat, s: Status, env: Env, t: Status)
    requires Distinct(targets) && Held(Listed(targets, s), p) && Reconciles(targets, Some(p), s, env, t)
    ensures t == After(targets, s, env, Range(Capped(Some(p), |targets|)))
    ensures Held(Listed(targets, t), p)
  {
    var sheet, prefix := Settled(targets, s, env), Range(Capped(Some(p), |targets|));
    SettlingHolds(targets, s, env, p);
    if GoesOn(targets, s, env) {
      var chosen :| Chosen(sheet, Some(p), chosen) && t == After(targets, s, env, chosen);
      SortSelectsPrefix(sheet, p, chosen);
      WorkHolds(targets, sheet, env, p);
      SummingHolds(First(targets, s, env), targets, Worked(targets, sheet, prefix, env), env.now, p);
    }
    SummingHolds(s, targets, Released(targets, s, env), env.now, p);
  }

  lemma HeldByMore(sheet: seq<Ops>, p: nat, q: nat)
    requires Held(sheet, p) && p <= q
    ensures Held(sheet, q)
  {
  }

  // The partition is set and never decreases.
  ghost predicate Widening(turns: seq<Turn>, p: nat)
    decreases |turns|
  {
    turns != [] ==> turns[0].partition.Some? && p <= turns[0].partition.value && Widening(turns[1..], turns[0].partition.value)
  }

  function LastPartition(turns: seq<Turn>, p: nat): nat {
    if turns == [] then p
    else LastPartition(turns[1..], if turns[0].partition.Some? then turns[0].partition.value else p)
  }

  // Over any such history of a new job the targets at or beyond the partition are
  // untouched.
  lemma {:induction false} OnlyPrefixStarts(targets: seq<Text>, s: Status, turns: seq<Turn>, p: nat)
    requires Distinct(targets) && Held(Listed(targets, s), p) && History(targets, s, turns) && Widening(turns, p)
    ensures Held(Listed(targets, Outcome(s, turns)), LastPartition(turns, p))
    decreases |turns|
  {
    if turns != [] {
      var q := turns[0].partition.value;
      HeldByMore(Listed(targets, s), p, q);
      ReconcileRefinesPrefix(targets, q, s, turns[0].env, turns[0].status);
      OnlyPrefixStarts(targets, turns[0].status, turns[1..], q);
      OutcomeOfRest(turns, s);
    }
  }

  // A new job starts with nothing started, so its every reconcile works on the plain
  // prefix.
  lemma NewJobsWorkOnPrefixes(targets: seq<Text>, turns: seq<Turn>, turn: Turn)
    requires Distinct(targets) && History(targets, NEW_STATUS, turns + [turn]) && Widening(turns + [turn], 0)
    ensures turn.partition.Some?
    ensures turn.status == After(targets, Outcome(NEW_STATUS, turns), turn.env, Range(Capped(turn.partition, |targets|)))
  {
    SplitHistory(targets, NEW_STATUS, turns, turn, 0);
    assert Held(Listed(targets, NEW_STATUS), 0);
    OnlyPrefixStarts(targets, NEW_STATUS, turns, 0);
    ReconcileRefinesPrefix(targets, turn.partition.value, Outcome(NEW_STATUS, turns), turn.env, turn.status);
  }

  lemma {:induction false} SplitHistory(targets: seq<Text>, s: Status, turns: seq<Turn>, turn: Turn, p: nat)
    requires Distinct(targets) && History(targets, s, turns + [turn]) && Widening(turns + [turn], p)
    ensures History(targets, s, turns) && Widening(turns, p)
    ensures turn.partition.Some? && LastPartition(turns, p) <= turn.partition.value
    ensures Reconciles(targets, turn.partition, Outcome(s, turns), turn.env, turn.status)
    decreases |turns|
  {
    if turns == [] {
      assert (turns + [turn])[0] == turn;
    } else {
      assert (turns + [turn])[1..] == turns[1..] + [turn];
      SplitHistory(targets, turns[0].status, turns[1..], turn, turns[0].partition.value);
      OutcomeOfRest(turns, s);
    }
  }

  // ------------------------------------------------------- the reconcile itself

  // The loop over the chosen candidates that starts them, and the one that asks how
  // they are getting on.
  method OperateTargets(a: array<Candidate>, k: nat, env: Env)
    requires k <= a.Length
    modifies a
    ensures forall i :: 0 <= i < a.Length ==>
      a[i] == if i < k then old(a[i]).(status := Begin(env.lifecycle, env.view(old(a[i]).name), env.now, old(a[i]).status)) else old(a[i])
  {
    for i := 0 to k
      invariant forall j :: 0 <= j < a.Length ==>
        a[j] == if j < i then old(a[j]).(status := Begin(env.lifecycle, env.view(old(a[j]).name), env.now, old(a[j]).status)) else old(a[j])
    {
      var s, v := a[i].status, env.view(a[i].name);
      if IsFinished(s) {
      } else if env.lifecycle && !v.found {
        a[i] := a[i].(status := MarkFailed(s));
      } else if IsPending(s) {
        if !env.lifecycle || v.during || v.attempt == Begun {
          a[i] := a[i].(status := s.(progress := Processing, start := if s.start.None? then Some(env.now) else s.start));
        }
      }
    }
  }

  method FollowTargets(a: array<Candidate>, k: nat, env: Env)
    requires k <= a.Length
    modifies a
    ensures forall i :: 0 <= i < a.Length ==>
      a[i] == if i < k then old(a[i]).(status := Follow(env.lifecycle, env.view(old(a[i]).name), old(a[i]).status)) else old(a[i])
    ensures forall i :: 0 <= i < a.Length && a[i].status.progress == Succeeded && old(a[i]).status.progress != Succeeded ==>
      Achieved(env, a[i].name)
    ensures forall i :: 0 <= i < a.Length && a[i].status.progress == Failed && old(a[i]).status.progress != Failed ==>
      env.view(a[i].name).action == ActionFailed
  {
    for i := 0 to k
      invariant forall j :: 0 <= j < a.Length ==>
        a[j] == if j < i then old(a[j]).(status := Follow(env.lifecycle, env.view(old(a[j]).name), old(a[j]).status)) else old(a[j])
    {
      var s, v := a[i].status, env.view(a[i].name);
      if IsFinished(s) || (env.lifecycle && !v.found) || IsPending(s) {
      } else if env.lifecycle && v.action != Running && !v.cleaned {
      } else {
        match v.action
        case Running => a[i] := a[i].(status := s.(progress := Processing));
        case ActionFailed => a[i] := a[i].(status := s.(progress := Failed));
        case ActionSucceeded =>
          if !env.lifecycle || v.available {
            a[i] := a[i].(status := s.(progress := Succeeded));
          }
      }
    }
  }

  // The chosen candidates are worked on, wherever the sort has put them.
  method WorkOn(a: array<Candidate>, k: nat, env: Env, ghost targets: seq<Text>, ghost sheet: seq<Ops>)
    requires Lays(a[..], targets, sheet) && k <= a.Length
    modifies a
    ensures Lays(a[..], targets, Worked(targets, sheet, Indices(old(a[..]), k), env))
  {
    ghost var c := a[..];
    OperateTargets(a, k, env);
    FollowTargets(a, k, env);
    ghost var chosen := Indices(c, k);
    forall i | 0 <= i < |c| ensures i < k <==> c[i].idx in chosen {
      if c[i].idx in chosen {
        var j :| 0 <= j < k && c[j].idx == c[i].idx;
        assert i == j;
      }
    }
  }

  // releaseTargets, for the failed targets that are not released yet.
  method ReleaseTargets(a: array<Candidate>, env: Env, ghost targets: seq<Text>, ghost sheet: seq<Ops>) returns (clean: bool)
    requires Lays(a[..], targets, sheet)
    modifies a
    ensures Lays(a[..], targets, Freed(targets, sheet, env))
    ensures clean <==> !Releasing(Freed(targets, sheet, env))
  {
    clean := true;
    ghost var c := a[..];
    for i := 0 to a.Length
      invariant forall j :: 0 <= j < a.Length ==>
        a[j] == if j < i then c[j].(status := Free(env, c[j].name, c[j].status)) else c[j]
      invariant clean <==> forall j :: 0 <= j < i ==> !ToRelease(a[j].status)
    {
      if ToRelease(a[i].status) {
        if env.releases(a[i].name) {
          a[i] := a[i].(status := a[i].status.(released := true));
        } else {
          clean := false;
        }
      }
    }
    AllAsked(a[..], targets, Freed(targets, sheet, env));
  }

  // Asking the candidates is asking the targets.
  lemma AllAsked(c: seq<Candidate>, targets: seq<Text>, sheet: seq<Ops>)
    requires Lays(c, targets, sheet)
    ensures Releasing(sheet) <==> exists k :: 0 <= k < |c| && ToRelease(c[k].status)
  {
    AllIndices(c, targets, sheet);
    if Releasing(sheet) {
      var i :| 0 <= i < |sheet| && ToRelease(sheet[i]);
      assert i in Indices(c, |c|);
    }
    if k :| 0 <= k < |c| && ToRelease(c[k].status) {
      assert ToRelease(sheet[c[k].idx]);
    }
  }

  method AnyToRelease(a: array<Candidate>, ghost targets: seq<Text>, ghost sheet: seq<Ops>) returns (any: bool)
    requires Lays(a[..], targets, sheet)
    ensures any <==> Releasing(sheet)
  {
    any := false;
    for i := 0 to a.Length
      invariant any <==> exists k :: 0 <= k < i && ToRelease(a[k].status)
    {
      any := any || ToRelease(a[i].status);
    }
    AllAsked(a[..], targets, sheet);
  }

  // The indices of the first k candidates that have that progress.
  function With(c: seq<Candidate>, k: nat, p: Progress): set<nat>
    requires k <= |c|
  {
    if k == 0 then {} else With(c, k - 1, p) + if c[k - 1].status.progress == p then {c[k - 1].idx} else {}
  }

  lemma {:induction false} WithAt(c: seq<Candidate>, k: nat, p: Progress, i: nat)
    requires k <= |c|
    ensures i in With(c, k, p) <==> exists j :: 0 <= j < k && c[j].idx == i && c[j].status.progress == p
  {
    if k > 0 {
      WithAt(c, k - 1, p, i);
    }
  }

  lemma WithStep(c: seq<Candidate>, k: nat, p: Progress)
    requires k < |c| && forall j :: 0 <= j < k ==> c[j].idx != c[k].idx
    ensures |With(c, k + 1, p)| == |With(c, k, p)| + if c[k].status.progress == p then 1 else 0
  {
    WithAt(c, k, p, c[k].idx);
  }

  lemma WithAll(c: seq<Candidate>, targets: seq<Text>, sheet: seq<Ops>, p: Progress)
    requires Lays(c, targets, sheet)
    ensures With(c, |c|, p) == Having(sheet, p)
  {
    AllIndices(c, targets, sheet);
    forall i | i in Having(sheet, p) ensures i in With(c, |c|, p) {
      assert i in Indices(c, |c|);
      WithAt(c, |c|, p, i);
    }
    forall i | i in With(c, |c|, p) ensures i in Having(sheet, p) {
      WithAt(c, |c|, p, i);
    }
  }

  // The details of the first k candidates.
  ghost predicate Collected(c: seq<Candidate>, k: nat, now: int, details: map<Text, Ops>)
    requires k <= |c|
  {
    && (forall n :: n in details ==> exists j :: 0 <= j < k && c[j].name == n)
    && forall j :: 0 <= j < k ==> c[j].name in details && details[c[j].name] == Ended(c[j].status, now)
  }

  lemma CollectStep(c: seq<Candidate>, k: nat, now: int, details: map<Text, Ops>)
    requires k < |c| && Collected(c, k, now, details) && forall j :: 0 <= j < k ==> c[j].name != c[k].name
    ensures Collected(c, k + 1, now, details[c[k].name := Ended(c[k].status, now)])
  {
  }

  lemma NamesDiffer(c: seq<Candidate>, targets: seq<Text>, sheet: seq<Ops>, k: nat)
    requires Lays(c, targets, sheet) && Distinct(targets) && k < |c|
    ensures forall j :: 0 <= j < k ==> c[j].idx != c[k].idx && c[j].name != c[k].name
  {
    forall j | 0 <= j < k ensures c[j].name != c[k].name {
      assert c[j].idx < c[k].idx || c[k].idx < c[j].idx;
    }
  }

  method EndCandidate(a: array<Candidate>, i: nat, now: int)
    requires i < a.Length
    modifies a
    ensures a[i] == old(a[i]).(status := Ended(old(a[i]).status, now))
    ensures forall j :: 0 <= j < a.Length && j != i ==> a[j] == old(a[j])
  {
    if a[i].status.end.None? && IsFinished(a[i].status) {
      a[i] := a[i].(status := a[i].status.(end := Some(now)));
    }
  }

  // The end times and the details, candidate by candidate.
  method CollectDetails(a: array<Candidate>, now: int, ghost targets: seq<Text>, ghost sheet: seq<Ops>)
    returns (details: map<Text, Ops>)
    requires Lays(a[..], targets, sheet) && Distinct(targets)
    modifies a
    ensures Lays(a[..], targets, Closed(sheet, now))
    ensures details == Details(targets, sheet, now)
  {
    details := map[];
    ghost var c := a[..];
    for i := 0 to a.Length
      invariant forall j :: 0 <= j < a.Length ==> a[j] == if j < i then c[j].(status := Ended(c[j].status, now)) else c[j]
      invariant Collected(c, i, now, details)
    {
      EndCandidate(a, i, now);
      NamesDiffer(c, targets, sheet, i);
      CollectStep(c, i, now, details);
      details := details[a[i].name := a[i].status];
    }
    CollectedAll(c, targets, sheet, now, details);
    ClosedLays(c, a[..], targets, sheet, now);
  }

  lemma ClosedLays(c: seq<Candidate>, d: seq<Candidate>, targets: seq<Text>, sheet: seq<Ops>, now: int)
    requires Lays(c, targets, sheet) && |d| == |c|
    requires forall j :: 0 <= j < |c| ==> d[j] == c[j].(status := Ended(c[j].status, now))
    ensures Lays(d, targets, Closed(sheet, now))
  {
  }

  lemma CollectedAt(c: seq<Candidate>, targets: seq<Text>, sheet: seq<Ops>, now: int, details: map<Text, Ops>, i: nat)
    requires Lays(c, targets, sheet) && Collected(c, |c|, now, details) && i < |targets|
    ensures targets[i] in details && details[targets[i]] == Ended(sheet[i], now)
  {
    AllIndices(c, targets, sheet);
    assert i in Indices(c, |c|);
    var j :| 0 <= j < |c| && c[j].idx == i;
  }

  lemma CollectedAll(c: seq<Candidate>, targets: seq<Text>, sheet: seq<Ops>, now: int, details: map<Text, Ops>)
    requires Lays(c, targets, sheet) && Distinct(targets) && Collected(c, |c|, now, details)
    ensures details == Details(targets, sheet, now)
  {
    forall n | n in Details(targets, sheet, now) ensures n in details && details[n] == Details(targets, sheet, now)[n] {
      DetailIsCollected(c, targets, sheet, now, details, n);
    }
    forall n | n in details ensures n in Details(targets, sheet, now) {
      CollectedIsDetail(c, targets, sheet, now, details, n);
    }
  }

  lemma DetailIsCollected(c: seq<Candidate>, targets: seq<Text>, sheet: seq<Ops>, now: int, details: map<Text, Ops>, n: Text)
    requires Lays(c, targets, sheet) && Distinct(targets) && Collected(c, |c|, now, details)
    requires n in Details(targets, sheet, now)
    ensures n in details && details[n] == Details(targets, sheet, now)[n]
  {
    var i: nat :| i < |targets| && targets[i] == n;
    DetailsAt(targets, sheet, now, i);
    CollectedAt(c, targets, sheet, now, details, i);
  }

  lemma CollectedIsDetail(c: seq<Candidate>, targets: seq<Text>, sheet: seq<Ops>, now: int, details: map<Text, Ops>, n: Text)
    requires Lays(c, targets, sheet) && Distinct(targets) && Collected(c, |c|, now, details) && n in details
    ensures n in Details(targets, sheet, now)
  {
    var j :| 0 <= j < |c| && c[j].name == n;
    DetailsAt(targets, sheet, now, c[j].idx);
  }

  lemma CountStep(c: seq<Candidate>, targets: seq<Text>, sheet: seq<Ops>, k: nat)
    requires Lays(c, targets, sheet) && Distinct(targets) && k < |c|
    ensures |With(c, k + 1, Succeeded)| == |With(c, k, Succeeded)| + if c[k].status.progress == Succeeded then 1 else 0
    ensures |With(c, k + 1, Failed)| == |With(c, k, Failed)| + if c[k].status.progress == Failed then 1 else 0
    ensures |With(c, k + 1, Pending)| == |With(c, k, Pending)| + if c[k].status.progress == Pending then 1 else 0
  {
    NamesDiffer(c, targets, sheet, k);
    WithStep(c, k, Succeeded);
    WithStep(c, k, Failed);
    WithStep(c, k, Pending);
  }

  // The counting loop.
  method CountProgress(a: array<Candidate>, ghost targets: seq<Text>, ghost sheet: seq<Ops>)
    returns (succeeded: nat, failed: nat, pending: nat)
    requires Lays(a[..], targets, sheet) && Distinct(targets)
    ensures succeeded == |Having(sheet, Succeeded)| && failed == |Having(sheet, Failed)| && pending == |Having(sheet, Pending)|
  {
    succeeded, failed, pending := 0, 0, 0;
    ghost var c := a[..];
    for i := 0 to a.Length
      invariant succeeded == |With(c, i, Succeeded)| && failed == |With(c, i, Failed)| && pending == |With(c, i, Pending)|
    {
      CountStep(c, targets, sheet, i);
      if a[i].status.progress == Failed {
        failed := failed + 1;
      }
      if a[i].status.progress == Succeeded {
        succeeded := succeeded + 1;
      }
      if a[i].status.progress == Pending {
        pending := pending + 1;
      }
    }
    WithAll(c, targets, sheet, Succeeded);
    WithAll(c, targets, sheet, Failed);
    WithAll(c, targets, sheet, Pending);
  }

  // calculateStatus
  method CalculateStatus(a: array<Candidate>, was: Status, now: int, ghost targets: seq<Text>, ghost sheet: seq<Ops>)
    returns (s: Status)
    requires Lays(a[..], targets, sheet) && Distinct(targets)
    modifies a
    ensures Lays(a[..], targets, Closed(sheet, now))
    ensures s == Summed(was, targets, sheet, now)
  {
    var details := CollectDetails(a, now, targets, sheet);
    var succeeded, failed, pending := CountProgress(a, targets, Closed(sheet, now));
    var total := a.Length;
    ClosingKeepsCounts(sheet, now);
    s := was.(details := details, total := total, failed := failed, succeeded := succeeded);
    if was.progress != Succeeded && was.progress != Failed {
      s := s.(progress := Processing, start := if was.start.None? then Some(now) else was.start);
      if pending == total {
        s := s.(progress := Pending);
      }
      if succeeded + failed == total {
        s := s.(progress := if failed > 0 then Failed else Succeeded, end := if was.end.None? then Some(now) else was.end);
      }
    }
  }

  lemma ClosingReleasesNobody(sheet: seq<Ops>, now: int)
    ensures Releasing(Closed(sheet, now)) == Releasing(sheet)
  {
    assert forall i :: 0 <= i < |sheet| ==> ToRelease(Closed(sheet, now)[i]) == ToRelease(sheet[i]);
  }

  // The job as the server holds it.
  class Job {
    const targets: seq<Text>
    var partition: Option<nat>
    var status: Status

    constructor (targets: seq<Text>, partition: Option<nat>)
      ensures this.targets == targets && this.partition == partition && status == NEW_STATUS
    {
      this.targets, this.partition, status := targets, partition, NEW_STATUS;
    }

    // listTargets
    method ListTargets() returns (a: array<Candidate>)
      ensures fresh(a) && Lays(a[..], targets, Listed(targets, status))
      ensures forall k :: 0 <= k < a.Length ==> a[k].idx == k
    {
      var listed := Listed(targets, status);
      a := new Candidate[|targets|](i requires 0 <= i < |targets| && |listed| == |targets| => Candidate(i, targets[i], listed[i]));
    }

    // doReconcile, `instance` being the status that the reconcile has in hand.
    method DoReconcile(a: array<Candidate>, instance: Status, env: Env, ghost sheet: seq<Ops>)
      requires Distinct(targets) && Lays(a[..], targets, sheet)
      modifies this`status, a
      ensures !env.known ==> status == old(status)
      ensures env.known ==> exists chosen ::
        && Chosen(sheet, partition, chosen)
        && status == if env.lastWrite then Summed(instance, targets, Worked(targets, sheet, chosen, env), env.now) else old(status)
    {
      if !env.known {
        return;
      }
      var k := DecideByPartition(a, partition, targets, sheet);
      ghost var chosen := Indices(a[..], k);
      WorkOn(a, k, env, targets, sheet);
      var s := CalculateStatus(a, instance, env.now, targets, Worked(targets, sheet, chosen, env));
      if env.lastWrite {
        status := s;
      }
    }

    // ensureFailedTargetsReleased
    method EnsureFailedTargetsReleased(a: array<Candidate>, env: Env) returns (instance: Status, ok: bool)
      requires Distinct(targets) && Lays(a[..], targets, Timed(targets, status, env))
      modifies this`status, a
      ensures Lays(a[..], targets, Settled(targets, old(status), env))
      ensures instance == First(targets, old(status), env)
      ensures env.known ==> ok == GoesOn(targets, old(status), env)
      ensures status == if env.firstWrite then instance else old(status)
    {
      ghost var timed := Timed(targets, status, env);
      instance, ok := status, true;
      var releasing := AnyToRelease(a, targets, timed);
      if !releasing {
        return;
      }
      ok := false;
      if env.known {
        ok := ReleaseTargets(a, env, targets, timed);
        ClosingReleasesNobody(Freed(targets, timed, env), env.now);
      }
      instance := CalculateStatus(a, status, env.now, targets, Released(targets, status, env));
      if env.firstWrite {
        status := instance;
      } else {
        ok := false;
      }
    }

    // Reconcile of a job that is not being deleted.
    method Reconcile(env: Env)
      requires Distinct(targets)
      modifies this`status
      ensures Reconciles(targets, partition, old(status), env, status)
      ensures forall i: nat :: i < |targets| ==> Justified(targets, old(status), env, status, i)
    {
      ghost var s := status;
      var a := ListTargets();
      if env.deadline.Some? {
        EnsureActiveDeadline(a, env.deadline.value, env.now, targets, Listed(targets, s));
      }
      var instance, ok := EnsureFailedTargetsReleased(a, env);
      ghost var settled, stored := Settled(targets, s, env), status;
      if ok {
        DoReconcile(a, instance, env, settled);
        if env.known {
          ghost var chosen :| Chosen(settled, partition, chosen)
            && status == if env.lastWrite then Summed(instance, targets, Worked(targets, settled, chosen, env), env.now) else stored;
          assert status == After(targets, s, env, chosen);
        }
      }
      assert Reconciles(targets, partition, s, env, status);
      forall i: nat | i < |targets| {
        FinishedForAReason(targets, partition, s, env, status, i);
      }
    }
  }
}
