// What becomes of the targets of an OperationJob, in terms of what the cluster and the
// action say about them.

module Fates {
  import opened Options
  import opened Pods
  import opened Targets
  import opened Jobs

  // ------------------------------------------------- what a reconcile achieves

  // Nothing stands in its way: the action is known, writes succeed, and the failed targets
  // can be released.
  ghost predicate Unhindered(targets: seq<Text>, s: Status, env: Env) {
    && env.known && env.firstWrite && env.lastWrite
    && forall i: nat :: (i < |targets| && !Target(targets, s, i).released
                         && (Target(targets, s, i).progress == Failed || Overran(targets, s, env, i))) ==> env.releases(targets[i])
  }

  lemma UnhinderedGoesOn(targets: seq<Text>, s: Status, env: Env)
    requires Unhindered(targets, s, env)
    ensures GoesOn(targets, s, env)
  {
    forall i: nat | i < |targets| && ToRelease(Timed(targets, s, env)[i]) ensures env.releases(targets[i]) {
      DeadlineFails(targets, s, env, i);
    }
    assert Releasing(Released(targets, s, env)) ==> false;
    ClosingReleasesNobody(Released(targets, s, env), env.now);
  }

  // The job may work on the target: there is no partition, or only targets below it have
  // been started and this is one of them.
  ghost predicate Admits(targets: seq<Text>, partition: Option<nat>, s: Status, i: nat) {
    partition.Some? ==> Held(Listed(targets, s), partition.value) && i < partition.value
  }

  lemma AdmittedIsChosen(targets: seq<Text>, partition: Option<nat>, s: Status, env: Env, chosen: set<nat>, i: nat)
    requires i < |targets| && Admits(targets, partition, s, i) && Chosen(Settled(targets, s, env), partition, chosen)
    ensures i in chosen
  {
    if partition.Some? {
      SettlingHolds(targets, s, env, partition.value);
      SortSelectsPrefix(Settled(targets, s, env), partition.value, chosen);
    } else {
      SameSizeSubset(chosen, Range(|targets|));
    }
  }

  // The target is started, or has been.
  predicate Started(env: Env, v: View, was: Ops) {
    was.progress == Processing || !env.lifecycle || v.during || v.attempt == Begun
  }

  // The action's word on a target that is being worked on: it stands once the lifecycle
  // is cleaned up, and a success only when the Pod is back in service.
  function Verdict(env: Env, v: View): Progress {
    if env.lifecycle && !v.found then Failed
    else if v.action == Running || (env.lifecycle && !v.cleaned) then Processing
    else if v.action == ActionFailed then Failed
    else if env.lifecycle && !v.available then Processing
    else Succeeded
  }

  // What one unfinished target comes to in a reconcile that nothing stands in the way of.
  lemma WorkIsDone(targets: seq<Text>, partition: Option<nat>, s: Status, env: Env, t: Status, i: nat)
    requires Distinct(targets) && Reconciles(targets, partition, s, env, t) && Unhindered(targets, s, env)
    requires i < |targets| && Admits(targets, partition, s, i) && !Overran(targets, s, env, i)
    requires var was := Target(targets, s, i); was.progress != Succeeded && was.progress != Failed
    ensures var was, v, next := Target(targets, s, i), env.view(targets[i]), Target(targets, t, i);
      && next.progress == (if !Started(env, v, was) && v.found then was.progress else Verdict(env, v))
      && next.start == (if Started(env, v, was) && (v.found || !env.lifecycle) && was.progress != Processing && was.start.None?
                        then Some(env.now) else was.start)
      && next.end == (if was.end.None? && (next.progress == Succeeded || next.progress == Failed) then Some(env.now) else was.end)
  {
    UnhinderedGoesOn(targets, s, env);
    var chosen :| Chosen(Settled(targets, s, env), partition, chosen) && t == After(targets, s, env, chosen);
    AdmittedIsChosen(targets, partition, s, env, chosen, i);
    AfterAt(targets, s, env, chosen, i);
    DeadlineFails(targets, s, env, i);
    UnfinishedSettles(targets, s, env, i);
    OneWorked(env, env.view(targets[i]), Target(targets, s, i));
  }

  lemma UnfinishedSettles(targets: seq<Text>, s: Status, env: Env, i: nat)
    requires i < |targets| && !IsFinished(Timed(targets, s, env)[i])
    ensures Settled(targets, s, env)[i] == Timed(targets, s, env)[i]
  {
  }

  lemma OneWorked(env: Env, v: View, was: Ops)
    requires was.progress != Succeeded && was.progress != Failed
    ensures var next := Follow(env.lifecycle, v, Begin(env.lifecycle, v, env.now, was));
      && next.progress == (if !Started(env, v, was) && v.found then was.progress else Verdict(env, v))
      && next.start == (if Started(env, v, was) && (v.found || !env.lifecycle) && was.progress != Processing && was.start.None?
                        then Some(env.now) else was.start)
      && next.end == was.end
  {
  }

  // A target is released only as a failed one, and the end of its work is recorded once.
  predicate Advances(env: Env, name: Text, was: Ops, next: Ops) {
    && (was.released ==> next.released)
    && (next.released && !was.released ==> env.known && env.releases(name) && next.progress == Failed)
    && (next.end == was.end || (was.end.None? && next.end == Some(env.now) && (next.progress == Failed || next.progress == Succeeded)))
  }

  lemma SettlingAdvances(targets: seq<Text>, s: Status, env: Env, i: nat)
    requires i < |targets|
    ensures var was := Target(targets, s, i);
      && Advances(env, targets[i], was, Released(targets, s, env)[i])
      && Advances(env, targets[i], was, Ended(Released(targets, s, env)[i], env.now))
      && Advances(env, targets[i], was, Settled(targets, s, env)[i])
  {
    DeadlineFails(targets, s, env, i);
  }

  lemma WorkingAdvances(env: Env, name: Text, v: View, was: Ops, settled: Ops)
    requires Advances(env, name, was, settled)
    ensures Advances(env, name, was, Ended(settled, env.now))
    ensures Advances(env, name, was, Ended(Follow(env.lifecycle, v, Begin(env.lifecycle, v, env.now, settled)), env.now))
  {
  }

  lemma TargetAdvances(targets: seq<Text>, partition: Option<nat>, s: Status, env: Env, t: Status, i: nat)
    requires Distinct(targets) && Reconciles(targets, partition, s, env, t) && i < |targets|
    ensures Advances(env, targets[i], Target(targets, s, i), Target(targets, t, i))
  {
    var chosen :| t == After(targets, s, env, chosen);
    AfterAt(targets, s, env, chosen, i);
    SettlingAdvances(targets, s, env, i);
    WorkingAdvances(env, targets[i], env.view(targets[i]), Target(targets, s, i), Settled(targets, s, env)[i]);
  }

  lemma FailedSettleReleased(targets: seq<Text>, s: Status, env: Env, i: nat)
    requires Unhindered(targets, s, env) && i < |targets| && Target(targets, s, i).progress == Failed
    ensures Settled(targets, s, env)[i].released && Settled(targets, s, env)[i].progress == Failed
  {
    DeadlineFails(targets, s, env, i);
    if !Timed(targets, s, env)[i].released {
      assert ToRelease(Timed(targets, s, env)[i]);
    }
  }

  lemma FailedIsLeft(targets: seq<Text>, sheet: seq<Ops>, chosen: set<nat>, env: Env, i: nat)
    requires |targets| == |sheet| && i < |sheet| && sheet[i].progress == Failed
    ensures Worked(targets, sheet, chosen, env)[i] == sheet[i]
  {
  }

  // Failed targets are released when nothing stands in the way.
  lemma FailedAreReleased(targets: seq<Text>, partition: Option<nat>, s: Status, env: Env, t: Status, i: nat)
    requires Distinct(targets) && Reconciles(targets, partition, s, env, t) && Unhindered(targets, s, env)
    requires i < |targets| && Target(targets, s, i).progress == Failed
    ensures Target(targets, t, i).released
  {
    UnhinderedGoesOn(targets, s, env);
    FailedSettleReleased(targets, s, env, i);
    var chosen :| t == After(targets, s, env, chosen);
    AfterAt(targets, s, env, chosen, i);
    FailedIsLeft(targets, Settled(targets, s, env), chosen, env, i);
  }

  // The failed targets that a reconcile meets: recorded ones, and those that overrun now.
  ghost predicate MetFailed(targets: seq<Text>, s: Status, env: Env, j: nat)
    requires j < |targets|
  {
    Target(targets, s, j).progress == Failed || (Overran(targets, s, env, j) && Target(targets, s, j).progress != Succeeded)
  }

  lemma GoingOnHasReleased(targets: seq<Text>, s: Status, env: Env, j: nat)
    requires j < |targets| && GoesOn(targets, s, env) && MetFailed(targets, s, env, j)
    ensures Settled(targets, s, env)[j].progress == Failed && Settled(targets, s, env)[j].released
    ensures !Target(targets, s, j).released ==> env.firstWrite
  {
    DeadlineFails(targets, s, env, j);
    if !Timed(targets, s, env)[j].released {
      assert ToRelease(Timed(targets, s, env)[j]);
    }
    SettlingKeeps(targets, s, env, j);
    assert !ToRelease(Settled(targets, s, env)[j]) || Releasing(Settled(targets, s, env));
    if !Releasing(Timed(targets, s, env)) {
      assert !ToRelease(Timed(targets, s, env)[j]);
    }
  }

  // A reconcile starts or finishes targets only when its action is known, when the status
  // can be written, and when all failed targets that it meets are released.
  lemma WorksWhenReleased(targets: seq<Text>, partition: Option<nat>, s: Status, env: Env, t: Status, i: nat)
    requires Distinct(targets) && Reconciles(targets, partition, s, env, t) && i < |targets|
    requires var was, next := Target(targets, s, i), Target(targets, t, i);
      next.progress != was.progress && (next.progress == Processing || next.progress == Succeeded)
    ensures env.known && env.lastWrite
    ensures forall j: nat :: j < |targets| && MetFailed(targets, s, env, j) ==>
      Target(targets, t, j).released && (!Target(targets, s, j).released ==> env.firstWrite)
  {
    var chosen :| t == After(targets, s, env, chosen);
    if !(GoesOn(targets, s, env) && env.lastWrite) {
      UnworkedKeeps(targets, s, env, chosen, i);
    }
    forall j: nat | j < |targets| && MetFailed(targets, s, env, j)
      ensures Target(targets, t, j).released && (!Target(targets, s, j).released ==> env.firstWrite)
    {
      GoingOnHasReleased(targets, s, env, j);
      AfterAt(targets, s, env, chosen, j);
      FailedIsLeft(targets, Settled(targets, s, env), chosen, env, j);
    }
  }

  // A reconcile that does not go on, or cannot write, leaves progress to the deadline.
  lemma UnworkedKeeps(targets: seq<Text>, s: Status, env: Env, chosen: set<nat>, i: nat)
    requires Distinct(targets) && i < |targets| && !(GoesOn(targets, s, env) && env.lastWrite)
    ensures Target(targets, After(targets, s, env, chosen), i).progress in {Target(targets, s, i).progress, Failed}
  {
    DeadlineFails(targets, s, env, i);
    SettlingKeeps(targets, s, env, i);
    ListedAfter(s, targets, Released(targets, s, env), env.now);
  }

  // ------------------------------------------------------------- the job itself

  predicate Over(s: Status) {
    s.progress == Succeeded || s.progress == Failed
  }

  // The start and the end of a job are recorded once, the end when it is over, and nothing
  // of this changes afterwards.
  predicate Timeline(s: Status, t: Status, now: int) {
    && t.start == (if s.start.None? && !Over(s) then Some(now) else s.start)
    && t.end == (if s.end.None? && !Over(s) && Over(t) then Some(now) else s.end)
    && (Over(s) ==> t.progress == s.progress)
  }

  lemma SummedTimeline(was: Status, targets: seq<Text>, sheet: seq<Ops>, now: int)
    requires |targets| == |sheet| && Distinct(targets)
    ensures Timeline(was, Summed(was, targets, sheet, now), now)
    ensures !Over(was) ==>
      (Summed(was, targets, sheet, now).progress == Pending <==>
       |targets| > 0 && forall i :: 0 <= i < |sheet| ==> sheet[i].progress == Pending)
  {
    AllPendingIsCounted(sheet);
    DoneIffAllFinished(sheet);
  }

  lemma AllPendingIsCounted(sheet: seq<Ops>)
    ensures |Having(sheet, Pending)| == |sheet| <==> forall i :: 0 <= i < |sheet| ==> sheet[i].progress == Pending
  {
    if |Having(sheet, Pending)| == |sheet| {
      SameSizeSubset(Having(sheet, Pending), Range(|sheet|));
      forall i | 0 <= i < |sheet| ensures sheet[i].progress == Pending {
        assert i in Range(|sheet|);
      }
    }
    if forall i :: 0 <= i < |sheet| ==> sheet[i].progress == Pending {
      assert Having(sheet, Pending) == Range(|sheet|);
    }
  }

  // The job is pending as long as all of its targets are.
  ghost predicate PendingWithAll(targets: seq<Text>, s: Status) {
    s.progress == Pending <==> |targets| > 0 && forall i: nat :: i < |targets| ==> Target(targets, s, i).progress == Pending
  }

  ghost predicate KeepsTime(targets: seq<Text>, s: Status, t: Status, now: int) {
    Timeline(s, t, now) && (!Over(s) && !Over(t) ==> PendingWithAll(targets, t))
  }

  lemma SummedKeepsTime(was: Status, targets: seq<Text>, sheet: seq<Ops>, now: int)
    requires |targets| == |sheet| && Distinct(targets)
    ensures KeepsTime(targets, was, Summed(was, targets, sheet, now), now)
  {
    SummedTimeline(was, targets, sheet, now);
    SummedShows(was, targets, sheet, now);
  }

  lemma TimeGoesOn(targets: seq<Text>, a: Status, b: Status, c: Status, now: int)
    requires KeepsTime(targets, a, b, now) && KeepsTime(targets, b, c, now)
    ensures KeepsTime(targets, a, c, now)
  {
  }

  lemma FirstKeepsTime(targets: seq<Text>, s: Status, env: Env)
    requires Distinct(targets)
    ensures First(targets, s, env) == s || KeepsTime(targets, s, First(targets, s, env), env.now)
  {
    SummedKeepsTime(s, targets, Released(targets, s, env), env.now);
  }

  lemma AfterKeepsTime(targets: seq<Text>, s: Status, env: Env, chosen: set<nat>)
    requires Distinct(targets)
    ensures After(targets, s, env, chosen) == s || KeepsTime(targets, s, After(targets, s, env, chosen), env.now)
  {
    var first := First(targets, s, env);
    FirstKeepsTime(targets, s, env);
    if GoesOn(targets, s, env) && env.lastWrite {
      var last := Summed(first, targets, Worked(targets, Settled(targets, s, env), chosen, env), env.now);
      SummedKeepsTime(first, targets, Worked(targets, Settled(targets, s, env), chosen, env), env.now);
      if first != s {
        TimeGoesOn(targets, s, first, last, env.now);
      }
    }
  }

  // A reconcile that computes a status keeps to the timeline, and to what is pending.
  lemma JobKeepsTime(targets: seq<Text>, partition: Option<nat>, s: Status, env: Env, t: Status)
    requires Distinct(targets) && Reconciles(targets, partition, s, env, t) && t != s
    ensures KeepsTime(targets, s, t, env.now)
  {
    if GoesOn(targets, s, env) {
      var chosen :| Chosen(Settled(targets, s, env), partition, chosen) && t == After(targets, s, env, chosen);
      AfterKeepsTime(targets, s, env, chosen);
    } else {
      AfterKeepsTime(targets, s, env, {});
    }
  }

  lemma SummedShows(was: Status, targets: seq<Text>, sheet: seq<Ops>, now: int)
    requires |targets| == |sheet| && Distinct(targets)
    ensures forall i: nat :: i < |targets| ==> Target(targets, Summed(was, targets, sheet, now), i).progress == sheet[i].progress
  {
    ListedAfter(was, targets, sheet, now);
  }

  // ------------------------------------------------------------------ histories

  function Earlier(s: Status, turns: seq<Turn>, k: nat): Status
    requires k <= |turns|
  {
    if k == 0 then s else turns[k - 1].status
  }

  ghost predicate AchievedAt(targets: seq<Text>, turns: seq<Turn>, i: nat, k: nat)
    requires i < |targets| && k < |turns|
  {
    Achieved(turns[k].env, targets[i])
  }

  ghost predicate LostAt(targets: seq<Text>, s: Status, turns: seq<Turn>, i: nat, k: nat)
    requires i < |targets| && k < |turns|
  {
    Lost(turns[k].env, targets[i]) || Overran(targets, Earlier(s, turns, k), turns[k].env, i)
  }

  // Over every history a target that has come to succeed did so in a turn in which its
  // action had, and one that has come to fail in a turn with a cause for it.
  lemma {:induction false} FinishesAreEarned(targets: seq<Text>, s: Status, turns: seq<Turn>, i: nat)
    requires Distinct(targets) && History(targets, s, turns) && i < |targets|
    ensures var was, next := Target(targets, s, i), Target(targets, Outcome(s, turns), i);
      && (next.progress == Succeeded && was.progress != Succeeded ==> exists k: nat :: k < |turns| && AchievedAt(targets, turns, i, k))
      && (next.progress == Failed && was.progress != Failed ==> exists k: nat :: k < |turns| && LostAt(targets, s, turns, i, k))
    decreases |turns|
  {
    if turns != [] {
      var mid, rest := turns[0].status, turns[1..];
      FinishedForAReason(targets, turns[0].partition, s, turns[0].env, mid, i);
      FinishesAreEarned(targets, mid, rest, i);
      OutcomeOfRest(turns, s);
      if Achieved(turns[0].env, targets[i]) {
        assert AchievedAt(targets, turns, i, 0);
      }
      if Lost(turns[0].env, targets[i]) || Overran(targets, s, turns[0].env, i) {
        assert LostAt(targets, s, turns, i, 0);
      }
      LaterCauses(targets, s, turns, i);
    }
  }

  lemma LaterCauses(targets: seq<Text>, s: Status, turns: seq<Turn>, i: nat)
    requires turns != [] && i < |targets|
    ensures forall k: nat :: k < |turns| - 1 && AchievedAt(targets, turns[1..], i, k) ==> AchievedAt(targets, turns, i, k + 1)
    ensures forall k: nat :: k < |turns| - 1 && LostAt(targets, turns[0].status, turns[1..], i, k) ==> LostAt(targets, s, turns, i, k + 1)
  {
    forall k: nat | k < |turns| - 1 ensures Earlier(turns[0].status, turns[1..], k) == Earlier(s, turns, k + 1) {
    }
  }

  // A job that has succeeded has carried out its action on every target.
  lemma SucceededJobsAreDone(targets: seq<Text>, turns: seq<Turn>, i: nat)
    requires Distinct(targets) && History(targets, NEW_STATUS, turns) && i < |targets|
    requires Outcome(NEW_STATUS, turns).progress == Succeeded
    ensures exists k: nat :: k < |turns| && AchievedAt(targets, turns, i, k)
  {
    ProgressLatches(targets, NEW_STATUS, turns);
    FinishesAreEarned(targets, NEW_STATUS, turns, i);
  }

  // A job that has failed has lost one of its targets.
  lemma FailedJobsHaveLost(targets: seq<Text>, turns: seq<Turn>) returns (i: nat)
    requires Distinct(targets) && History(targets, NEW_STATUS, turns)
    requires Outcome(NEW_STATUS, turns).progress == Failed
    ensures i < |targets| && exists k: nat :: k < |turns| && LostAt(targets, NEW_STATUS, turns, i, k)
  {
    ProgressLatches(targets, NEW_STATUS, turns);
    i :| i < |targets| && Listed(targets, Outcome(NEW_STATUS, turns))[i].progress == Failed;
    FinishesAreEarned(targets, NEW_STATUS, turns, i);
  }
}
