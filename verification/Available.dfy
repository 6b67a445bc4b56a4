// The disruption budget of an AvailablePolicy rule (processor/rules/available.go).

module Sums {

  // The sum of f over a finite set.
  ghost function Sum<T(!new)>(s: set<T>, f: T -> int): int
    decreases |s|
  {
    if s == {} then 0 else var x :| x in s; f(x) + Sum(s - {x}, f)
  }

  // Any element can be taken out first, so the order does not matter.
  lemma {:induction false} SumTakes<T(!new)>(s: set<T>, f: T -> int, x: T)
    requires x in s
    ensures Sum(s, f) == f(x) + Sum(s - {x}, f)
    decreases |s|
  {
    var y :| y in s && Sum(s, f) == f(y) + Sum(s - {y}, f);
    if y != x {
      SumTakes(s - {y}, f, x);
      SumTakes(s - {x}, f, y);
      assert s - {y} - {x} == s - {x} - {y};
    }
  }

  lemma {:induction false} SumAgrees<T(!new)>(s: set<T>, f: T -> int, g: T -> int)
    requires forall x :: x in s ==> f(x) == g(x)
    ensures Sum(s, f) == Sum(s, g)
    decreases |s|
  {
    if s != {} {
      var x :| x in s;
      SumTakes(s, f, x);
      SumTakes(s, g, x);
      SumAgrees(s - {x}, f, g);
    }
  }
}

module Available {
  import opened Options
  import opened Pods
  import opened Checker
  import opened Sums

  // An int-or-percent value of the policy.
  datatype Quota = Absolute(n: int) | Percent(v: int) | Broken

  function CeilOf(x: int): int { (x + 99) / 100 }

  function Scaled(q: Quota, total: int, roundUp: bool): Option<int> {
    match q
    case Absolute(n) => Some(n)
    case Percent(v) => Some(if roundUp then CeilOf(v * total) else v * total / 100)
    case Broken => None
  }

  // The controller of a Pod, if it is a CollaSet of this API group.
  datatype Owner = NoOwner | Owned(uid: Text, name: Text)

  datatype Target = Target(pod: Pod, owner: Owner)

  // What a Get of a CollaSet answers.
  datatype Lookup = NotFound | GetError | Found(uid: Text, replicas: Option<int>)

  type UnavailableFunc = Pod -> (bool, Option<int>)

  datatype Reason = RuleError | KeepMinAvailable | OverMaxUnavailable

  datatype FilterResult = FilterResult(passed: set<Text>, rejected: map<Text, Reason>, interval: Option<int>, err: bool)

  function Positively(x: int): nat {
    if x > 0 then x else 0
  }

  // ------------------------------------------------------------ unavailability

  predicate Unavailable(p: Pod, funcs: seq<UnavailableFunc>) {
    exists i :: 0 <= i < |funcs| && funcs[i](p).0
  }

  // `t` is the shortest time that a function gives that calls p unavailable.
  ghost predicate ShortestOf(p: Pod, funcs: seq<UnavailableFunc>, t: Option<int>) {
    && (t.Some? ==> exists i :: 0 <= i < |funcs| && funcs[i](p) == (true, t))
    && forall i :: (0 <= i < |funcs| && funcs[i](p).0 && funcs[i](p).1.Some?) ==> t.Some? && t.value <= funcs[i](p).1.value
  }

  // processUnavailableFunc
  method ProcessUnavailable(p: Pod, funcs: seq<UnavailableFunc>) returns (unavailable: bool, interval: Option<int>)
    ensures unavailable == Unavailable(p, funcs)
    ensures ShortestOf(p, funcs, interval)
    ensures !unavailable ==> interval == None
  {
    unavailable, interval := false, None;
    for i := 0 to |funcs|
      invariant unavailable == exists j :: 0 <= j < i && funcs[j](p).0
      invariant interval.Some? ==> exists j :: 0 <= j < i && funcs[j](p) == (true, interval)
      invariant forall j :: (0 <= j < i && funcs[j](p).0 && funcs[j](p).1.Some?) ==>
                  interval.Some? && interval.value <= funcs[j](p).1.value
    {
      var (un, t) := funcs[i](p);
      if un {
        unavailable := true;
        if t.Some? && (interval.None? || t.value < interval.value) {
          interval := t;
        }
      }
    }
  }

  // --------------------------------------------------------- missing replicas

  // A UID names one object, so all references to it agree.
  ghost predicate Consistent(targets: map<Text, Target>) {
    forall a, b ::
      (a in targets && b in targets && targets[a].owner.Owned? && targets[b].owner.Owned? &&
       targets[a].owner.uid == targets[b].owner.uid) ==> targets[a].owner == targets[b].owner
  }

  function OwnedBy(targets: map<Text, Target>, names: set<Text>, uid: Text): set<Text> {
    set n | n in names && n in targets && targets[n].owner.Owned? && targets[n].owner.uid == uid
  }

  function Uids(targets: map<Text, Target>, names: set<Text>): set<Text> {
    set n | n in names && n in targets && targets[n].owner.Owned? :: targets[n].owner.uid
  }

  function Answer(api: map<Text, Lookup>, o: Owner): Lookup
    requires o.Owned?
  {
    if o.name in api then api[o.name] else NotFound
  }

  // The replicas that an owner asks for: none if it is gone or its name was reused.
  function Desired(api: map<Text, Lookup>, o: Owner): int
    requires o.Owned?
  {
    match Answer(api, o)
    case Found(uid, replicas) => if uid != o.uid then 0 else if replicas.None? then 1 else replicas.value
    case _ => 0
  }

  // The replicas that the owner `uid` still has to create.
  ghost function Deficit(targets: map<Text, Target>, api: map<Text, Lookup>, uid: Text): int {
    var pods := OwnedBy(targets, targets.Keys, uid);
    if pods == {} then 0
    else
      var n :| n in pods;
      var d := Desired(api, targets[n].owner) - |pods|;
      if d > 0 then d else 0
  }

  // What the API server's answer about the owner makes of it.
  lemma DeficitReads(targets: map<Text, Target>, api: map<Text, Lookup>, n: Text)
    requires Consistent(targets) && n in targets && targets[n].owner.Owned?
    ensures var o := targets[n].owner;
      var current := |set m | m in targets && targets[m].owner == o|;
      Deficit(targets, api, o.uid) ==
      if o.name in api && api[o.name].Found? && api[o.name].uid == o.uid && api[o.name].replicas.Some?
      then Positively(api[o.name].replicas.value - current) else 0
  {
    var o := targets[n].owner;
    assert n in OwnedBy(targets, targets.Keys, o.uid);
    assert OwnedBy(targets, targets.Keys, o.uid) == set m | m in targets && targets[m].owner == o;
  }

  ghost function Uncreated(targets: map<Text, Target>, api: map<Text, Lookup>): int {
    Sum(Uids(targets, targets.Keys), uid => Deficit(targets, api, uid))
  }

  predicate LookupFails(targets: map<Text, Target>, api: map<Text, Lookup>) {
    exists n :: n in targets && targets[n].owner.Owned? && Answer(api, targets[n].owner) == GetError
  }

  datatype OwnerStat = OwnerStat(desired: int, current: nat)

  ghost predicate Stats(targets: map<Text, Target>, api: map<Text, Lookup>, seen: set<Text>, stats: map<Text, OwnerStat>)
    requires seen <= targets.Keys
  {
    && stats.Keys == Uids(targets, seen)
    && (forall uid :: uid in stats ==> stats[uid].current == |OwnedBy(targets, seen, uid)|)
    && forall n :: n in seen && targets[n].owner.Owned? ==>
         targets[n].owner.uid in stats && stats[targets[n].owner.uid].desired == Desired(api, targets[n].owner)
  }

  lemma OwnedByStep(targets: map<Text, Target>, seen: set<Text>, n: Text, uid: Text)
    requires n in targets && n !in seen
    ensures OwnedBy(targets, seen + {n}, uid) ==
            OwnedBy(targets, seen, uid) + if targets[n].owner.Owned? && targets[n].owner.uid == uid then {n} else {}
    ensures |OwnedBy(targets, seen + {n}, uid)| ==
            |OwnedBy(targets, seen, uid)| + if targets[n].owner.Owned? && targets[n].owner.uid == uid then 1 else 0
  {
  }

  lemma UidsStep(targets: map<Text, Target>, seen: set<Text>, n: Text)
    requires n in targets
    ensures Uids(targets, seen + {n}) == Uids(targets, seen) + if targets[n].owner.Owned? then {targets[n].owner.uid} else {}
  {
  }

  // The statistics with one more Pod of an owner.
  function Tallied(stats: map<Text, OwnerStat>, desired: int, uid: Text): map<Text, OwnerStat> {
    var stat := if uid in stats then stats[uid] else OwnerStat(desired, 0);
    stats[uid := stat.(current := stat.current + 1)]
  }

  lemma SiblingDesires(targets: map<Text, Target>, api: map<Text, Lookup>, seen: set<Text>, stats: map<Text, OwnerStat>, n: Text)
    requires Consistent(targets) && seen <= targets.Keys && n in targets && Stats(targets, api, seen, stats)
    requires targets[n].owner.Owned? && targets[n].owner.uid in stats
    ensures stats[targets[n].owner.uid].desired == Desired(api, targets[n].owner)
  {
    var m :| m in seen && targets[m].owner.Owned? && targets[m].owner.uid == targets[n].owner.uid;
    assert targets[m].owner == targets[n].owner;
  }

  lemma CurrentStep(targets: map<Text, Target>, api: map<Text, Lookup>, seen: set<Text>, stats: map<Text, OwnerStat>, n: Text, u: Text)
    requires seen <= targets.Keys && n in targets && n !in seen && Stats(targets, api, seen, stats)
    requires targets[n].owner.Owned?
    ensures var next := Tallied(stats, Desired(api, targets[n].owner), targets[n].owner.uid);
      u in next ==> next[u].current == |OwnedBy(targets, seen + {n}, u)|
  {
    OwnedByStep(targets, seen, n, u);
    if u == targets[n].owner.uid && u !in stats {
      assert OwnedBy(targets, seen, u) == {};
    }
  }

  lemma StatsStep(targets: map<Text, Target>, api: map<Text, Lookup>, seen: set<Text>, stats: map<Text, OwnerStat>, n: Text)
    requires Consistent(targets) && seen <= targets.Keys && n in targets && n !in seen && Stats(targets, api, seen, stats)
    requires targets[n].owner.Owned?
    ensures Stats(targets, api, seen + {n}, Tallied(stats, Desired(api, targets[n].owner), targets[n].owner.uid))
  {
    var uid, next := targets[n].owner.uid, Tallied(stats, Desired(api, targets[n].owner), targets[n].owner.uid);
    UidsStep(targets, seen, n);
    forall u { CurrentStep(targets, api, seen, stats, n, u); }
    if uid in stats {
      SiblingDesires(targets, api, seen, stats, n);
    }
    forall m | m in seen + {n} && targets[m].owner.Owned?
      ensures targets[m].owner.uid in next && next[targets[m].owner.uid].desired == Desired(api, targets[m].owner)
    {
      if targets[m].owner.uid == uid {
        assert targets[m].owner == targets[n].owner;
      }
    }
  }

  lemma OrphanStep(targets: map<Text, Target>, api: map<Text, Lookup>, seen: set<Text>, stats: map<Text, OwnerStat>, n: Text)
    requires seen <= targets.Keys && n in targets && n !in seen && Stats(targets, api, seen, stats)
    requires targets[n].owner.NoOwner?
    ensures Stats(targets, api, seen + {n}, stats)
  {
    UidsStep(targets, seen, n);
    forall u { OwnedByStep(targets, seen, n, u); }
  }

  function Positive(stat: OwnerStat): int {
    if stat.desired - stat.current > 0 then stat.desired - stat.current else 0
  }

  lemma StatsGiveDeficits(targets: map<Text, Target>, api: map<Text, Lookup>, stats: map<Text, OwnerStat>)
    requires Stats(targets, api, targets.Keys, stats)
    ensures stats.Keys == Uids(targets, targets.Keys)
    ensures forall uid :: uid in stats ==> Positive(stats[uid]) == Deficit(targets, api, uid)
  {
    forall uid | uid in stats ensures Positive(stats[uid]) == Deficit(targets, api, uid) {
      var m :| m in targets && targets[m].owner.Owned? && targets[m].owner.uid == uid;
      assert m in OwnedBy(targets, targets.Keys, uid);
    }
  }

  // considerOwnerReplicas, first loop: the targets are visited in any order.
  method CountByOwner(targets: map<Text, Target>, api: map<Text, Lookup>) returns (stats: map<Text, OwnerStat>, failed: bool)
    requires Consistent(targets)
    ensures failed == LookupFails(targets, api)
    ensures !failed ==> Stats(targets, api, targets.Keys, stats)
  {
    stats := map[];
    var seen: set<Text> := {};
    while seen != targets.Keys
      invariant seen <= targets.Keys
      invariant Stats(targets, api, seen, stats)
      invariant forall n :: n in seen && targets[n].owner.Owned? ==> Answer(api, targets[n].owner) != GetError
      decreases targets.Keys - seen
    {
      Unseen(seen, targets.Keys);
      var n :| n in targets.Keys - seen;
      var o := targets[n].owner;
      if o.NoOwner? {
        OrphanStep(targets, api, seen, stats, n);
      } else {
        StatsStep(targets, api, seen, stats, n);
        if o.uid !in stats {
          if Answer(api, o) == GetError {
            return stats, true;
          }
          stats := stats[o.uid := OwnerStat(Desired(api, o), 1)];
        } else {
          assert Answer(api, o) != GetError by {
            var m :| m in seen && targets[m].owner.Owned? && targets[m].owner.uid == o.uid;
            assert targets[m].owner == o;
          }
          stats := stats[o.uid := stats[o.uid].(current := stats[o.uid].current + 1)];
        }
      }
      seen := seen + {n};
    }
    return stats, false;
  }

  // considerOwnerReplicas
  method ConsiderOwnerReplicas(targets: map<Text, Target>, api: map<Text, Lookup>) returns (uncreated: int, failed: bool)
    requires Consistent(targets)
    ensures failed == LookupFails(targets, api)
    ensures !failed ==> uncreated == Uncreated(targets, api)
  {
    var stats;
    stats, failed := CountByOwner(targets, api);
    uncreated := 0;
    if failed {
      return;
    }
    StatsGiveDeficits(targets, api, stats);
    ghost var f := uid => Deficit(targets, api, uid);
    var counted: set<Text> := {};
    while counted != stats.Keys
      invariant counted <= stats.Keys
      invariant uncreated == Sum(counted, f)
      decreases stats.Keys - counted
    {
      Unseen(counted, stats.Keys);
      var uid :| uid in stats.Keys - counted;
      SumTakes(counted + {uid}, f, uid);
      assert counted + {uid} - {uid} == counted;
      var deficit := stats[uid].desired - stats[uid].current;
      if deficit > 0 {
        uncreated := uncreated + deficit;
      }
      counted := counted + {uid};
    }
    SumAgrees(counted, f, uid => Deficit(targets, api, uid));
  }

  // ------------------------------------------------------------- the approval

  datatype Rule = Rule(name: Text, maxUnavailable: Option<Quota>, minAvailable: Option<Quota>)

  predicate HasPassed(status: RuleStatus, rule: Text, pod: Text) {
    pod in status.details && rule in status.details[pod].passedRules
  }

  // The Pods that count against the budget: passed earlier, or unavailable anyway.
  function Disrupted(status: RuleStatus, rule: Text, targets: map<Text, Target>, funcs: seq<UnavailableFunc>): set<Text> {
    set n | n in targets && (HasPassed(status, rule, n) || Unavailable(targets[n].pod, funcs))
  }

  function MaxQuota(rule: Rule, total: int): Option<int> {
    if rule.maxUnavailable.None? then Some(total) else Scaled(rule.maxUnavailable.value, total, true)
  }

  function MinQuota(rule: Rule, total: int): Option<int> {
    if rule.minAvailable.None? then Some(0) else Scaled(rule.minAvailable.value, total, false)
  }

  predicate RuleFails(rule: Rule, targets: map<Text, Target>, api: map<Text, Lookup>) {
    MaxQuota(rule, |targets|).None? || MinQuota(rule, |targets|).None? || LookupFails(targets, api)
  }

  function Least(a: int, b: int): int {
    if a < b then a else b
  }

  // How many more Pods may be disrupted by the max-unavailable policy.
  ghost function Allowance(rule: Rule, targets: map<Text, Target>, api: map<Text, Lookup>, disrupted: nat): int
    requires !RuleFails(rule, targets, api)
  {
    Positively(MaxQuota(rule, |targets|).value - Uncreated(targets, api)) - disrupted
  }

  // How many more by the min-available policy.
  function Spare(rule: Rule, targets: map<Text, Target>, disrupted: nat): int
    requires MinQuota(rule, |targets|).Some?
  {
    |targets| - disrupted - MinQuota(rule, |targets|).value
  }

  // `wait` is the shortest time that an unavailable function gives for a Pod among
  // `names` that has not passed.
  ghost predicate ShortestWait(rule: Text, status: RuleStatus, targets: map<Text, Target>, funcs: seq<UnavailableFunc>,
                               names: set<Text>, wait: Option<int>)
    requires names <= targets.Keys
  {
    && (wait.Some? ==> exists n, i :: n in names && !HasPassed(status, rule, n) && 0 <= i < |funcs|
                                      && funcs[i](targets[n].pod) == (true, wait))
    && forall n, i :: (n in names && !HasPassed(status, rule, n) && 0 <= i < |funcs|
                       && funcs[i](targets[n].pod).0 && funcs[i](targets[n].pod).1.Some?)
         ==> wait.Some? && wait.value <= funcs[i](targets[n].pod).1.value
  }

  lemma WaitStep(rule: Text, status: RuleStatus, targets: map<Text, Target>, funcs: seq<UnavailableFunc>,
                 names: set<Text>, wait: Option<int>, n: Text, t: Option<int>)
    requires names <= targets.Keys && n in targets
    requires ShortestWait(rule, status, targets, funcs, names, wait)
    requires !HasPassed(status, rule, n) ==> ShortestOf(targets[n].pod, funcs, t)
    requires HasPassed(status, rule, n) ==> t == None
    ensures ShortestWait(rule, status, targets, funcs, names + {n}, Shorter(wait, t))
  {
    var w := Shorter(wait, t);
    if w.Some? {
      if w == wait {
        var m, i :| m in names && !HasPassed(status, rule, m) && 0 <= i < |funcs| && funcs[i](targets[m].pod) == (true, wait);
        assert m in names + {n};
      } else {
        var i :| 0 <= i < |funcs| && funcs[i](targets[n].pod) == (true, t);
        assert n in names + {n};
      }
    }
  }

  lemma CountedStep(base: set<Text>, seen: set<Text>, n: Text)
    requires n !in seen
    ensures base * (seen + {n}) == base * seen + if n in base then {n} else {}
    ensures |base * (seen + {n})| == |base * seen| + if n in base then 1 else 0
  {
    assert base * (seen + {n}) == base * seen + if n in base then {n} else {};
  }

  // Whether one target is disrupted, and when it will have warmed up if it is not
  // passed but unavailable.
  method Inspect(rule: Text, status: RuleStatus, n: Text, p: Pod, funcs: seq<UnavailableFunc>) returns (hit: bool, t: Option<int>)
    ensures hit == (HasPassed(status, rule, n) || Unavailable(p, funcs))
    ensures if HasPassed(status, rule, n) then t == None else ShortestOf(p, funcs, t)
    ensures !hit ==> t == None
  {
    if HasPassed(status, rule, n) {
      return true, None;
    }
    hit, t := ProcessUnavailable(p, funcs);
  }

  // The first loop: who is disrupted, and when the first of them will have warmed up.
  method CountDisrupted(rule: Text, status: RuleStatus, targets: map<Text, Target>, funcs: seq<UnavailableFunc>)
    returns (disrupted: nat, available: nat, wait: Option<int>)
    ensures disrupted == |Disrupted(status, rule, targets, funcs)| && available == |targets| - disrupted
    ensures ShortestWait(rule, status, targets, funcs, targets.Keys, wait)
  {
    disrupted, available, wait := 0, 0, None;
    ghost var base := Disrupted(status, rule, targets, funcs);
    var seen: set<Text> := {};
    while seen != targets.Keys
      invariant seen <= targets.Keys
      invariant disrupted == |base * seen| && available + disrupted == |seen|
      invariant ShortestWait(rule, status, targets, funcs, seen, wait)
      decreases targets.Keys - seen
    {
      Unseen(seen, targets.Keys);
      var n :| n in targets.Keys - seen;
      CountedStep(base, seen, n);
      var hit, t := Inspect(rule, status, n, targets[n].pod, funcs);
      WaitStep(rule, status, targets, funcs, seen, wait, n, t);
      wait := Shorter(wait, t);
      if hit {
        disrupted := disrupted + 1;
      } else {
        available := available + 1;
      }
      seen := seen + {n};
    }
    assert base * seen == base;
  }

  // What the second loop has done with the subjects in `seen` that are not disrupted
  // yet, when `allow` and `spare` approvals were open at its start.
  ghost predicate Approving(seen: set<Text>, base: set<Text>, approved: set<Text>, overMax: set<Text>, keepMin: set<Text>,
                            allow: int, spare: int) {
    && (forall n :: n in approved || n in overMax || n in keepMin <==> n in seen && n !in base)
    && (forall n :: n in approved ==> n !in overMax && n !in keepMin)
    && |approved| <= Positively(allow) && |approved| <= Positively(spare)
    && (overMax != {} ==> allow <= |approved|)
    && (keepMin != {} ==> spare <= |approved|)
  }

  lemma ApprovedExactly(subjects: set<Text>, base: set<Text>, approved: set<Text>, overMax: set<Text>, keepMin: set<Text>,
                        allow: int, spare: int)
    requires Approving(subjects, base, approved, overMax, keepMin, allow, spare)
    ensures |approved| == Least(|subjects - base|, Least(Positively(allow), Positively(spare)))
  {
    SubsetSize(approved, subjects - base);
    if overMax == {} && keepMin == {} {
      assert approved == subjects - base;
    }
  }

  lemma ApproveStep(seen: set<Text>, base: set<Text>, approved: set<Text>, overMax: set<Text>, keepMin: set<Text>,
                    allow: int, spare: int, n: Text)
    requires Approving(seen, base, approved, overMax, keepMin, allow, spare) && n !in seen
    ensures n in base ==> Approving(seen + {n}, base, approved, overMax, keepMin, allow, spare)
    ensures n !in base && allow <= |approved| ==> Approving(seen + {n}, base, approved, overMax + {n}, keepMin, allow, spare)
    ensures n !in base && spare <= |approved| ==> Approving(seen + {n}, base, approved, overMax, keepMin + {n}, allow, spare)
    ensures n !in base && |approved| < allow && |approved| < spare ==>
              Approving(seen + {n}, base, approved + {n}, overMax, keepMin, allow, spare)
    ensures n !in approved
  {
  }

  // The second loop: approve available subjects while both policies allow it.
  method Approve(rule: Text, status: RuleStatus, targets: map<Text, Target>, funcs: seq<UnavailableFunc>, subjects: set<Text>,
                 allow: int, spare: int)
    returns (passed: set<Text>, overMax: set<Text>, keepMin: set<Text>)
    requires subjects <= targets.Keys
    ensures var base := Disrupted(status, rule, targets, funcs);
      && (forall n :: n in base ==> (n in passed <==> n in subjects))
      && Approving(subjects, base, passed - base, overMax, keepMin, allow, spare)
  {
    passed, overMax, keepMin := {}, {}, {};
    var granted := 0;
    ghost var base := Disrupted(status, rule, targets, funcs);
    ghost var approved: set<Text> := {};
    var seen: set<Text> := {};
    while seen != subjects
      invariant seen <= subjects
      invariant forall n :: n in passed <==> n in approved || (n in seen && n in base)
      invariant granted == |approved|
      invariant Approving(seen, base, approved, overMax, keepMin, allow, spare)
      decreases subjects - seen
    {
      Unseen(seen, subjects);
      var n :| n in subjects - seen;
      ApproveStep(seen, base, approved, overMax, keepMin, allow, spare, n);
      var pass := HasPassed(status, rule, n);
      if !pass {
        var unavailable, _ := ProcessUnavailable(targets[n].pod, funcs);
        pass := unavailable;
      }
      if pass {
        passed := passed + {n};
      } else if allow - granted > 0 {
        if spare - granted < 1 {
          keepMin := keepMin + {n};
        } else {
          passed, granted, approved := passed + {n}, granted + 1, approved + {n};
        }
      } else {
        overMax := overMax + {n};
      }
      seen := seen + {n};
    }
    assert passed - base == approved;
  }

  function RejectAll(subjects: set<Text>): FilterResult {
    FilterResult({}, map n | n in subjects :: RuleError, None, true)
  }

  // What Filter promises when the rule can be evaluated: it passes the disrupted
  // subjects and exactly as many others as both policies allow, and names the policy
  // that stops each of the rest.
  ghost predicate Filtered(rule: Rule, status: RuleStatus, targets: map<Text, Target>, api: map<Text, Lookup>,
                           funcs: seq<UnavailableFunc>, subjects: set<Text>, r: FilterResult)
    requires !RuleFails(rule, targets, api)
  {
    var base := Disrupted(status, rule.name, targets, funcs);
    var allow, spare := Allowance(rule, targets, api, |base|), Spare(rule, targets, |base|);
    var granted := |r.passed - base|;
    && r.passed <= subjects && (forall n :: n in base ==> (n in r.passed <==> n in subjects))
    && granted == Least(|subjects - base|, Least(Positively(allow), Positively(spare)))
    && r.rejected.Keys == subjects - r.passed
    && (forall n :: n in r.rejected && r.rejected[n] == KeepMinAvailable ==> spare - granted < 1)
    && (forall n :: n in r.rejected && r.rejected[n] == OverMaxUnavailable ==> allow - granted <= 0)
    && (forall n :: n in r.rejected ==> r.rejected[n] != RuleError)
    && r.err == r.interval.Some?
    && ShortestWait(rule.name, status, targets, funcs, targets.Keys, r.interval)
  }

  lemma FilteredByLoops(rule: Rule, status: RuleStatus, targets: map<Text, Target>, api: map<Text, Lookup>,
                        funcs: seq<UnavailableFunc>, subjects: set<Text>,
                        passed: set<Text>, overMax: set<Text>, keepMin: set<Text>, wait: Option<int>)
    requires !RuleFails(rule, targets, api) && subjects <= targets.Keys
    requires var base := Disrupted(status, rule.name, targets, funcs);
      && (forall n :: n in base ==> (n in passed <==> n in subjects))
      && Approving(subjects, base, passed - base, overMax, keepMin, Allowance(rule, targets, api, |base|), Spare(rule, targets, |base|))
    requires ShortestWait(rule.name, status, targets, funcs, targets.Keys, wait)
    ensures Filtered(rule, status, targets, api, funcs, subjects, FilterResult(passed, Reasons(overMax, keepMin), wait, wait.Some?))
  {
    var base := Disrupted(status, rule.name, targets, funcs);
    LoopsSortOut(subjects, base, passed, overMax, keepMin, Allowance(rule, targets, api, |base|), Spare(rule, targets, |base|));
  }

  // What the second loop has made of the subjects, in terms of sets alone.
  lemma LoopsSortOut(subjects: set<Text>, base: set<Text>, passed: set<Text>, overMax: set<Text>, keepMin: set<Text>,
                     allow: int, spare: int)
    requires forall n :: n in base ==> (n in passed <==> n in subjects)
    requires Approving(subjects, base, passed - base, overMax, keepMin, allow, spare)
    ensures passed <= subjects && Reasons(overMax, keepMin).Keys == subjects - passed
    ensures |passed - base| == Least(|subjects - base|, Least(Positively(allow), Positively(spare)))
    ensures forall n :: n in keepMin ==> spare - |passed - base| < 1
    ensures forall n :: n in overMax ==> allow - |passed - base| <= 0
  {
    ApprovedExactly(subjects, base, passed - base, overMax, keepMin, allow, spare);
    forall n ensures n in passed ==> n in subjects
             ensures n in overMax || n in keepMin <==> n in subjects && n !in passed {
      assert n in passed - base <==> n in passed && n !in base;
    }
  }

  function Reasons(overMax: set<Text>, keepMin: set<Text>): map<Text, Reason> {
    map n | n in overMax + keepMin :: if n in overMax then OverMaxUnavailable else KeepMinAvailable
  }

  // q is the number of Pods that a max-unavailable policy over `total` targets allows: a
  // percentage is rounded up, and without a policy all may go.
  predicate CapIs(policy: Option<Quota>, total: nat, q: int) {
    match policy
    case None => q == total
    case Some(Absolute(n)) => q == n
    case Some(Percent(v)) => 100 * q >= v * total && 100 * (q - 1) < v * total
    case Some(Broken) => false
  }

  // m is the number that a min-available policy demands: a percentage is rounded down,
  // and without a policy nobody has to stay.
  predicate FloorIs(policy: Option<Quota>, total: nat, m: int) {
    match policy
    case None => m == 0
    case Some(Absolute(n)) => m == n
    case Some(Percent(v)) => 100 * m <= v * total && 100 * (m + 1) > v * total
    case Some(Broken) => false
  }

  // The rule computes these numbers, and there is only one of each.
  lemma QuotasRead(rule: Rule, total: nat, q: int, m: int)
    ensures CapIs(rule.maxUnavailable, total, q) <==> MaxQuota(rule, total) == Some(q)
    ensures FloorIs(rule.minAvailable, total, m) <==> MinQuota(rule, total) == Some(m)
  {
    if rule.maxUnavailable.Some? && rule.maxUnavailable.value.Percent? {
      PercentRead(rule.maxUnavailable.value.v * total, q);
    }
    if rule.minAvailable.Some? && rule.minAvailable.value.Percent? {
      PercentRead(rule.minAvailable.value.v * total, m);
    }
  }

  lemma PercentRead(x: int, q: int)
    ensures 100 * q >= x && 100 * (q - 1) < x <==> q == CeilOf(x)
    ensures 100 * q <= x && 100 * (q + 1) > x <==> q == x / 100
  {
  }

  // So many disrupted Pods out of `total` respect both policies.
  predicate Respects(rule: Rule, total: nat, disrupted: nat) {
    && (match rule.maxUnavailable
        case Some(Absolute(n)) => disrupted <= n
        case Some(Percent(v)) => 100 * disrupted < v * total + 100
        case _ => true)
    && (match rule.minAvailable
        case Some(Absolute(n)) => total - disrupted >= n
        case Some(Percent(v)) => 100 * (total - disrupted) > v * total - 100
        case _ => true)
  }

  lemma RespectsReads(rule: Rule, total: nat, disrupted: nat)
    requires disrupted <= total
    ensures Respects(rule, total, disrupted) <==>
      && (MaxQuota(rule, total).Some? ==> disrupted <= MaxQuota(rule, total).value)
      && (MinQuota(rule, total).Some? ==> total - disrupted >= MinQuota(rule, total).value)
  {
    if rule.maxUnavailable.Some? && rule.maxUnavailable.value.Percent? {
      PercentBound(rule.maxUnavailable.value.v * total, disrupted);
    }
    if rule.minAvailable.Some? && rule.minAvailable.value.Percent? {
      PercentBound(rule.minAvailable.value.v * total, total - disrupted);
    }
  }

  lemma PercentBound(x: int, n: int)
    ensures n <= CeilOf(x) <==> 100 * n < x + 100
    ensures n >= x / 100 <==> 100 * n > x - 100
  {
  }

  // The quotas of the policy, if they can be read.
  method Quotas(rule: Rule, total: nat) returns (ok: bool, maxQuota: int, minQuota: int)
    ensures ok == (rule.maxUnavailable != Some(Broken) && rule.minAvailable != Some(Broken))
    ensures ok ==> CapIs(rule.maxUnavailable, total, maxQuota) && FloorIs(rule.minAvailable, total, minQuota)
  {
    ok, maxQuota, minQuota := true, total, 0;
    if rule.maxUnavailable.Some? {
      var q := Scaled(rule.maxUnavailable.value, total, true);
      if q.None? {
        return false, 0, 0;
      }
      maxQuota := q.value;
    }
    if rule.minAvailable.Some? {
      var q := Scaled(rule.minAvailable.value, total, false);
      if q.None? {
        return false, 0, 0;
      }
      minQuota := q.value;
    }
    QuotasRead(rule, total, maxQuota, minQuota);
  }

  // What the quotas and counts of Filter have to do with its allowances.
  lemma AllowancesRead(rule: Rule, targets: map<Text, Target>, api: map<Text, Lookup>, maxQuota: int, minQuota: int, n: nat)
    requires MaxQuota(rule, |targets|) == Some(maxQuota) && MinQuota(rule, |targets|) == Some(minQuota) && !LookupFails(targets, api)
    ensures !RuleFails(rule, targets, api)
    ensures Allowance(rule, targets, api, n) == Positively(maxQuota - Uncreated(targets, api)) - n
    ensures Spare(rule, targets, n) == |targets| - n - minQuota
  {
  }

  // The two loops of Filter, under the allowances of the rule.
  method FilterWithin(rule: Rule, status: RuleStatus, targets: map<Text, Target>, ghost api: map<Text, Lookup>,
                      funcs: seq<UnavailableFunc>, subjects: set<Text>, allow: int, minQuota: int) returns (r: FilterResult)
    requires subjects <= targets.Keys && !RuleFails(rule, targets, api)
    requires forall n: nat :: Allowance(rule, targets, api, n) == allow - n && Spare(rule, targets, n) == |targets| - n - minQuota
    ensures Filtered(rule, status, targets, api, funcs, subjects, r)
  {
    var disrupted, available, wait := CountDisrupted(rule.name, status, targets, funcs);
    var passed, overMax, keepMin := Approve(rule.name, status, targets, funcs, subjects, allow - disrupted, available - minQuota);
    FilteredByLoops(rule, status, targets, api, funcs, subjects, passed, overMax, keepMin, wait);
    return FilterResult(passed, Reasons(overMax, keepMin), wait, wait.Some?);
  }

  // Filter passes the disrupted subjects and as many others as both policies allow: none
  // beyond them, and it holds one back only where one more would be.  q is the cap and m
  // the floor of the policies.
  ghost predicate AsManyAsAllowed(q: int, m: int, total: nat, uncreated: int, base: set<Text>, subjects: set<Text>, r: FilterResult) {
    var after := |base| + |r.passed - base|;
    && r.passed <= subjects && base * subjects <= r.passed && r.rejected.Keys == subjects - r.passed
    && (r.passed - base != {} ==> after + uncreated <= q && total - after >= m)
    && forall n :: n in r.rejected ==>
         match r.rejected[n]
         case OverMaxUnavailable => after + uncreated + 1 > q
         case KeepMinAvailable => total - after - 1 < m
         case RuleError => false
  }

  lemma FilteredReads(rule: Rule, status: RuleStatus, targets: map<Text, Target>, api: map<Text, Lookup>,
                      funcs: seq<UnavailableFunc>, subjects: set<Text>, r: FilterResult, q: int, m: int)
    requires !RuleFails(rule, targets, api) && Filtered(rule, status, targets, api, funcs, subjects, r)
    requires CapIs(rule.maxUnavailable, |targets|, q) && FloorIs(rule.minAvailable, |targets|, m)
    ensures AsManyAsAllowed(q, m, |targets|, Uncreated(targets, api), Disrupted(status, rule.name, targets, funcs), subjects, r)
  {
    QuotasRead(rule, |targets|, q, m);
  }

  // Filter of the AvailableRuler.
  method Filter(rule: Rule, status: RuleStatus, targets: map<Text, Target>, api: map<Text, Lookup>,
                funcs: seq<UnavailableFunc>, subjects: set<Text>) returns (r: FilterResult)
    requires subjects <= targets.Keys && Consistent(targets)
    ensures RuleFails(rule, targets, api) ==> r == RejectAll(subjects)
    ensures RuleFails(rule, targets, api) || Filtered(rule, status, targets, api, funcs, subjects, r)
    ensures r.interval.Some? ==> r.err
    ensures r.err && r.interval.None? <==>
      || rule.maxUnavailable == Some(Broken) || rule.minAvailable == Some(Broken)
      || exists n :: n in targets && targets[n].owner.Owned? && targets[n].owner.name in api && api[targets[n].owner.name] == GetError
    ensures forall q, m :: CapIs(rule.maxUnavailable, |targets|, q) && FloorIs(rule.minAvailable, |targets|, m)
                           && !(r.err && r.interval.None?) ==>
      AsManyAsAllowed(q, m, |targets|, Uncreated(targets, api), Disrupted(status, rule.name, targets, funcs), subjects, r)
  {
    var ok, maxQuota, minQuota := Quotas(rule, |targets|);
    QuotasRead(rule, |targets|, maxQuota, minQuota);
    if !ok {
      return RejectAll(subjects);
    }
    var uncreated, failed := ConsiderOwnerReplicas(targets, api);
    if failed {
      return RejectAll(subjects);
    }
    var allow := maxQuota - uncreated;
    if allow < 0 {
      allow := 0;
    }
    forall n: nat ensures Allowance(rule, targets, api, n) == allow - n && Spare(rule, targets, n) == |targets| - n - minQuota {
      AllowancesRead(rule, targets, api, maxQuota, minQuota, n);
    }
    r := FilterWithin(rule, status, targets, api, funcs, subjects, allow, minQuota);
    forall q, m | CapIs(rule.maxUnavailable, |targets|, q) && FloorIs(rule.minAvailable, |targets|, m)
      ensures AsManyAsAllowed(q, m, |targets|, Uncreated(targets, api), Disrupted(status, rule.name, targets, funcs), subjects, r)
    {
      FilteredReads(rule, status, targets, api, funcs, subjects, r, q, m);
    }
  }
}
