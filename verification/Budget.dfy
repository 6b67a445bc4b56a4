// The disruption budget over whole runs: one AvailablePolicy rule for the pre-check,
// the Pods that it targets, and everything that can happen to them.

module Rounds {
  import opened Options
  import opened Pods
  import opened Checker
  import opened Machine
  import opened Phases
  import opened Available
  import opened RuleController
  import Processor

  // The registered unavailable functions: not ready or terminal, and out of service.
  const FUNCS: seq<UnavailableFunc> := [(p: Pod) => (!p.ready || p.terminal, None), (p: Pod) => (!Pods.Available(p), None)]

  predicate Out(p: Pod) {
    !p.ready || p.terminal || !Pods.Available(p)
  }

  lemma UnavailableIsOut(p: Pod)
    ensures Unavailable(p, FUNCS) <==> Out(p)
  {
    assert FUNCS[0](p).0 == (!p.ready || p.terminal);
    assert FUNCS[1](p).0 == !Pods.Available(p);
  }

  function InStageOf(targets: map<Text, Target>, stage: Stage): set<Text> {
    set n | n in targets && InStage(targets[n].pod.labels, stage)
  }

  function PodsOf(targets: map<Text, Target>): map<Text, Pod> {
    map n | n in targets :: targets[n].pod
  }

  // What Filter may answer in a round.
  ghost predicate FilterAnswers(rule: Available.Rule, status: RuleStatus, targets: map<Text, Target>, api: map<Text, Lookup>, f: FilterResult) {
    var subjects := InStageOf(targets, PreCheckStage);
    if RuleFails(rule, targets, api) then f == RejectAll(subjects)
    else Filtered(rule, status, targets, api, FUNCS, subjects, f)
  }

  // The rule as the chain sees it: no skip, condition or filter.
  function ChainRule(name: Text, f: FilterResult): Processor.Rule {
    var interval := if f.interval.None? then None else Some(f.interval.value * 1_000_000_000);
    var answer := Processor.RulerResult(f.passed, f.rejected.Keys, f.err, interval, None);
    Processor.Rule(name, false, false, None, PreCheckStage, 0, _ => false, None, None, Some(_ => answer))
  }

  function StageResult(targets: map<Text, Target>, stage: Stage, rules: seq<Processor.Rule>): Processor.ProcessResult {
    var inStage := InStageOf(targets, stage);
    if inStage == {} then Processor.NOTHING
    else Processor.Closing(Processor.ApplyAll(Processor.Opening(inStage), rules, PodsOf(targets)))
  }

  function PreFinish(name: Text, targets: map<Text, Target>, f: FilterResult): Finish {
    Finish(PreCheckStage, StageResult(targets, PreCheckStage, [ChainRule(name, f)]))
  }

  function PostFinish(targets: map<Text, Target>): Finish {
    Finish(PostCheckStage, StageResult(targets, PostCheckStage, []))
  }

  // The status that a reconcile of the rule writes, when its stages finish in the one
  // order or the other.
  function StatusAfter(name: Text, targets: map<Text, Target>, f: FilterResult, preFirst: bool): RuleStatus {
    var pre, post := PreFinish(name, targets, f), PostFinish(targets);
    RuleStatus(targets.Keys, MergeAll(if preFirst then [pre, post] else [post, pre]).details)
  }

  ghost predicate AllSixPhased(targets: map<Text, Target>) {
    forall n :: n in targets ==> SixPhased(targets[n].pod.labels)
  }

  lemma PreResult(name: Text, targets: map<Text, Target>, f: FilterResult, n: Text)
    requires f.passed <= InStageOf(targets, PreCheckStage) && f.rejected.Keys == InStageOf(targets, PreCheckStage) - f.passed
    ensures var r := PreFinish(name, targets, f).result;
      && (n in r.passRules <==> n in InStageOf(targets, PreCheckStage))
      && (n in r.passRules ==> r.passRules[n] == if n in f.passed then {name} else {})
      && (n in r.rejected <==> n in InStageOf(targets, PreCheckStage) && n !in f.passed)
  {
    var inStage, rule, pods := InStageOf(targets, PreCheckStage), ChainRule(name, f), PodsOf(targets);
    var b := Processor.Opening(inStage);
    ChainOfOne(b, rule, pods);
    NobodyIsSkipped(inStage, name, f, pods);
  }

  lemma ChainOfOne(b: Processor.Books, rule: Processor.Rule, pods: map<Text, Pod>)
    ensures Processor.ApplyAll(b, [rule], pods) == Processor.Apply(b, rule, pods)
  {
    assert [rule][1..] == [];
  }

  lemma NobodyIsSkipped(inStage: set<Text>, name: Text, f: FilterResult, pods: map<Text, Pod>)
    ensures Processor.Subjects(Processor.Opening(inStage), ChainRule(name, f), pods) == inStage
  {
  }

  lemma PostResult(targets: map<Text, Target>, n: Text)
    ensures var r := PostFinish(targets).result;
      && (n in r.passRules <==> n in InStageOf(targets, PostCheckStage))
      && (n in r.passRules ==> r.passRules[n] == {})
      && r.rejected == map[]
  {
  }

  // What a round publishes: the rule has passed exactly the Pods that Filter passed,
  // and only those may leave the pre-check.
  lemma RoundPublishes(name: Text, targets: map<Text, Target>, f: FilterResult, preFirst: bool, n: Text)
    requires AllSixPhased(targets)
    requires f.passed <= InStageOf(targets, PreCheckStage) && f.rejected.Keys == InStageOf(targets, PreCheckStage) - f.passed
    ensures var status := StatusAfter(name, targets, f, preFirst);
      && (HasPassed(status, name, n) <==> n in f.passed)
      && (n in targets ==> (Checker.Permits(status, n, Some(PreCheckStage)) <==> n in f.passed))
  {
    var pre, post := PreFinish(name, targets, f), PostFinish(targets);
    PreResult(name, targets, f, n);
    PostResult(targets, n);
    if n in targets {
      SixPhasedIsInOneStage(targets[n].pod.labels);
    }
    if preFirst {
      MergeTwoKey(pre, post, n);
    } else {
      MergeTwoKey(post, pre, n);
    }
  }
}

module Budget {
  import opened Options
  import opened Pods
  import opened Admission
  import opened Server
  import opened Client
  import opened Checker
  import opened Controller
  import opened Machine
  import opened Shapes
  import opened Phases
  import opened Sums
  import opened Available
  import opened Rounds

  // The targets as the server holds them, and the published status of the rule.
  datatype World = World(targets: map<Text, Target>, status: RuleStatus)

  datatype Step =
    | Rounding(api: map<Text, Lookup>, f: FilterResult, preFirst: bool)   // the rule is reconciled
    | Moving(name: Text, move: Move, now: Text)                           // a Pod is written
    | Deleting(name: Text)                                                // a Pod is gone
    | Creating(name: Text, successor: Target)                                 // a Pod is there

  function With(w: World, n: Text, p: Pod): World
    requires n in w.targets
  {
    w.(targets := w.targets[n := w.targets[n].(pod := p)])
  }

  function After(rule: Available.Rule, w: World, s: Step): World {
    match s
    case Rounding(_, f, preFirst) => w.(status := StatusAfter(rule.name, w.targets, f, preFirst))
    case Moving(n, mv, now) => if n in w.targets then With(w, n, Next(w.targets[n].pod, mv, now)) else w
    case Deleting(n) => w.(targets := w.targets - {n})
    case Creating(n, t) => w.(targets := w.targets[n := t])
  }

  // Writes by others do not take a Pod out of service.
  ghost predicate Considerate(p: Pod, mv: Move) {
    mv.Touches? && !Out(p) ==> !Out(mv.to)
  }

  // A rule round answers as Filter does; a Pod is written in a guarded way, and passes
  // the pre-check only with the rule's permit.
  ghost predicate Allowed(rule: Available.Rule, w: World, s: Step) {
    match s
    case Rounding(api, f, _) => FilterAnswers(rule, w.status, w.targets, api, f)
    case Moving(n, mv, _) =>
      && n in w.targets && Enabled(w.targets[n].pod, mv) && Guarded(w.targets[n].pod, mv) && Considerate(w.targets[n].pod, mv)
      && (mv == Passes(PreCheckStage) ==> Checker.Permits(w.status, n, Some(PreCheckStage)))
    case _ => true
  }

  // The Pods that count against the budget: passed in the status, or out of service.
  function Charged(rule: Available.Rule, w: World): set<Text> {
    set n | n in w.targets && (HasPassed(w.status, rule.name, n) || Out(w.targets[n].pod))
  }

  lemma ChargedIsDisrupted(rule: Available.Rule, w: World)
    ensures Charged(rule, w) == Disrupted(w.status, rule.name, w.targets, FUNCS)
  {
    forall n | n in w.targets { UnavailableIsOut(w.targets[n].pod); }
  }

  // Nobody has the rule's permit without being charged for it.
  ghost predicate Sincere(rule: Available.Rule, status: RuleStatus) {
    forall n :: n in status.targets && Checker.Permits(status, n, Some(PreCheckStage)) ==> HasPassed(status, rule.name, n)
  }

  ghost predicate WellKept(rule: Available.Rule, w: World) {
    AllSixPhased(w.targets) && Sincere(rule, w.status)
  }

  // --------------------------------------------------------- moves of one Pod

  // Only the pre-check takes an available Pod out of service.
  lemma TrafficKept(p: Pod, mv: Move, now: Text, ph: Phase, id: Text, t: Text)
    requires InPhase(p.labels, ph, id, t) && Enabled(p, mv) && Guarded(p, mv)
    requires mv != Passes(PreCheckStage) && Pods.Available(p) && !mv.GoesOffline?
    ensures Pods.Available(Next(p, mv, now))
  {
    var sent := Sent(p, mv, now);
    MoveFits(p, mv, ph, id, t);
    SentShape(p, mv, now, ph, id, t);
    PhaseIds(p.labels, ph, id, t);
    SentMarksFit(ph, mv, id, t);
    SentCutsNothing(ph, mv);
    SentStaysAvailable(p, mv, now);
    AdmissionShape(p.labels, sent, IdAfter(id, mv), TypeAfter(t, mv), SentMarks(ph, mv), PermitSent(ph, mv), now);
  }

  lemma SentCutsNothing(ph: Phase, mv: Move)
    requires mv != Passes(PreCheckStage)
    ensures !CutsTraffic(SentMarks(ph, mv))
  {
  }

  lemma SentStaysAvailable(p: Pod, mv: Move, now: Text)
    requires Enabled(p, mv) && Pods.Available(p) && !mv.GoesOffline?
    ensures Pods.Available(Sent(p, mv, now))
  {
    assert LifecycleKey(ServiceAvailable);
  }

  // A move takes a Pod out of service only when its pre-check is passed.
  lemma MoveKeepsInService(p: Pod, mv: Move, now: Text)
    requires SixPhased(p.labels) && Enabled(p, mv) && Guarded(p, mv) && Considerate(p, mv)
    ensures SixPhased(Next(p, mv, now).labels)
    ensures mv != Passes(PreCheckStage) && !Out(p) ==> !Out(Next(p, mv, now))
  {
    var ph, id, t :| InPhase(p.labels, ph, id, t);
    PhaseStep(p, mv, now, ph, id, t);
    if mv != Passes(PreCheckStage) && !Out(p) {
      TrafficKept(p, mv, now, ph, id, t);
    }
  }

  lemma MoveCharges(rule: Available.Rule, w: World, n: Text, mv: Move, now: Text)
    requires Sincere(rule, w.status) && AllSixPhased(w.targets) && Allowed(rule, w, Moving(n, mv, now))
    requires mv == Passes(PreCheckStage) ==> n in w.status.targets || n in Charged(rule, w)
    ensures var v := After(rule, w, Moving(n, mv, now)); AllSixPhased(v.targets) && Charged(rule, v) <= Charged(rule, w)
  {
    MoveKeepsInService(w.targets[n].pod, mv, now);
  }

  // ------------------------------------------------------------ a rule round

  lemma {:induction false} SumIsNat<T(!new)>(s: set<T>, f: T -> int)
    requires forall x :: x in s ==> f(x) >= 0
    ensures Sum(s, f) >= 0
    decreases |s|
  {
    if s != {} {
      var x :| x in s;
      SumTakes(s, f, x);
      SumIsNat(s - {x}, f);
    }
  }

  lemma UncreatedIsNat(targets: map<Text, Target>, api: map<Text, Lookup>)
    ensures Uncreated(targets, api) >= 0
  {
    SumIsNat(Uids(targets, targets.Keys), uid => Deficit(targets, api, uid));
  }

  // A round charges the Pods that it newly passes, and no others.
  lemma RoundCharges(rule: Available.Rule, w: World, s: Step)
    requires WellKept(rule, w) && s.Rounding? && Allowed(rule, w, s)
    ensures var v := After(rule, w, s);
      && WellKept(rule, v) && v.targets == w.targets && v.status.targets == w.targets.Keys
      && Charged(rule, v) <= Charged(rule, w) + s.f.passed
  {
    ChargedIsDisrupted(rule, w);
    forall n
      ensures var v := After(rule, w, s); HasPassed(v.status, rule.name, n) <==> n in s.f.passed
      ensures var v := After(rule, w, s); n in w.targets ==> (Checker.Permits(v.status, n, Some(PreCheckStage)) <==> n in s.f.passed)
    {
      RoundPublishes(rule.name, w.targets, s.f, s.preFirst, n);
    }
  }

  lemma UnionSize(a: set<Text>, b: set<Text>, c: set<Text>)
    requires c <= a + b
    ensures |c| <= |a| + |b - a|
  {
    assert a + b == a + (b - a);
    SubsetSize(c, a + b);
  }

  lemma FilterGrants(rule: Available.Rule, status: RuleStatus, targets: map<Text, Target>, api: map<Text, Lookup>, f: FilterResult)
    requires FilterAnswers(rule, status, targets, api, f)
    ensures var base := Disrupted(status, rule.name, targets, FUNCS);
      var after := |base| + |f.passed - base|;
      f.passed - base != {} ==>
        && !RuleFails(rule, targets, api)
        && after <= MaxQuota(rule, |targets|).value - Uncreated(targets, api)
        && |targets| - after >= MinQuota(rule, |targets|).value
  {
  }

  // How many Pods a round may add: none beyond either policy.
  lemma RoundGrants(rule: Available.Rule, w: World, s: Step)
    requires WellKept(rule, w) && s.Rounding? && Allowed(rule, w, s)
    ensures var before, after := |Charged(rule, w)|, |Charged(rule, After(rule, w, s))|;
      after > before ==>
        && !RuleFails(rule, w.targets, s.api)
        && after <= MaxQuota(rule, |w.targets|).value - Uncreated(w.targets, s.api)
        && |w.targets| - after >= MinQuota(rule, |w.targets|).value
  {
    RoundCharges(rule, w, s);
    ChargedIsDisrupted(rule, w);
    FilterGrants(rule, w.status, w.targets, s.api, s.f);
    UnionSize(Charged(rule, w), s.f.passed, Charged(rule, After(rule, w, s)));
  }

  // ------------------------------------------------------------- the budget

  // The charged Pods respect both policies.
  ghost predicate WithinBudget(rule: Available.Rule, w: World) {
    Respects(rule, |w.targets|, |Charged(rule, w)|)
  }

  lemma WithinQuotas(rule: Available.Rule, w: World)
    ensures var total, charged := |w.targets|, |Charged(rule, w)|;
      WithinBudget(rule, w) <==>
        && (MaxQuota(rule, total).Some? ==> charged <= MaxQuota(rule, total).value)
        && (MinQuota(rule, total).Some? ==> total - charged >= MinQuota(rule, total).value)
  {
    SubsetSize(Charged(rule, w), w.targets.Keys);
    RespectsReads(rule, |w.targets|, |Charged(rule, w)|);
  }

  lemma RoundKeepsBudget(rule: Available.Rule, w: World, s: Step)
    requires WellKept(rule, w) && WithinBudget(rule, w) && Allowed(rule, w, s) && s.Rounding?
    ensures WithinBudget(rule, After(rule, w, s))
  {
    WithinQuotas(rule, w);
    WithinQuotas(rule, After(rule, w, s));
    RoundGrants(rule, w, s);
    UncreatedIsNat(w.targets, s.api);
  }

  lemma MoveKeepsBudget(rule: Available.Rule, w: World, v: World)
    requires WithinBudget(rule, w) && Charged(rule, v) <= Charged(rule, w) && v.targets.Keys == w.targets.Keys
    ensures WithinBudget(rule, v)
  {
    assert |v.targets.Keys| == |w.targets.Keys|;
    SubsetSize(Charged(rule, v), Charged(rule, w));
  }

  lemma StepKeepsBudget(rule: Available.Rule, w: World, s: Step)
    requires WellKept(rule, w) && WithinBudget(rule, w) && Allowed(rule, w, s)
    requires s.Rounding? || s.Moving?
    requires w.targets.Keys <= w.status.targets
    ensures var v := After(rule, w, s);
      && WellKept(rule, v) && WithinBudget(rule, v) && v.targets.Keys == w.targets.Keys && v.targets.Keys <= v.status.targets
  {
    var v := After(rule, w, s);
    if s.Rounding? {
      RoundCharges(rule, w, s);
      RoundKeepsBudget(rule, w, s);
    } else {
      MoveCharges(rule, w, s.name, s.move, s.now);
      assert v.targets.Keys == w.targets.Keys;
      MoveKeepsBudget(rule, w, v);
    }
  }

  function Run(rule: Available.Rule, w: World, steps: seq<Step>): World
    decreases |steps|
  {
    if steps == [] then w else Run(rule, After(rule, w, steps[0]), steps[1..])
  }

  // A run over fixed targets.
  ghost predicate Legal(rule: Available.Rule, w: World, steps: seq<Step>)
    decreases |steps|
  {
    steps == [] ||
    ((steps[0].Rounding? || steps[0].Moving?) && Allowed(rule, w, steps[0]) && Legal(rule, After(rule, w, steps[0]), steps[1..]))
  }

  lemma {:induction false} BudgetHolds(rule: Available.Rule, w: World, steps: seq<Step>)
    requires WellKept(rule, w) && WithinBudget(rule, w) && w.targets.Keys <= w.status.targets && Legal(rule, w, steps)
    ensures var v := Run(rule, w, steps); WellKept(rule, v) && WithinBudget(rule, v) && v.targets.Keys == w.targets.Keys
    decreases |steps|
  {
    if steps != [] {
      StepKeepsBudget(rule, w, steps[0]);
      BudgetHolds(rule, After(rule, w, steps[0]), steps[1..]);
    }
  }

  function OutOfService(w: World): set<Text> {
    set n | n in w.targets && var p := w.targets[n].pod; !p.ready || p.terminal || ServiceAvailable !in p.labels
  }

  ghost predicate Underway(l: Labels) {
    exists id :: Tag(Preparing, id) in l || Tag(Operate, id) in l || Tag(Prefix.Operated, id) in l
  }

  ghost function InOperation(w: World): set<Text> {
    set n | n in w.targets && Underway(w.targets[n].pod.labels)
  }

  lemma UnderwayIsOut(p: Pod)
    requires SixPhased(p.labels) && Underway(p.labels)
    ensures ServiceAvailable !in p.labels
  {
    var ph, id, t :| InPhase(p.labels, ph, id, t);
    PhaseIds(p.labels, ph, id, t);
  }

  // What the users of the Pods see in every reachable state: no more Pods in operation
  // or otherwise out of service than max-unavailable allows, and no fewer in service
  // than min-available demands.
  lemma BudgetSeen(rule: Available.Rule, w: World, steps: seq<Step>)
    requires WellKept(rule, w) && WithinBudget(rule, w) && w.targets.Keys <= w.status.targets && Legal(rule, w, steps)
    ensures var v, total := Run(rule, w, steps), |w.targets|;
      && InOperation(v) <= OutOfService(v)
      && (match rule.maxUnavailable
          case Some(Absolute(n)) => |OutOfService(v)| <= n
          case Some(Percent(pct)) => 100 * |OutOfService(v)| < pct * total + 100
          case _ => true)
      && (match rule.minAvailable
          case Some(Absolute(n)) => total - |OutOfService(v)| >= n
          case Some(Percent(pct)) => 100 * (total - |OutOfService(v)|) > pct * total - 100
          case _ => true)
  {
    BudgetHolds(rule, w, steps);
    WithinBudgetSeen(rule, w.targets.Keys, Run(rule, w, steps));
  }

  lemma WithinBudgetSeen(rule: Available.Rule, names: set<Text>, v: World)
    requires WellKept(rule, v) && WithinBudget(rule, v) && v.targets.Keys == names
    ensures InOperation(v) <= OutOfService(v)
    ensures Respects(rule, |names|, |OutOfService(v)|)
  {
    SubsetSize(OutOfService(v), Charged(rule, v));
    assert |v.targets| == |names|;
    forall n | n in InOperation(v) ensures n in OutOfService(v) {
      UnderwayIsOut(v.targets[n].pod);
    }
  }

  // ----------------------------------------------- reconciles of the lifecycle

  function EventSteps(n: Text, events: seq<Event>): seq<Step> {
    seq(|events|, i requires 0 <= i < |events| => Moving(n, events[i].move, events[i].now))
  }

  lemma {:induction false} EventsAreSteps(rule: Available.Rule, w: World, n: Text, events: seq<Event>)
    requires n in w.targets && Possible(w.targets[n].pod, events)
    requires forall i :: 0 <= i < |events| ==>
      var mv := events[i].move;
      && !mv.Starts? && !mv.Finishes? && !mv.Cancels? && !mv.Touches?
      && (mv == Passes(PreCheckStage) ==> Checker.Permits(w.status, n, Some(PreCheckStage)))
    ensures Legal(rule, w, EventSteps(n, events))
    ensures Run(rule, w, EventSteps(n, events)) == With(w, n, Machine.Run(w.targets[n].pod, events))
    decreases |events|
  {
    var steps := EventSteps(n, events);
    if events == [] {
      assert With(w, n, w.targets[n].pod) == w;
    } else {
      var v := After(rule, w, steps[0]);
      EventsAreSteps(rule, v, n, events[1..]);
      assert steps[1..] == EventSteps(n, events[1..]);
      assert With(v, n, Machine.Run(v.targets[n].pod, events[1..])) == With(w, n, Machine.Run(v.targets[n].pod, events[1..]));
    }
  }

  // A reconcile of the lifecycle controller, on the word of the rule, is at most two
  // steps of a legal run, so the budget holds after it.
  lemma ReconcileIsSteps(rule: Available.Rule, w: World, n: Text, stage: Option<Stage>, now: Text) returns (steps: seq<Step>)
    requires n in w.targets && Honest(w.targets[n].pod.labels, stage)
    ensures |steps| <= 2 && Legal(rule, w, steps)
    ensures var passed := if Checker.Permits(w.status, n, stage) then stage else None;
      Run(rule, w, steps) == With(w, n, Reconciled(w.targets[n].pod, passed, now))
  {
    var passed := if Checker.Permits(w.status, n, stage) then stage else None;
    var events := ReconcileIsMoves(w.targets[n].pod, passed, now);
    EventsAreSteps(rule, w, n, events);
    steps := EventSteps(n, events);
  }
}

// Pods that are deleted and created again under the budget.
module Recreate {
  import opened Options
  import opened Pods
  import opened Validation
  import opened Server
  import opened Checker
  import opened Machine
  import opened Phases
  import opened Sums
  import opened Available
  import opened Rounds
  import opened Budget

  // One CollaSet owns all Pods and wants `desired` of them.
  datatype Fleet = Fleet(uid: Text, name: Text, desired: int, quota: int)

  ghost predicate Serves(fleet: Fleet, rule: Available.Rule, w: World) {
    && rule.maxUnavailable == Some(Absolute(fleet.quota))
    && forall n :: n in w.targets ==> w.targets[n].owner == Owned(fleet.uid, fleet.name)
  }

  // The replicas that are still to be created.
  function Missing(fleet: Fleet, w: World): nat {
    Positively(fleet.desired - |w.targets|)
  }

  // What the rule computes from the owner is what is missing, as long as one Pod is
  // left to lead it to the owner.
  lemma UncreatedIsMissing(fleet: Fleet, rule: Available.Rule, w: World, api: map<Text, Lookup>)
    requires Serves(fleet, rule, w) && w.targets != map[]
    requires Available.Answer(api, Owned(fleet.uid, fleet.name)) == Found(fleet.uid, Some(fleet.desired))
    ensures Uncreated(w.targets, api) == Missing(fleet, w)
  {
    var n :| n in w.targets;
    var uids := Uids(w.targets, w.targets.Keys);
    assert fleet.uid in uids by { assert w.targets[n].owner.uid == fleet.uid; }
    assert uids == {fleet.uid};
    var f := (uid: Text) => Deficit(w.targets, api, uid);
    SumTakes(uids, f, fleet.uid);
    assert uids - {fleet.uid} == {};
    assert OwnedBy(w.targets, w.targets.Keys, fleet.uid) == w.targets.Keys;
    SumAgrees(uids, f, uid => Deficit(w.targets, api, uid));
  }

  // The steps of a recreation.  Only a Pod that counts against the budget is deleted, and
  // only a missing one is created, out of service and without a lifecycle.  The rule can
  // only hold back Pods that its status names; another one that is in service has to wait.
  ghost predicate Orderly(fleet: Fleet, rule: Available.Rule, w: World, s: Step) {
    && Allowed(rule, w, s)
    && match s
       case Rounding(api, _, _) =>
         Available.Answer(api, Owned(fleet.uid, fleet.name)) in {GetError, Found(fleet.uid, Some(fleet.desired))}
       case Moving(n, mv, _) => mv == Passes(PreCheckStage) ==> n in w.status.targets || n in Charged(rule, w)
       case Deleting(n) => n in Charged(rule, w)
       case Creating(n, t) =>
         && n !in w.targets && |w.targets| < fleet.desired && t.owner == Owned(fleet.uid, fleet.name)
         && Out(t.pod) && Untouched(t.pod.labels)
  }

  ghost predicate Conserved(fleet: Fleet, rule: Available.Rule, w: World) {
    && WellKept(rule, w) && Serves(fleet, rule, w)
    && |Charged(rule, w)| + Missing(fleet, w) <= fleet.quota
  }

  // Why it has to wait: no rule holds it back, and a passed pre-check charges nobody new
  // iff the status names the Pod or the Pod is charged already.
  lemma PassChargesNobodyIff(rule: Available.Rule, w: World, n: Text, now: Text)
    requires WellKept(rule, w) && Allowed(rule, w, Moving(n, Passes(PreCheckStage), now))
    requires var p := w.targets[n].pod; Accepted(p, Sent(p, Passes(PreCheckStage), now), true, now)
    ensures Charged(rule, After(rule, w, Moving(n, Passes(PreCheckStage), now))) <= Charged(rule, w) <==>
            n in w.status.targets || n in Charged(rule, w)
  {
    PassedIsOut(w.targets[n].pod, now);
    if n in w.status.targets || n in Charged(rule, w) {
      MoveCharges(rule, w, n, Passes(PreCheckStage), now);
    } else {
      var v := After(rule, w, Moving(n, Passes(PreCheckStage), now));
      assert v.targets[n].pod == Next(w.targets[n].pod, Passes(PreCheckStage), now);
    }
  }

  lemma PassedIsOut(p: Pod, now: Text)
    requires SixPhased(p.labels) && Enabled(p, Passes(PreCheckStage))
    requires Accepted(p, Sent(p, Passes(PreCheckStage), now), true, now)
    ensures Out(Next(p, Passes(PreCheckStage), now))
  {
    var ph, id, t :| InPhase(p.labels, ph, id, t);
    PhaseStep(p, Passes(PreCheckStage), now, ph, id, t);
  }

  function WaitingPod(id: Text, t: Text, stamp: Text): Pod {
    var l := map[Control := stamp, ServiceAvailable := stamp, Tag(Operating, id) := stamp,
                 Tag(OperationType, id) := t, Tag(PreCheck, id) := stamp];
    Pod(l, true, Up, true, false, {}, {}, NoConditions)
  }

  lemma WaitingPodWaits(id: Text, t: Text, now: Text)
    requires t != EMPTY
    ensures var p := WaitingPod(id, t, now);
      && !Out(p) && InPhase(p.labels, PreCheckPhase, id, t) && Enabled(p, Passes(PreCheckStage))
      && Accepted(p, Sent(p, Passes(PreCheckStage), now), true, now)
  {
    var p := WaitingPod(id, t, now);
    assert InPhase(p.labels, PreCheckPhase, id, t);
    PhaseIds(p.labels, PreCheckPhase, id, t);
    PreCheckAddsShape(p.labels, id, t);
    assert Tag(PreCheck, id) in p.labels && PrefixOf(Tag(PreCheck, id)) == Some(PreCheck);
    PhaseStep(p, Passes(PreCheckStage), now, PreCheckPhase, id, t);
  }

  // A Pod in service that the status does not name yet passes its pre-check unheld, under
  // a quota of none.
  lemma UnnamedPodLeaks(n: Text, id: Text, t: Text, fleet: Fleet, rule: Available.Rule, now: Text) returns (w: World)
    requires t != EMPTY && fleet.desired == 1 && fleet.quota == 0 && rule.maxUnavailable == Some(Absolute(0))
    ensures Conserved(fleet, rule, w) && n !in w.status.targets && Allowed(rule, w, Moving(n, Passes(PreCheckStage), now))
    ensures !Conserved(fleet, rule, After(rule, w, Moving(n, Passes(PreCheckStage), now)))
  {
    var p := WaitingPod(id, t, now);
    w := World(map[n := Target(p, Owned(fleet.uid, fleet.name))], RuleStatus({}, map[]));
    WaitingPodWaits(id, t, now);
    PassedIsOut(p, now);
    assert Charged(rule, w) == {};
    var v := After(rule, w, Moving(n, Passes(PreCheckStage), now));
    assert Charged(rule, v) == {n};
  }

  lemma RoundConserves(fleet: Fleet, rule: Available.Rule, w: World, s: Step)
    requires Conserved(fleet, rule, w) && s.Rounding? && Orderly(fleet, rule, w, s)
    ensures Conserved(fleet, rule, After(rule, w, s))
  {
    var v := After(rule, w, s);
    RoundCharges(rule, w, s);
    RoundGrants(rule, w, s);
    if |Charged(rule, v)| > |Charged(rule, w)| {
      var n :| n in Charged(rule, v);
      assert Available.Answer(s.api, w.targets[n].owner) != GetError;
      UncreatedIsMissing(fleet, rule, w, s.api);
    }
  }

  lemma DeleteConserves(fleet: Fleet, rule: Available.Rule, w: World, n: Text)
    requires Conserved(fleet, rule, w) && n in Charged(rule, w)
    ensures Conserved(fleet, rule, After(rule, w, Deleting(n)))
  {
    ChargedWithout(rule, w, n);
    OneLess(w.targets, n);
  }

  lemma OneLess(targets: map<Text, Target>, n: Text)
    requires n in targets
    ensures |targets - {n}| == |targets| - 1
  {
    assert (targets - {n}).Keys == targets.Keys - {n};
    assert |(targets - {n}).Keys| == |targets.Keys| - 1;
  }

  lemma ChargedWithout(rule: Available.Rule, w: World, n: Text)
    requires n in Charged(rule, w)
    ensures |Charged(rule, After(rule, w, Deleting(n)))| == |Charged(rule, w)| - 1
  {
    assert Charged(rule, After(rule, w, Deleting(n))) == Charged(rule, w) - {n};
  }

  lemma CreateConserves(fleet: Fleet, rule: Available.Rule, w: World, s: Step)
    requires Conserved(fleet, rule, w) && s.Creating? && Orderly(fleet, rule, w, s)
    ensures Conserved(fleet, rule, After(rule, w, s))
  {
    var v := After(rule, w, s);
    ChargedWithNew(rule, w, s.name, s.successor);
    OneMore(w.targets, s.name, s.successor);
    CreatedIsSixPhased(w.targets, s.name, s.successor);
    assert v == World(w.targets[s.name := s.successor], w.status);
  }

  lemma OneMore(targets: map<Text, Target>, n: Text, t: Target)
    requires n !in targets
    ensures |targets[n := t]| == |targets| + 1
  {
    assert targets[n := t].Keys == targets.Keys + {n};
    assert |targets[n := t].Keys| == |targets.Keys| + 1;
  }

  lemma CreatedIsSixPhased(targets: map<Text, Target>, n: Text, t: Target)
    requires AllSixPhased(targets) && Untouched(t.pod.labels)
    ensures AllSixPhased(targets[n := t])
  {
    assert InPhase(t.pod.labels, Resting, EMPTY, EMPTY);
  }

  lemma ChargedWithNew(rule: Available.Rule, w: World, n: Text, t: Target)
    requires n !in w.targets && Out(t.pod)
    ensures Charged(rule, After(rule, w, Step.Creating(n, t))) == Charged(rule, w) + {n}
    ensures |Charged(rule, After(rule, w, Step.Creating(n, t)))| == |Charged(rule, w)| + 1
  {
    assert Charged(rule, After(rule, w, Step.Creating(n, t))) == Charged(rule, w) + {n};
  }

  lemma MoveConserves(fleet: Fleet, rule: Available.Rule, w: World, s: Step)
    requires Conserved(fleet, rule, w) && s.Moving? && Orderly(fleet, rule, w, s)
    ensures Conserved(fleet, rule, After(rule, w, s))
  {
    var v := After(rule, w, s);
    MoveCharges(rule, w, s.name, s.move, s.now);
    SubsetSize(Charged(rule, v), Charged(rule, w));
    assert v.targets.Keys == w.targets.Keys;
    assert |v.targets.Keys| == |w.targets.Keys|;
  }

  ghost predicate OrderlyRun(fleet: Fleet, rule: Available.Rule, w: World, steps: seq<Step>)
    decreases |steps|
  {
    steps == [] || (Orderly(fleet, rule, w, steps[0]) && OrderlyRun(fleet, rule, After(rule, w, steps[0]), steps[1..]))
  }

  // Disrupted Pods and missing replicas together stay within the quota while rounds
  // approve, lifecycles run, and Pods are deleted and created again.
  lemma {:induction false} RecreationConservesBudget(fleet: Fleet, rule: Available.Rule, w: World, steps: seq<Step>)
    requires Conserved(fleet, rule, w) && OrderlyRun(fleet, rule, w, steps)
    ensures Conserved(fleet, rule, Budget.Run(rule, w, steps))
    decreases |steps|
  {
    if steps != [] {
      var s := steps[0];
      match s {
        case Rounding(_, _, _) => RoundConserves(fleet, rule, w, s);
        case Moving(_, _, _) => MoveConserves(fleet, rule, w, s);
        case Deleting(n) => DeleteConserves(fleet, rule, w, n);
        case Creating(_, _) => CreateConserves(fleet, rule, w, s);
      }
      RecreationConservesBudget(fleet, rule, After(rule, w, s), steps[1..]);
    }
  }

  // The users see at least desired - quota Pods in service.
  lemma RecreationSeen(fleet: Fleet, rule: Available.Rule, w: World, steps: seq<Step>)
    requires Conserved(fleet, rule, w) && OrderlyRun(fleet, rule, w, steps)
    ensures var v := Budget.Run(rule, w, steps); |v.targets| - |OutOfService(v)| >= fleet.desired - fleet.quota
  {
    RecreationConservesBudget(fleet, rule, w, steps);
    var v := Budget.Run(rule, w, steps);
    SubsetSize(OutOfService(v), Charged(rule, v));
  }
}
