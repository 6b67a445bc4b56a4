// The verdicts that PodTransitionRules publish on a Pod (checker.go), and the
// lifecycle controller that consumes them (podopslifecycle_controller.go).

module Checker {
  import opened Options
  import opened Pods

  datatype Stage = PreCheckStage | PostCheckStage

  // A rule's published word on one Pod.  The stage of a Pod that no check looked
  // at is empty.
  datatype Detail = Detail(stage: Option<Stage>, passed: bool, passedRules: set<Text>, rejections: seq<Text>)

  datatype RuleStatus = RuleStatus(targets: set<Text>, details: map<Text, Detail>)

  datatype CheckState = CheckState(stage: Option<Stage>, states: seq<Detail>)

  predicate InStageAndPassed(cs: CheckState) {
    forall i :: 0 <= i < |cs.states| ==> cs.states[i].stage == cs.stage && cs.states[i].passed
  }

  // What one rule answers about a Pod: silence counts as a pass without a stage.
  function Answer(rule: RuleStatus, name: Text): Detail {
    if name in rule.details then rule.details[name] else Detail(None, true, {}, [])
  }

  // A rule stands in the way of a Pod that it targets, unless it has passed the Pod
  // in the very stage the Pod is in.
  predicate Permits(rule: RuleStatus, name: Text, stage: Option<Stage>) {
    name in rule.targets ==> Answer(rule, name).stage == stage && Answer(rule, name).passed
  }

  // The answers of the rules that target the Pod, in the order of the rules.
  function AnswersOf(rules: seq<RuleStatus>, name: Text): seq<Detail> {
    if rules == [] then []
    else
      var last := rules[|rules| - 1];
      AnswersOf(rules[..|rules| - 1], name) + if name in last.targets then [Answer(last, name)] else []
  }

  // GetState: collects the answers of the rules that target the Pod.
  method GetState(rules: seq<RuleStatus>, name: Text, stage: Option<Stage>) returns (cs: CheckState)
    ensures cs.stage == stage && cs.states == AnswersOf(rules, name)
    ensures InStageAndPassed(cs) <==> forall i :: 0 <= i < |rules| ==> Permits(rules[i], name, stage)
    ensures InStageAndPassed(cs) <==> forall rule :: rule in rules && name in rule.targets ==>
      if name in rule.details then rule.details[name].stage == stage && rule.details[name].passed else stage == None
  {
    var states: seq<Detail> := [];
    for i := 0 to |rules|
      invariant states == AnswersOf(rules[..i], name)
      invariant InStageAndPassed(CheckState(stage, states)) <==> forall j :: 0 <= j < i ==> Permits(rules[j], name, stage)
    {
      assert rules[..i + 1][..i] == rules[..i];
      if name in rules[i].targets {
        ghost var before := CheckState(stage, states);
        states := states + [Answer(rules[i], name)];
        assert InStageAndPassed(CheckState(stage, states)) <==>
               InStageAndPassed(before) && Permits(rules[i], name, stage) by {
          assert forall j :: 0 <= j < |before.states| ==> states[j] == before.states[j];
          assert states[|before.states|] == Answer(rules[i], name);
        }
      }
    }
    assert rules[..|rules|] == rules;
    return CheckState(stage, states);
  }
}

module Controller {
  import opened Options
  import opened Pods
  import opened Admission
  import opened Validation
  import opened Server
  import opened Checker

  // The keys that the passed pre-check adds for the lifecycles in `ids`.
  function PreCheckAdds(l: Labels, ids: set<Text>): set<Key> {
    (set id | id in ids && Has(l, OperationType, id) :: Permission(l[Tag(OperationType, id)])) +
    (set id | id in ids && Has(l, OperationType, id) :: Tag(PreChecked, id)) - l.Keys
  }

  function PostCheckAdds(l: Labels, ids: set<Text>): set<Key> {
    (set id | id in ids :: Tag(PostChecked, id)) - l.Keys
  }

  function Adds(l: Labels, passed: Option<Stage>): set<Key> {
    match passed
    case None => {}
    case Some(PreCheckStage) => PreCheckAdds(l, Ids(l))
    case Some(PostCheckStage) => PostCheckAdds(l, Ids(l))
  }

  function Stamp(l: Labels, keys: set<Key>, now: Text): Labels {
    map k | k in l.Keys + keys :: if k in keys then now else l[k]
  }

  function GateAt(up: bool): Gate {
    if up then Up else Down
  }

  // setServiceReadiness wants to write.
  predicate NeedsGate(p: Pod, up: bool) {
    p.gated && p.gate != GateAt(up)
  }

  function Online(p: Pod, now: Text): Pod {
    p.(labels := p.labels[ServiceAvailable := now] - {Creating, CompletingMark})
  }

  predicate Idle(l: Labels) {
    Ids(l) == {} && StayOffline !in l
  }

  predicate SomeHas(l: Labels, p: Prefix) {
    exists id :: id in Ids(l) && Has(l, p, id)
  }

  // Where the phases on the Pod want the gate: preparing goes before completing.
  function GateWanted(l: Labels): Option<bool> {
    if SomeHas(l, Preparing) then Some(false)
    else if SomeHas(l, Completing) then Some(true)
    else None
  }

  // The last part of a reconcile: the gate, then the traffic label of an unready Pod.
  function GateThenOffline(p: Pod, now: Text): Pod {
    var up := GateWanted(p.labels);
    var write := up.Some? && NeedsGate(p, up.value);
    if write && !Accepted(p, p.(gate := GateAt(up.value)), false, now) then p
    else
      var q := if write then Stored(p, p.(gate := GateAt(up.value)), false, now) else p;
      if p.ready then q else Stored(q, q.(labels := q.labels - {ServiceAvailable}), true, now)
  }

  // What one reconcile makes of the stored Pod.  `passed` is the stage that all
  // rules passed the Pod in, if any.
  function Reconciled(p: Pod, passed: Option<Stage>, now: Text): Pod {
    var l := p.labels;
    if Unparsable(l) then p
    else if Idle(l) && !Available(p) && p.conditions.Malformed? then p
    else if Idle(l) && !Available(p) && FinalizersSatisfied(p) && p.ready then Stored(p, Online(p, now), true, now)
    else if Idle(l) && NeedsGate(p, true) then Stored(p, p.(gate := Up), false, now)
    else if Adds(l, passed) != {} then Stored(p, p.(labels := Stamp(l, Adds(l, passed), now)), true, now)
    else GateThenOffline(p, now)
  }

  // The write that a reconcile attempts, before it comes to the gate.
  function Attempt(p: Pod, passed: Option<Stage>, now: Text): Option<(Pod, bool)> {
    var l := p.labels;
    if Idle(l) && !Available(p) && FinalizersSatisfied(p) && p.ready then Some((Online(p, now), true))
    else if Idle(l) && NeedsGate(p, true) then Some((p.(gate := Up), false))
    else if Adds(l, passed) != {} then Some((p.(labels := Stamp(l, Adds(l, passed), now)), true))
    else None
  }

  // Whether one of the writes of the last part is refused.
  predicate GateRefused(p: Pod, now: Text) {
    var up := GateWanted(p.labels);
    var write := up.Some? && NeedsGate(p, up.value);
    var sent := if write then p.(gate := GateAt(up.value)) else p;
    var q := if write then Stored(p, sent, false, now) else p;
    || (write && !Accepted(p, sent, false, now))
    || (!p.ready && !Accepted(q, q.(labels := q.labels - {ServiceAvailable}), true, now))
  }

  // A reconcile fails when it cannot read the labels, or the annotation that it needs,
  // or when a write of it is refused.
  predicate ReconcileFails(p: Pod, passed: Option<Stage>, now: Text) {
    || Unparsable(p.labels)
    || (Idle(p.labels) && !Available(p) && p.conditions.Malformed?)
    || match Attempt(p, passed, now)
       case Some((sent, validated)) => !Accepted(p, sent, validated, now)
       case None => GateRefused(p, now)
  }

  method AddServiceAvailable(server: ApiServer, pod: PodObject, now: Text) returns (updated: bool, failed: bool)
    requires pod.Value() == server.stored
    modifies server
    ensures !updated ==> server.stored == old(server.stored)
    ensures updated <==> !Available(pod.Value()) && FinalizersSatisfied(pod.Value()) && pod.ready
    ensures updated ==> server.stored == Stored(old(server.stored), Online(old(server.stored), now), true, now)
    ensures !updated ==> (failed <==> !Available(pod.Value()) && pod.conditions.Malformed?)
    ensures updated ==> failed == !Accepted(old(server.stored), Online(old(server.stored), now), true, now)
    ensures updated ==> match pod.conditions
                        case NoConditions => true
                        case Malformed => false
                        case Expects(wanted) => wanted <= pod.finalizers + pod.protections
  {
    if ServiceAvailable in pod.labels {
      return false, false;
    }
    if pod.conditions.Malformed? {
      return false, true;
    }
    if !FinalizersSatisfied(pod.Value()) {
      return false, false;
    }
    if !pod.ready {
      return false, false;
    }
    var newPod := server.Get();
    newPod.labels := newPod.labels[ServiceAvailable := now];
    newPod.labels := newPod.labels - {Creating, CompletingMark};
    var ok := server.Write(newPod, true, now);
    return true, !ok;
  }

  method UpdateServiceReadiness(server: ApiServer, pod: PodObject, up: bool, now: Text) returns (updated: bool, failed: bool)
    requires pod.gated == server.stored.gated && (NeedsGate(pod.Value(), up) ==> pod.Value() == server.stored)
    modifies server, pod`gate
    ensures !NeedsGate(old(pod.Value()), up) ==> server.stored == old(server.stored) && !updated && !failed
    ensures NeedsGate(old(pod.Value()), up) ==>
      && server.stored == Stored(old(server.stored), old(server.stored).(gate := GateAt(up)), false, now)
      && updated == !failed == Accepted(old(server.stored), old(server.stored).(gate := GateAt(up)), false, now)
    ensures pod.gated ==> pod.gate == GateAt(up)
    ensures !pod.gated ==> pod.gate == old(pod.gate)
  {
    if !(pod.gated && pod.gate != GateAt(up)) {
      return false, false;
    }
    pod.gate := GateAt(up);
    var newPod := server.Get();
    newPod.gate := GateAt(up);
    var ok := server.Write(newPod, false, now);
    return ok, !ok;
  }

  // preCheckStage: permission for the type and a pre-checked mark, where missing.
  method PreCheckStageLabels(pod: PodObject, ids: set<Text>) returns (keys: set<Key>)
    ensures keys == PreCheckAdds(pod.labels, ids)
  {
    var l := pod.labels;
    keys := {};
    var seen: set<Text> := {};
    while seen != ids
      invariant seen <= ids
      invariant keys == PreCheckAdds(l, seen)
      decreases ids - seen
    {
      Unseen(seen, ids);
      var id :| id in ids - seen;
      if Has(l, OperationType, id) {
        var t := l[Tag(OperationType, id)];
        if Permission(t) !in l {
          keys := keys + {Permission(t)};
        }
        if Tag(PreChecked, id) !in l {
          keys := keys + {Tag(PreChecked, id)};
        }
      }
      seen := seen + {id};
    }
  }

  method PostCheckStageLabels(pod: PodObject, ids: set<Text>) returns (keys: set<Key>)
    ensures keys == PostCheckAdds(pod.labels, ids)
  {
    keys := {};
    var seen: set<Text> := {};
    while seen != ids
      invariant seen <= ids
      invariant keys == PostCheckAdds(pod.labels, seen)
      decreases ids - seen
    {
      Unseen(seen, ids);
      var id :| id in ids - seen;
      if Tag(PostChecked, id) !in pod.labels {
        keys := keys + {Tag(PostChecked, id)};
      }
      seen := seen + {id};
    }
  }

  method AddLabels(server: ApiServer, keys: set<Key>, now: Text) returns (failed: bool)
    modifies server
    ensures var sent := old(server.stored).(labels := Stamp(old(server.stored).labels, keys, now));
      server.stored == Stored(old(server.stored), sent, true, now) && failed == !Accepted(old(server.stored), sent, true, now)
  {
    var newPod := server.Get();
    newPod.labels := Stamp(newPod.labels, keys, now);
    var ok := server.Write(newPod, true, now);
    return !ok;
  }

  method RemoveServiceAvailable(server: ApiServer, now: Text) returns (failed: bool)
    modifies server
    ensures var sent := old(server.stored).(labels := old(server.stored).labels - {ServiceAvailable});
      server.stored == Stored(old(server.stored), sent, true, now) && failed == !Accepted(old(server.stored), sent, true, now)
  {
    var newPod := server.Get();
    newPod.labels := newPod.labels - {ServiceAvailable};
    var ok := server.Write(newPod, true, now);
    return !ok;
  }

  method AnyHas(byId: ById, p: Prefix, ghost l: Labels) returns (found: bool)
    requires Answers(l, byId)
    ensures found <==> SomeHas(l, p)
  {
    var seen: set<Text> := {};
    while seen != byId.Keys
      invariant seen <= byId.Keys
      invariant forall id :: id in seen ==> !Has(l, p, id)
      decreases byId.Keys - seen
    {
      Unseen(seen, byId.Keys);
      var id :| id in byId.Keys - seen;
      if p in byId[id] {
        return true;
      }
      seen := seen + {id};
    }
    return false;
  }

  // The loop over the phases that move the gate, and what follows it.
  method MoveGate(server: ApiServer, pod: PodObject, byId: ById, now: Text) returns (failed: bool)
    requires pod.Value() == server.stored && Answers(pod.labels, byId)
    modifies server, pod
    ensures server.stored == GateThenOffline(old(server.stored), now)
    ensures failed == GateRefused(old(server.stored), now)
  {
    var up := None;
    var preparing := AnyHas(byId, Preparing, pod.labels);
    var completing := AnyHas(byId, Completing, pod.labels);
    if preparing {
      up := Some(false);
    } else if completing {
      up := Some(true);
    }
    if up.Some? {
      var _, refused := UpdateServiceReadiness(server, pod, up.value, now);
      if refused {
        return true;
      }
    }
    if !pod.ready {
      failed := RemoveServiceAvailable(server, now);
      return;
    }
    return false;
  }

  // Reconcile of the lifecycle controller.
  method Reconcile(server: ApiServer, state: CheckState, now: Text) returns (failed: bool)
    modifies server
    ensures server.stored == Reconciled(old(server.stored), if InStageAndPassed(state) then state.stage else None, now)
    ensures failed == ReconcileFails(old(server.stored), if InStageAndPassed(state) then state.stage else None, now)
  {
    var pod := server.Get();
    var parsed := IDToLabelsMap(pod.labels);
    if parsed.ParseError? {
      return true;
    }
    var byId := parsed.byId;
    GroupsAnswer(pod.labels, byId);
    if byId.Keys == {} && StayOffline !in pod.labels {
      var updated, refused := AddServiceAvailable(server, pod, now);
      if updated || refused {
        return refused;
      }
      updated, refused := UpdateServiceReadiness(server, pod, true, now);
      if updated || refused {
        return refused;
      }
    }
    var keys: set<Key> := {};
    if InStageAndPassed(state) {
      match state.stage
      case Some(PreCheckStage) => keys := PreCheckStageLabels(pod, byId.Keys);
      case Some(PostCheckStage) => keys := PostCheckStageLabels(pod, byId.Keys);
      case None =>
    }
    if keys != {} {
      failed := AddLabels(server, keys, now);
      return;
    }
    failed := MoveGate(server, pod, byId, now);
  }
}
