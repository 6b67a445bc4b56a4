// Guarded runs: one lifecycle at a time, begun on an idle Pod, finished when
// granted, undone under its own type.  Their Pods are in one of six phases.

module Phases {
  import opened Options
  import opened Pods
  import opened Admission
  import opened Validation
  import opened Server
  import opened Client
  import opened Checker
  import opened Controller
  import opened Machine
  import opened Shapes

  datatype Phase = Resting | PreCheckPhase | PreparingPhase | OperatePhase | PostCheckPhase | CompletingPhase

  function PhaseMarks(ph: Phase): set<Prefix> {
    match ph
    case Resting => {}
    case PreCheckPhase => {Operating, OperationType, PreCheck}
    case PreparingPhase => {Operating, OperationType, PreChecked, Preparing}
    case OperatePhase => {Operating, OperationType, PreChecked, Operate}
    case PostCheckPhase => {Operated, Done, PostCheck}
    case CompletingPhase => {Operated, Done, PostChecked, Completing}
  }

  predicate PhasePermits(ph: Phase) {
    ph == PreparingPhase || ph == OperatePhase
  }

  // The lifecycle labels of l, permission included, are exactly those of phase ph of
  // lifecycle id with type t, and past the pre-check the Pod is out of service.
  ghost predicate InPhase(l: Labels, ph: Phase, id: Text, t: Text) {
    && Shape(l, id, t, PhaseMarks(ph), PhasePermits(ph))
    && (ph != Resting ==> t != EMPTY)
    && (ph != Resting && ph != PreCheckPhase ==> ServiceAvailable !in l)
  }

  // What the operators of a guarded run promise.
  ghost predicate Guarded(p: Pod, mv: Move) {
    match mv
    case Starts(a) => !Unparsable(p.labels) && Ids(p.labels) == {} && a.opType != EMPTY
    case Finishes(a) => AllowOps(p.labels, a)
    case Cancels(a) => TypeOf(p.labels, a.id) == Some(a.opType)
    case _ => true
  }

  // The six-phase machine that the labels implement.  `ready` says that operations
  // may start, `satisfied` that the expected finalizers are there.
  function PhaseAfter(ph: Phase, mv: Move, ready: bool, satisfied: bool): Phase {
    match mv
    case Starts(_) => PreCheckPhase
    case Finishes(_) => PostCheckPhase
    case Cancels(_) => Resting
    case Passes(PreCheckStage) => if ready then OperatePhase else PreparingPhase
    case Passes(PostCheckStage) => CompletingPhase
    case _ =>
      if ph == PreparingPhase && ready then OperatePhase
      else if ph == CompletingPhase && satisfied then Resting
      else ph
  }

  // The marks of the object that a move sends.
  function SentMarks(ph: Phase, mv: Move): set<Prefix> {
    match mv
    case Starts(_) => {Operating, OperationType}
    case Finishes(_) => {OperationType, PreChecked, Operate}
    case Cancels(_) => PhaseMarks(ph) + {Undo}
    case Passes(PreCheckStage) => PhaseMarks(ph) + {PreChecked}
    case Passes(PostCheckStage) => PhaseMarks(ph) + {PostChecked}
    case _ => PhaseMarks(ph)
  }

  lemma PhaseIds(l: Labels, ph: Phase, id: Text, t: Text)
    requires InPhase(l, ph, id, t)
    ensures !Unparsable(l) && Ids(l) == if ph == Resting then {} else {id}
    ensures forall p :: Has(l, p, id) <==> p in PhaseMarks(ph)
    ensures ph != Resting ==> TypeOf(l, id) == Some(t)
  {
    ShapeIds(l, id, t, PhaseMarks(ph), PhasePermits(ph));
    assert forall p :: Has(l, p, id) <==> p in PhaseMarks(ph);
  }

  predicate Fits(mv: Move, ph: Phase, id: Text, t: Text) {
    match mv
    case Starts(_) => ph == Resting
    case Finishes(a) => ph == OperatePhase && a.id == id && a.opType == t
    case Cancels(a) => ph != Resting && a.id == id && a.opType == t
    case GoesOnline => ph == Resting
    case RaisesGate => ph == Resting
    case Passes(PreCheckStage) => ph == PreCheckPhase
    case Passes(PostCheckStage) => ph == PostCheckPhase
    case MovesGate => ph == PreparingPhase || ph == CompletingPhase
    case _ => true
  }

  lemma PassFits(l: Labels, stage: Stage, ph: Phase, id: Text, t: Text)
    requires InPhase(l, ph, id, t) && InStage(l, stage)
    ensures Fits(Passes(stage), ph, id, t)
  {
    var k :| k in l && PrefixOf(k) == Some(if stage == PreCheckStage then PreCheck else PostCheck);
    assert k.Tag? && k.prefix in PhaseMarks(ph);
  }

  lemma FinishFits(l: Labels, a: Adapter, ph: Phase, id: Text, t: Text)
    requires InPhase(l, ph, id, t) && AllowOps(l, a)
    ensures Fits(Finishes(a), ph, id, t)
  {
    assert Tag(Operate, a.id) in l && Tag(Operating, a.id) in l;
  }

  // In which phase a guarded move can be made at all.
  lemma MoveFits(p: Pod, mv: Move, ph: Phase, id: Text, t: Text)
    requires InPhase(p.labels, ph, id, t) && Enabled(p, mv) && Guarded(p, mv)
    ensures Fits(mv, ph, id, t)
  {
    PhaseIds(p.labels, ph, id, t);
    if mv.Passes? {
      PassFits(p.labels, mv.stage, ph, id, t);
    } else if mv.Finishes? {
      FinishFits(p.labels, mv.a, ph, id, t);
    } else if mv.MovesGate? {
      assert SomeHas(p.labels, Preparing) || SomeHas(p.labels, Completing);
    }
  }

  // The lifecycle that the Pod carries after the move.
  function IdAfter(id: Text, mv: Move): Text {
    if mv.Starts? then mv.a.id else id
  }

  function TypeAfter(t: Text, mv: Move): Text {
    if mv.Starts? then mv.a.opType else t
  }

  function PermitSent(ph: Phase, mv: Move): bool {
    PhasePermits(ph) || mv == Passes(PreCheckStage)
  }

  lemma StartShape(l: Labels, id: Text, t: Text, a: Adapter, now: Text)
    requires InPhase(l, Resting, id, t) && a.opType != EMPTY
    ensures Shape(Begun(l, a, now), a.id, a.opType, {Operating, OperationType}, false)
    ensures ServiceAvailable in Begun(l, a, now) <==> ServiceAvailable in l
  {
    assert !Has(l, OperationType, a.id) && !Has(l, Operating, a.id);
  }

  lemma FinishShape(l: Labels, id: Text, t: Text, a: Adapter)
    requires InPhase(l, OperatePhase, id, t) && a.id == id
    ensures Shape(Finished(l, a), id, t, {OperationType, PreChecked, Operate}, true)
    ensures ServiceAvailable in Finished(l, a) <==> ServiceAvailable in l
  {
  }

  lemma CancelShape(l: Labels, ph: Phase, id: Text, t: Text, a: Adapter)
    requires InPhase(l, ph, id, t) && a == Adapter(id, t, a.multi)
    ensures Shape(Cancelled(l, a), id, t, PhaseMarks(ph) + {Undo}, PhasePermits(ph))
    ensures ServiceAvailable in Cancelled(l, a) <==> ServiceAvailable in l
  {
  }

  lemma PostCheckAddsShape(l: Labels, id: Text, t: Text)
    requires InPhase(l, PostCheckPhase, id, t)
    ensures Adds(l, Some(PostCheckStage)) == {Tag(PostChecked, id)}
  {
    PhaseIds(l, PostCheckPhase, id, t);
  }

  lemma StampedKeys(l: Labels, keys: set<Key>, now: Text, k: Key)
    ensures k in Stamp(l, keys, now) <==> k in l || k in keys
    ensures k in l && k !in keys ==> Stamp(l, keys, now)[k] == l[k]
  {
  }

  lemma PreCheckPassShape(l: Labels, id: Text, t: Text, now: Text)
    requires InPhase(l, PreCheckPhase, id, t)
    ensures var k := Stamp(l, Adds(l, Some(PreCheckStage)), now);
      && Shape(k, id, t, PhaseMarks(PreCheckPhase) + {PreChecked}, true)
      && (ServiceAvailable in k <==> ServiceAvailable in l)
  {
    PreCheckAddsShape(l, id, t);
    forall k { StampedKeys(l, {Permission(t), Tag(PreChecked, id)}, now, k); }
  }

  lemma PostCheckPassShape(l: Labels, id: Text, t: Text, now: Text)
    requires InPhase(l, PostCheckPhase, id, t)
    ensures var k := Stamp(l, Adds(l, Some(PostCheckStage)), now);
      && Shape(k, id, t, PhaseMarks(PostCheckPhase) + {PostChecked}, false)
      && (ServiceAvailable in k <==> ServiceAvailable in l)
  {
    PostCheckAddsShape(l, id, t);
    forall k { StampedKeys(l, {Tag(PostChecked, id)}, now, k); }
  }

  lemma PassShape(l: Labels, stage: Stage, ph: Phase, id: Text, t: Text, now: Text)
    requires InPhase(l, ph, id, t) && Fits(Passes(stage), ph, id, t)
    ensures Shape(Stamp(l, Adds(l, Some(stage)), now), id, t, SentMarks(ph, Passes(stage)), PermitSent(ph, Passes(stage)))
    ensures ServiceAvailable in Stamp(l, Adds(l, Some(stage)), now) <==> ServiceAvailable in l
  {
    if stage == PreCheckStage {
      PreCheckPassShape(l, id, t, now);
    } else {
      PostCheckPassShape(l, id, t, now);
    }
  }

  lemma ForeignShape(l: Labels, k: Labels, ph: Phase, id: Text, t: Text)
    requires InPhase(l, ph, id, t)
    requires forall j :: LifecycleKey(j) && j != ServiceAvailable ==> (j in l <==> j in k)
    requires forall j :: LifecycleKey(j) && j in l && j in k ==> l[j] == k[j] || j == ServiceAvailable
    ensures Shape(k, id, t, PhaseMarks(ph), PhasePermits(ph))
  {
    assert LifecycleKey(Control);
    forall j ensures j in k && j.Odd? ==> false {
    }
  }

  lemma SentShape(p: Pod, mv: Move, now: Text, ph: Phase, id: Text, t: Text)
    requires InPhase(p.labels, ph, id, t) && Enabled(p, mv) && Guarded(p, mv)
    ensures Shape(Sent(p, mv, now).labels, IdAfter(id, mv), TypeAfter(t, mv), SentMarks(ph, mv), PermitSent(ph, mv))
    ensures !mv.GoesOnline? && ServiceAvailable in Sent(p, mv, now).labels ==> ServiceAvailable in p.labels
  {
    MoveFits(p, mv, ph, id, t);
    match mv
    case Starts(a) => StartShape(p.labels, id, t, a, now);
    case Finishes(a) => FinishShape(p.labels, id, t, a);
    case Cancels(a) => CancelShape(p.labels, ph, id, t, a);
    case Passes(stage) => PassShape(p.labels, stage, ph, id, t, now);
    case _ => ForeignShape(p.labels, Sent(p, mv, now).labels, ph, id, t);
  }

  lemma PreCheckAddsShape(l: Labels, id: Text, t: Text)
    requires InPhase(l, PreCheckPhase, id, t)
    ensures Adds(l, Some(PreCheckStage)) == {Permission(t), Tag(PreChecked, id)}
  {
    PhaseIds(l, PreCheckPhase, id, t);
    assert Has(l, OperationType, id) && l[Tag(OperationType, id)] == t;
  }

  lemma MarksAdvance(ph: Phase, mv: Move, ready: bool, satisfied: bool)
    requires match mv
             case Starts(_) => ph == Resting
             case Finishes(a) => ph == OperatePhase
             case Cancels(a) => ph != Resting
             case Passes(PreCheckStage) => ph == PreCheckPhase
             case Passes(PostCheckStage) => ph == PostCheckPhase
             case _ => true
    ensures Advance(SentMarks(ph, mv), ready, satisfied) == PhaseMarks(PhaseAfter(ph, mv, ready, satisfied))
    ensures Shapes.Permits(SentMarks(ph, mv), PermitSent(ph, mv)) == PhasePermits(PhaseAfter(ph, mv, ready, satisfied))
  {
  }

  // Whatever the six phases look like, the validating webhook lets them through.
  lemma PhaseIsValid(p: Pod, ph: Phase, id: Text, t: Text)
    requires Shape(p.labels, id, t, PhaseMarks(ph), PhasePermits(ph)) && !p.conditions.Malformed?
    ensures Judged(p, Update) == Admitted
  {
    var l := p.labels;
    forall k | k in l ensures OneSlash(k) && Paired(l, k) {
    }
    if PhasePermits(ph) {
      assert KindOf(Tag(PreChecked, id)) == Some(PreCheckedKind) && KindOf(Permission(t)) == Some(PermissionKind);
    }
  }

  // The rewrite of an object that a fitting move sends, with old labels `was`.
  lemma RewritePhase(was: Labels, sent: Pod, mv: Move, ph: Phase, id: Text, t: Text, now: Text)
    requires Fits(mv, ph, id, t)
    requires Shape(sent.labels, IdAfter(id, mv), TypeAfter(t, mv), SentMarks(ph, mv), PermitSent(ph, mv))
    requires mv.Finishes? ==> !Unparsable(was) && OldType(was, id) == Some(t)
    ensures match Rewritten(Some(was), sent, now)
            case Fails(_) => sent.conditions.Malformed?
            case Writes(l) =>
              var after := PhaseAfter(ph, mv, ReadyToOperate(sent), FinalizersSatisfied(sent));
              && Shape(l, IdAfter(id, mv), TypeAfter(t, mv), PhaseMarks(after), PhasePermits(after))
              && (ServiceAvailable in l ==> ServiceAvailable in sent.labels && mv != Passes(PreCheckStage))
  {
    SentMarksFit(ph, mv, id, t);
    MarksAdvance(ph, mv, ReadyToOperate(sent), FinalizersSatisfied(sent));
    AdmissionShape(was, sent, IdAfter(id, mv), TypeAfter(t, mv), SentMarks(ph, mv), PermitSent(ph, mv), now);
  }

  lemma SentMarksFit(ph: Phase, mv: Move, id: Text, t: Text)
    requires Fits(mv, ph, id, t)
    ensures var m := SentMarks(ph, mv);
      && (m == {} || Anchored(m))
      && (Undo in m ==> OperationType in m || Done in m)
      && (Operate in m && Operating !in m && Completing !in m && Undo !in m ==> mv.Finishes?)
      && (mv == Passes(PreCheckStage) ==> CutsTraffic(m))
      && (mv.Finishes? ==> TypeAfter(t, mv) == t && IdAfter(id, mv) == id)
  {
  }

  lemma MoveRewrite(p: Pod, mv: Move, now: Text, ph: Phase, id: Text, t: Text)
    requires InPhase(p.labels, ph, id, t) && Enabled(p, mv) && Guarded(p, mv)
    ensures var sent := Sent(p, mv, now);
      match Rewritten(Some(p.labels), sent, now)
      case Fails(_) => sent.conditions.Malformed?
      case Writes(l) =>
        InPhase(l, PhaseAfter(ph, mv, ReadyToOperate(sent), FinalizersSatisfied(sent)), IdAfter(id, mv), TypeAfter(t, mv))
  {
    MoveFits(p, mv, ph, id, t);
    SentShape(p, mv, now, ph, id, t);
    PhaseIds(p.labels, ph, id, t);
    RewritePhase(p.labels, Sent(p, mv, now), mv, ph, id, t, now);
  }

  // One guarded move takes the labels where the six-phase machine says, unless an
  // admission refuses it, and only an unreadable annotation makes one refuse.
  lemma PhaseStep(p: Pod, mv: Move, now: Text, ph: Phase, id: Text, t: Text)
    requires InPhase(p.labels, ph, id, t) && Enabled(p, mv) && Guarded(p, mv)
    ensures var q := Next(p, mv, now);
      if Accepted(p, Sent(p, mv, now), Validates(mv), now)
      then q == Sent(p, mv, now).(labels := q.labels) &&
           InPhase(q.labels, PhaseAfter(ph, mv, ReadyToOperate(q), FinalizersSatisfied(q)), IdAfter(id, mv), TypeAfter(t, mv))
      else q == p && Sent(p, mv, now).conditions.Malformed?
  {
    var sent := Sent(p, mv, now);
    MoveRewrite(p, mv, now, ph, id, t);
    match Rewritten(Some(p.labels), sent, now)
    case Fails(_) =>
    case Writes(l) =>
      if !sent.conditions.Malformed? {
        PhaseIsValid(sent.(labels := l), PhaseAfter(ph, mv, ReadyToOperate(sent), FinalizersSatisfied(sent)),
                     IdAfter(id, mv), TypeAfter(t, mv));
      }
  }

  ghost predicate GuardedRun(p: Pod, events: seq<Event>)
    decreases |events|
  {
    events == [] ||
    (Enabled(p, events[0].move) && Guarded(p, events[0].move) &&
     GuardedRun(Next(p, events[0].move, events[0].now), events[1..]))
  }

  // A Pod that was created without lifecycle labels.
  ghost predicate Untouched(l: Labels) {
    Controlled(l) && forall k :: k in l ==> !k.Odd? && !k.Tag? && !k.Permission?
  }

  ghost predicate SixPhased(l: Labels) {
    exists ph, id, t :: InPhase(l, ph, id, t)
  }

  lemma {:induction false} SixPhaseRun(p: Pod, events: seq<Event>)
    requires SixPhased(p.labels) && GuardedRun(p, events)
    ensures SixPhased(Run(p, events).labels)
    decreases |events|
  {
    if events != [] {
      var ph, id, t :| InPhase(p.labels, ph, id, t);
      PhaseStep(p, events[0].move, events[0].now, ph, id, t);
      SixPhaseRun(Next(p, events[0].move, events[0].now), events[1..]);
    }
  }

  // In every state of every guarded run of a new Pod the lifecycle labels are exactly
  // one of the six patterns.
  lemma GuardedPodsAreSixPhased(p: Pod, events: seq<Event>)
    requires Untouched(p.labels) && GuardedRun(p, events)
    ensures SixPhased(Run(p, events).labels)
  {
    assert InPhase(p.labels, Resting, EMPTY, EMPTY);
    SixPhaseRun(p, events);
  }

  // A resting Pod carries no residue, so whatever ran on it before, the next
  // lifecycle starts at the pre-check.
  lemma NextBeginStartsAtPreCheck(p: Pod, events: seq<Event>, a: Adapter, now: Text)
    requires Untouched(p.labels) && GuardedRun(p, events)
    requires var q := Run(p, events); Ids(q.labels) == {} && a.opType != EMPTY && !q.conditions.Malformed?
    ensures var q := Run(p, events);
      && Untouched(q.labels)
      && !BeginRefused(q.labels, a) && !IsDuringOps(q.labels, a)
      && InPhase(Next(q, Starts(a), now).labels, PreCheckPhase, a.id, a.opType)
  {
    GuardedPodsAreSixPhased(p, events);
    var q := Run(p, events);
    var ph, id, t :| InPhase(q.labels, ph, id, t);
    PhaseIds(q.labels, ph, id, t);
    assert Untouched(q.labels);
    PhaseStep(q, Starts(a), now, ph, id, t);
  }

  // ------------------------------------------------------------- termination

  // The phase can be read off the labels.
  ghost function PhaseOf(l: Labels): Phase {
    if SomePrefix(l, PreCheck) then PreCheckPhase
    else if SomePrefix(l, Preparing) then PreparingPhase
    else if SomePrefix(l, Operate) then OperatePhase
    else if SomePrefix(l, PostCheck) then PostCheckPhase
    else if SomePrefix(l, Completing) then CompletingPhase
    else Resting
  }

  predicate SomePrefix(l: Labels, p: Prefix) {
    exists k :: k in l && PrefixOf(k) == Some(p)
  }

  lemma PhaseIsReadable(l: Labels, ph: Phase, id: Text, t: Text)
    requires InPhase(l, ph, id, t)
    ensures PhaseOf(l) == ph
  {
    forall p ensures SomePrefix(l, p) <==> p in PhaseMarks(ph) {
      if p in PhaseMarks(ph) {
        assert Tag(p, id) in l && PrefixOf(Tag(p, id)) == Some(p);
      }
    }
  }

  function Rank(ph: Phase): nat {
    match ph
    case Resting => 0
    case CompletingPhase => 1
    case PostCheckPhase => 2
    case OperatePhase => 3
    case PreparingPhase => 4
    case PreCheckPhase => 5
  }

  // The steps that the lifecycle is waiting for, each in its phase: a check passes,
  // the operation is finished or undone, operations may start, the expected
  // finalizers are there.
  ghost predicate Pushes(p: Pod, mv: Move, q: Pod) {
    || mv.Passes? || mv.Finishes? || mv.Cancels?
    || (PhaseOf(p.labels) == PreparingPhase && ReadyToOperate(q))
    || (PhaseOf(p.labels) == CompletingPhase && FinalizersSatisfied(q))
  }

  // The rank of the phase never rises except at a begin, a change of phase always
  // lowers it, and every awaited step that is accepted changes the phase.
  lemma RankFalls(p: Pod, mv: Move, now: Text)
    requires SixPhased(p.labels) && Enabled(p, mv) && Guarded(p, mv)
    ensures var q := Next(p, mv, now);
      && SixPhased(q.labels)
      && (!mv.Starts? && PhaseOf(q.labels) != PhaseOf(p.labels) ==> Rank(PhaseOf(q.labels)) < Rank(PhaseOf(p.labels)))
      && (!mv.Starts? && Accepted(p, Sent(p, mv, now), Validates(mv), now) && Pushes(p, mv, q) ==>
            Rank(PhaseOf(q.labels)) < Rank(PhaseOf(p.labels)))
  {
    var q := Next(p, mv, now);
    var ph, id, t :| InPhase(p.labels, ph, id, t);
    MoveFits(p, mv, ph, id, t);
    PhaseStep(p, mv, now, ph, id, t);
    PhaseIsReadable(p.labels, ph, id, t);
    if Accepted(p, Sent(p, mv, now), Validates(mv), now) {
      PhaseIsReadable(q.labels, PhaseAfter(ph, mv, ReadyToOperate(q), FinalizersSatisfied(q)), IdAfter(id, mv), TypeAfter(t, mv));
    }
  }

  ghost function Begins(events: seq<Event>): nat {
    if events == [] then 0 else (if events[0].move.Starts? then 1 else 0) + Begins(events[1..])
  }

  ghost function Changes(p: Pod, events: seq<Event>): nat
    decreases |events|
  {
    if events == [] then 0
    else
      var q := Next(p, events[0].move, events[0].now);
      (if PhaseOf(q.labels) != PhaseOf(p.labels) then 1 else 0) + Changes(q, events[1..])
  }

  // Each begin causes at most six changes of phase, itself included.
  lemma {:induction false} BeginsBoundChanges(p: Pod, events: seq<Event>)
    requires SixPhased(p.labels) && GuardedRun(p, events)
    ensures Changes(p, events) + Rank(PhaseOf(Run(p, events).labels)) <= Rank(PhaseOf(p.labels)) + 6 * Begins(events)
    decreases |events|
  {
    if events != [] {
      var q := Next(p, events[0].move, events[0].now);
      RankFalls(p, events[0].move, events[0].now);
      BeginsBoundChanges(q, events[1..]);
    }
  }
}
