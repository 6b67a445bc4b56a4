// Everything that can happen to one Pod, one write at a time.  A write and its
// admissions are one atomic move.

module Machine {
  import opened Options
  import opened Pods
  import opened Admission
  import opened Validation
  import opened Server
  import opened Client
  import opened Checker
  import opened Controller

  datatype Move =
    | Starts(a: Adapter)                   // an operator begins a lifecycle
    | Finishes(a: Adapter)                 // ... finishes it
    | Cancels(a: Adapter)                  // ... undoes it
    | GoesOnline                           // the controller adds service-available
    | RaisesGate                           // ... puts the gate up, all lifecycles being gone
    | Passes(stage: Stage)                 // ... records a passed check
    | MovesGate                            // ... moves the gate for a phase
    | GoesOffline                          // ... drops service-available of an unready Pod
    | Touches(to: Pod, validated: bool)    // anybody writes something else

  // The keys that belong to the lifecycle.
  predicate LifecycleKey(k: Key) {
    !k.Plain? && !k.StayOffline? && !k.Creating? && !k.CompletingMark?
  }

  // The environment leaves lifecycle labels, gate and readiness gates alone.
  ghost predicate Foreign(p: Pod, to: Pod) {
    && (forall k :: LifecycleKey(k) ==> (k in p.labels <==> k in to.labels))
    && (forall k :: LifecycleKey(k) && k in p.labels ==> p.labels[k] == to.labels[k])
    && to.gate == p.gate && to.gated == p.gated
  }

  predicate InStage(l: Labels, stage: Stage) {
    exists k :: k in l && PrefixOf(k) == Some(if stage == PreCheckStage then PreCheck else PostCheck)
  }

  // When the code makes the move.  Finish writes whenever the ID or the type is there,
  // granted or not; Undo is made on present lifecycles only.
  ghost predicate Enabled(p: Pod, mv: Move) {
    match mv
    case Starts(a) => !BeginRefused(p.labels, a) && !IsDuringOps(p.labels, a)
    case Finishes(a) => Has(p.labels, Operating, a.id) || HasType(p.labels, a)
    case Cancels(a) => !Unparsable(p.labels) && a.id in Ids(p.labels)
    case GoesOnline => !Unparsable(p.labels) && Idle(p.labels) && !Available(p) && FinalizersSatisfied(p) && p.ready
    case RaisesGate => !Unparsable(p.labels) && Idle(p.labels) && NeedsGate(p, true)
    case Passes(stage) => !Unparsable(p.labels) && InStage(p.labels, stage) && Adds(p.labels, Some(stage)) != {}
    case MovesGate => !Unparsable(p.labels) && GateWanted(p.labels).Some? && NeedsGate(p, GateWanted(p.labels).value)
    case GoesOffline => !Unparsable(p.labels) && !p.ready
    case Touches(to, _) => Foreign(p, to)
  }

  // The object that the move sends to the server.
  function Sent(p: Pod, mv: Move, now: Text): Pod {
    match mv
    case Starts(a) => p.(labels := Begun(p.labels, a, now))
    case Finishes(a) => p.(labels := Finished(p.labels, a))
    case Cancels(a) => p.(labels := Cancelled(p.labels, a))
    case GoesOnline => Online(p, now)
    case RaisesGate => p.(gate := Up)
    case Passes(stage) => p.(labels := Stamp(p.labels, Adds(p.labels, Some(stage)), now))
    case MovesGate => p.(gate := if GateWanted(p.labels).Some? then GateAt(GateWanted(p.labels).value) else p.gate)
    case GoesOffline => p.(labels := p.labels - {ServiceAvailable})
    case Touches(to, _) => to
  }

  predicate Validates(mv: Move) {
    match mv
    case RaisesGate => false
    case MovesGate => false
    case Touches(_, validated) => validated
    case _ => true
  }

  function Next(p: Pod, mv: Move, now: Text): Pod {
    Stored(p, Sent(p, mv, now), Validates(mv), now)
  }

  datatype Event = Event(move: Move, now: Text)

  function Run(p: Pod, events: seq<Event>): Pod
    decreases |events|
  {
    if events == [] then p else Run(Next(p, events[0].move, events[0].now), events[1..])
  }

  ghost predicate Possible(p: Pod, events: seq<Event>)
    decreases |events|
  {
    events == [] || (Enabled(p, events[0].move) && Possible(Next(p, events[0].move, events[0].now), events[1..]))
  }

  // The stage that the rules pass a Pod in is the stage it is in.
  predicate Honest(l: Labels, passed: Option<Stage>) {
    passed.Some? ==> InStage(l, passed.value)
  }

  // A reconcile of the lifecycle controller is at most two moves of this machine,
  // so what every move keeps every reconcile keeps.
  lemma ReconcileIsMoves(p: Pod, passed: Option<Stage>, now: Text) returns (events: seq<Event>)
    requires Honest(p.labels, passed)
    ensures |events| <= 2 && Possible(p, events) && Run(p, events) == Reconciled(p, passed, now)
    ensures forall i :: 0 <= i < |events| ==>
      var mv := events[i].move; !mv.Starts? && !mv.Finishes? && !mv.Cancels? && !mv.Touches? && (mv.Passes? ==> passed == Some(mv.stage))
  {
    var l := p.labels;
    if Unparsable(l) || (Idle(l) && !Available(p) && p.conditions.Malformed?) {
      events := [];
    } else if Idle(l) && !Available(p) && FinalizersSatisfied(p) && p.ready {
      events := [Event(GoesOnline, now)];
      RunOne(p, events[0]);
    } else if Idle(l) && NeedsGate(p, true) {
      events := [Event(RaisesGate, now)];
      RunOne(p, events[0]);
    } else if Adds(l, passed) != {} {
      events := [Event(Passes(passed.value), now)];
      RunOne(p, events[0]);
    } else {
      events := GateMoves(p, now);
    }
  }

  lemma RunOne(p: Pod, e: Event)
    ensures Run(p, [e]) == Next(p, e.move, e.now)
    ensures Possible(p, [e]) <==> Enabled(p, e.move)
  {
  }

  lemma RunTwo(p: Pod, e: Event, f: Event)
    ensures Run(p, [e, f]) == Next(Next(p, e.move, e.now), f.move, f.now)
    ensures Possible(p, [e, f]) <==> Enabled(p, e.move) && Enabled(Next(p, e.move, e.now), f.move)
  {
    assert [e, f][1..] == [f];
    RunOne(Next(p, e.move, e.now), f);
  }

  lemma GateMoves(p: Pod, now: Text) returns (events: seq<Event>)
    requires !Unparsable(p.labels)
    ensures |events| <= 2 && Possible(p, events) && Run(p, events) == GateThenOffline(p, now)
    ensures forall i :: 0 <= i < |events| ==> events[i].move.MovesGate? || events[i].move.GoesOffline?
  {
    var up := GateWanted(p.labels);
    var write := up.Some? && NeedsGate(p, up.value);
    if write && !Accepted(p, p.(gate := GateAt(up.value)), false, now) {
      events := [];
    } else if write {
      var q := Next(p, MovesGate, now);
      RewriteStaysParsable(p.labels, Sent(p, MovesGate, now), now);
      RunOne(p, Event(MovesGate, now));
      RunTwo(p, Event(MovesGate, now), Event(GoesOffline, now));
      events := if p.ready then [Event(MovesGate, now)] else [Event(MovesGate, now), Event(GoesOffline, now)];
    } else {
      RunOne(p, Event(GoesOffline, now));
      events := if p.ready then [] else [Event(GoesOffline, now)];
    }
  }

  // An accepted rewrite adds no odd label.
  lemma RewriteStaysParsable(was: Labels, sent: Pod, now: Text)
    requires !Unparsable(sent.labels)
    ensures match Rewritten(Some(was), sent, now) case Fails(_) => true case Writes(l) => !Unparsable(l)
  {
    match Rewritten(Some(was), sent, now)
    case Fails(_) =>
    case Writes(l) =>
      forall k | k in l && k.Odd? ensures k in sent.labels {
      }
  }
}

// Operations that are not meant to run several times at once exclude each other.
module Exclusion {
  import opened Options
  import opened Pods
  import opened Admission
  import opened Server
  import opened Client
  import opened Controller
  import opened Machine
  import opened Rewrites

  // The operation types of `to` are among those of `from`.
  ghost predicate NoNewTypes(from: Labels, to: Labels) {
    forall k :: k in to && TypeKey(k) ==> k in from && from[k] == to[k]
  }

  lemma NoNewTypesKeepsDistinct(from: Labels, to: Labels)
    requires TypesDistinct(from) && NoNewTypes(from, to)
    ensures TypesDistinct(to)
  {
  }

  // No admission gives a lifecycle a type.
  lemma StoredTypes(was: Pod, sent: Pod, validated: bool, now: Text)
    ensures NoNewTypes(sent.labels, Stored(was, sent, validated, now).labels) || Stored(was, sent, validated, now) == was
  {
    if Accepted(was, sent, validated, now) && Controlled(sent.labels) {
      var after := Stored(was, sent, validated, now).labels;
      forall k | k in after && TypeKey(k) ensures k in sent.labels && sent.labels[k] == after[k] {
        TypesOnlyGo(Some(was.labels), sent, now, after, k);
      }
    }
  }

  // Only a begin does.
  lemma SentTypes(p: Pod, mv: Move, now: Text)
    requires Enabled(p, mv) && !mv.Starts?
    ensures NoNewTypes(p.labels, Sent(p, mv, now).labels)
  {
    if mv.Touches? {
      assert forall k :: TypeKey(k) ==> LifecycleKey(k);
    }
  }

  lemma MoveKeepsTypesDistinct(p: Pod, mv: Move, now: Text)
    requires TypesDistinct(p.labels) && Enabled(p, mv) && (mv.Starts? ==> !mv.a.multi)
    ensures TypesDistinct(Next(p, mv, now).labels)
  {
    var sent := Sent(p, mv, now);
    StoredTypes(p, sent, Validates(mv), now);
    if mv.Starts? {
      BegunIsDistinct(p.labels, mv.a, now);
    } else {
      SentTypes(p, mv, now);
      NoNewTypesKeepsDistinct(p.labels, sent.labels);
    }
    if Next(p, mv, now) != p {
      NoNewTypesKeepsDistinct(sent.labels, Next(p, mv, now).labels);
    }
  }

  // In every state of every run, with any number of lifecycles in any phases, no two of
  // them carry the same operation type, unless an operator asks for that.
  lemma {:induction false} TypesStayDistinct(p: Pod, events: seq<Event>)
    requires TypesDistinct(p.labels) && Possible(p, events)
    requires forall i :: 0 <= i < |events| && events[i].move.Starts? ==> !events[i].move.a.multi
    ensures TypesDistinct(Run(p, events).labels)
    decreases |events|
  {
    if events != [] {
      MoveKeepsTypesDistinct(p, events[0].move, events[0].now);
      TypesStayDistinct(Next(p, events[0].move, events[0].now), events[1..]);
    }
  }
}
