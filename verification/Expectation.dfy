// Resource-version expectations (pkg/utils/expectation/resourceversion.go), and the
// protocol by which the PodTransitionRule controller reads its own status writes.

module Expectation {
  import opened Options
  import opened Pods

  // A resource version; the empty text reads as zero.
  datatype Version = Number(n: nat) | Garbled

  // What a version counter becomes: it only ever rises.
  function Raised(counter: nat, v: Version): nat {
    if v.Number? && counter < v.n then v.n else counter
  }

  predicate Passed(counter: nat, v: Version) {
    v.Number? && counter < v.n
  }

  class Item {
    var counter: nat

    constructor ()
      ensures counter == 0
    {
      counter := 0;
    }

    method Set(v: Version)
      modifies this
      ensures counter == Raised(old(counter), v)
      ensures old(counter) <= counter && (v.Number? ==> v.n <= counter) && (counter == old(counter) || v == Number(counter))
    {
      match v
      case Garbled => return;
      case Number(n) =>
        if counter < n {
          counter := n;
        }
    }

    predicate Fulfilled(v: Version)
      reads this
    {
      match v
      case Garbled => false
      case Number(n) => counter < n
    }
  }

  function Expected(counters: map<Text, nat>, key: Text, v: Version): map<Text, nat> {
    counters[key := Raised(if key in counters then counters[key] else 0, v)]
  }

  predicate Satisfied(counters: map<Text, nat>, key: Text, v: Version) {
    key in counters ==> Passed(counters[key], v)
  }

  class Expectations {
    var items: map<Text, Item>

    ghost predicate Valid()
      reads this
    {
      forall a, b :: a in items && b in items && a != b ==> items[a] != items[b]
    }

    ghost function Counters(): map<Text, nat>
      reads this, items.Values
    {
      map k | k in items :: items[k].counter
    }

    constructor ()
      ensures Valid() && Counters() == map[]
    {
      items := map[];
    }

    method ExpectUpdate(key: Text, v: Version)
      requires Valid()
      modifies this, items.Values
      ensures Valid() && Counters() == Expected(old(Counters()), key, v)
      ensures Counters().Keys == old(Counters()).Keys + {key} && (v.Number? ==> v.n <= Counters()[key])
      ensures forall k :: k in old(Counters()) ==>
        if k == key then old(Counters())[k] <= Counters()[k] else old(Counters())[k] == Counters()[k]
      ensures key !in old(Counters()) ==> Counters()[key] == if v.Number? then v.n else 0
    {
      if key in items {
        items[key].Set(v);
      } else {
        var item := new Item();
        item.Set(v);
        items := items[key := item];
      }
    }

    method SatisfiedExpectations(key: Text, v: Version) returns (ok: bool)
      ensures ok == Satisfied(Counters(), key, v)
      ensures ok <==> key !in Counters() || (v.Number? && Counters()[key] < v.n)
    {
      if key in items {
        ok := items[key].Fulfilled(v);
      } else {
        ok := true;
      }
    }

    method DeleteExpectations(key: Text)
      requires Valid()
      modifies this
      ensures Valid() && Counters() == old(Counters()) - {key}
    {
      items := items - {key};
    }
  }
}

module ReadYourWrites {
  import opened Options
  import opened Pods
  import opened Expectation

  // One rule object: the versions it has had, the version that the controller's cache
  // holds, the expectations, the version that a running reconcile works on, and the
  // version that the controller's last acknowledged status write made.
  datatype State = State(
    history: seq<nat>,
    cache: nat,
    counters: map<Text, nat>,
    held: Option<nat>,
    lastWrite: nat)

  // A status write is refused when it is not based on the current version.  It may also
  // go through without the controller hearing of it.
  datatype Step =
    | OtherWrites(v: nat)
    | CacheFollows(v: nat)
    | Reads
    | FinalizerAdded(v: nat)
    | FinalizerFails
    | StatusWritten(v: nat)
    | StatusLost(v: nat)
    | StatusFails
    | Leaves

  function Current(s: State): nat
    requires s.history != []
  {
    s.history[|s.history| - 1]
  }

  predicate Enabled(s: State, key: Text, step: Step)
    requires s.history != []
  {
    match step
    case OtherWrites(v) => v > Current(s)
    case CacheFollows(v) => v in s.history && v >= s.cache
    case Reads => s.held.None?
    case FinalizerAdded(v) => s.held == Some(Current(s)) && v > Current(s)
    case FinalizerFails => s.held.Some?
    case StatusWritten(v) => s.held == Some(Current(s)) && v > Current(s)
    case StatusLost(v) => s.held == Some(Current(s)) && v > Current(s)
    case StatusFails => s.held.Some?
    case Leaves => s.held.Some?
  }

  // Whether the reconcile that starts now goes past its expectation check.
  predicate GoesOn(s: State, key: Text) {
    Satisfied(s.counters, key, Number(s.cache))
  }

  function Next(s: State, key: Text, step: Step): State
    requires s.history != [] && Enabled(s, key, step)
  {
    match step
    case OtherWrites(v) => s.(history := s.history + [v])
    case CacheFollows(v) => s.(cache := v)
    case Reads => if GoesOn(s, key) then s.(held := Some(s.cache)) else s
    case FinalizerAdded(v) => s.(history := s.history + [v], held := Some(v))
    case FinalizerFails => s.(held := Some(s.cache))
    case StatusWritten(v) =>
      s.(history := s.history + [v], counters := Expected(s.counters, key, Number(s.held.value)), held := None, lastWrite := v)
    case StatusLost(v) =>
      s.(history := s.history + [v], counters := Expected(s.counters, key, Number(s.held.value)) - {key}, held := None)
    case StatusFails => s.(counters := Expected(s.counters, key, Number(s.held.value)) - {key}, held := None)
    case Leaves => s.(held := None)
  }

  ghost predicate Rising(history: seq<nat>) {
    history != [] && forall i, j :: 0 <= i < j < |history| ==> history[i] < history[j]
  }

  // The versions that are newer than the counter, when there is one, are as new as the
  // last write; without a counter the cache is.  The counter never catches up with the
  // current version.
  ghost predicate Vouched(s: State, key: Text) {
    && Rising(s.history) && s.cache in s.history && s.lastWrite <= Current(s)
    && (key in s.counters ==> s.counters[key] < Current(s))
    && (key in s.counters ==> forall v :: v in s.history && s.counters[key] < v ==> s.lastWrite <= v)
    && (key !in s.counters ==> s.lastWrite <= s.cache)
    && (s.held.Some? ==> s.lastWrite <= s.cache && s.lastWrite <= s.held.value <= Current(s))
  }

  lemma Appended(history: seq<nat>, v: nat)
    requires Rising(history) && v > history[|history| - 1]
    ensures Rising(history + [v])
    ensures forall u :: u in history + [v] <==> u in history || u == v
    ensures forall u :: u in history ==> u <= history[|history| - 1]
  {
  }

  lemma WriteVouches(s: State, key: Text, step: Step, v: nat)
    requires Vouched(s, key) && Enabled(s, key, step) && (step == StatusWritten(v) || step == StatusLost(v))
    ensures Vouched(Next(s, key, step), key)
  {
    Appended(s.history, v);
  }

  lemma StepVouches(s: State, key: Text, step: Step)
    requires Vouched(s, key) && Enabled(s, key, step)
    ensures Vouched(Next(s, key, step), key)
  {
    match step
    case OtherWrites(v) => Appended(s.history, v);
    case FinalizerAdded(v) => Appended(s.history, v);
    case StatusWritten(v) => WriteVouches(s, key, step, v);
    case StatusLost(v) => WriteVouches(s, key, step, v);
    case _ =>
      assert forall v :: v in s.history ==> v <= Current(s);
  }

  function Run(s: State, key: Text, steps: seq<Step>): State
    requires Possible(s, key, steps)
    decreases |steps|
  {
    if steps == [] then s else Run(Next(s, key, steps[0]), key, steps[1..])
  }

  predicate Possible(s: State, key: Text, steps: seq<Step>)
    decreases |steps|
  {
    && s.history != []
    && (steps == [] || (Enabled(s, key, steps[0]) && Possible(Next(s, key, steps[0]), key, steps[1..])))
  }

  lemma {:induction false} RunVouches(s: State, key: Text, steps: seq<Step>)
    requires Vouched(s, key) && Possible(s, key, steps)
    ensures Vouched(Run(s, key, steps), key)
    decreases |steps|
  {
    if steps != [] {
      StepVouches(s, key, steps[0]);
      RunVouches(Next(s, key, steps[0]), key, steps[1..]);
    }
  }

  // A controller that has just started: it expects nothing and has written nothing
  // newer than its cache.
  ghost predicate Started(s: State, key: Text) {
    Rising(s.history) && s.cache in s.history && key !in s.counters && s.held.None? && s.lastWrite <= s.cache
  }

  // In every reachable state a reconcile that goes past its expectation check reads a
  // version at least as new as the last acknowledged status write, whatever failed
  // writes did to the expectation in between; and the check cannot block for good, as a
  // cache that has caught up goes past it.
  lemma ReconcileSeesItsLastWrite(s: State, key: Text, steps: seq<Step>)
    requires Started(s, key) && Possible(s, key, steps)
    ensures var t := Run(s, key, steps);
      && t.history != []
      && (GoesOn(t, key) ==> t.lastWrite <= t.cache)
      && (t.cache == Current(t) ==> GoesOn(t, key))
  {
    assert s.cache <= Current(s);
    RunVouches(s, key, steps);
  }
}
