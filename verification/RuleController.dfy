// What a reconcile of a PodTransitionRule makes of the results of its stages
// (podtransitionrule_controller.go).  The stages run concurrently and merge what they
// found one after the other, under a lock, in whatever order they finish.

module RuleController {
  import opened Options
  import opened Pods
  import opened Checker
  import opened Processor
  import opened Machine
  import opened Phases

  datatype Finish = Finish(stage: Stage, result: ProcessResult)

  datatype Merged = Merged(details: map<Text, Detail>, interval: Option<int>, retry: bool, states: seq<Text>)

  const EMPTY_MERGE := Merged(map[], None, false, [])

  // A Pod's detail with the word of one more stage.
  function Noted(details: map<Text, Detail>, f: Finish, n: Text): Detail
    requires n in f.result.passRules
  {
    var before := if n in details then details[n] else Detail(Some(f.stage), true, {}, []);
    var rejections := before.rejections + if n in f.result.rejected then [f.result.rejected[n]] else [];
    before.(passedRules := before.passedRules + f.result.passRules[n], rejections := rejections, passed := rejections == [])
  }

  function NotedAll(details: map<Text, Detail>, f: Finish, names: set<Text>): map<Text, Detail>
    requires names <= f.result.passRules.Keys
  {
    details + map n | n in names :: Noted(details, f, n)
  }

  function MergeOne(m: Merged, f: Finish): Merged {
    Merged(NotedAll(m.details, f, f.result.passRules.Keys), Shorter(m.interval, f.result.interval),
           m.retry || f.result.retry, m.states + f.result.states)
  }

  function MergeAll(finishes: seq<Finish>): Merged
    decreases |finishes|
  {
    if finishes == [] then EMPTY_MERGE
    else MergeOne(MergeAll(finishes[..|finishes| - 1]), finishes[|finishes| - 1])
  }

  // updateDetail: the Pods of the stage in any order.
  method UpdateDetail(details: map<Text, Detail>, f: Finish) returns (updated: map<Text, Detail>)
    ensures updated == NotedAll(details, f, f.result.passRules.Keys)
  {
    updated := details;
    var seen: set<Text> := {};
    while seen != f.result.passRules.Keys
      invariant seen <= f.result.passRules.Keys
      invariant forall n :: n in updated <==> n in details || n in seen
      invariant forall n :: n in updated ==> updated[n] == if n in seen then Noted(details, f, n) else details[n]
      decreases f.result.passRules.Keys - seen
    {
      Unseen(seen, f.result.passRules.Keys);
      var n :| n in f.result.passRules.Keys - seen;
      var detail := if n in updated then updated[n] else Detail(Some(f.stage), true, {}, []);
      detail := detail.(passedRules := detail.passedRules + f.result.passRules[n]);
      if n in f.result.rejected {
        detail := detail.(rejections := detail.rejections + [f.result.rejected[n]]);
      }
      detail := detail.(passed := |detail.rejections| == 0);
      updated := updated[n := detail];
      seen := seen + {n};
    }
  }

  // The merging half of process, for one order in which the stages finish.
  method Process(finishes: seq<Finish>) returns (m: Merged)
    ensures m == MergeAll(finishes)
  {
    m := EMPTY_MERGE;
    for i := 0 to |finishes|
      invariant m == MergeAll(finishes[..i])
    {
      var f := finishes[i];
      assert finishes[..i + 1][..i] == finishes[..i];
      var interval, retry := m.interval, m.retry;
      if f.result.interval.Some? {
        if interval.None? || interval.value > f.result.interval.value {
          interval := f.result.interval;
        }
      }
      if f.result.retry {
        retry := true;
      }
      var details := UpdateDetail(m.details, f);
      m := Merged(details, interval, retry, m.states + f.result.states);
    }
    assert finishes[..|finishes|] == finishes;
  }

  // ------------------------------------------------------- order independence

  // No Pod is looked at by two stages.
  predicate OneStageEach(finishes: seq<Finish>) {
    forall i, j :: 0 <= i < j < |finishes| ==> finishes[i].result.passRules.Keys !! finishes[j].result.passRules.Keys
  }

  // The word of the only stage that looked at a Pod.
  function OnlyWord(f: Finish, n: Text): Detail
    requires n in f.result.passRules
  {
    Noted(map[], f, n)
  }

  // A detail says of a Pod what the stage found: the stage itself, the rules that passed
  // the Pod, and the rejection, without which it is passed.
  predicate SaysOf(d: Detail, f: Finish, n: Text)
    requires n in f.result.passRules
  {
    d == if n in f.result.rejected then Detail(Some(f.stage), false, f.result.passRules[n], [f.result.rejected[n]])
         else Detail(Some(f.stage), true, f.result.passRules[n], [])
  }

  // What a merge holds, said without an order.
  ghost predicate Holds(m: Merged, finishes: multiset<Finish>) {
    && (forall n :: n in m.details <==> exists f :: f in finishes && n in f.result.passRules)
    && (forall f, n :: f in finishes && n in f.result.passRules ==> SaysOf(m.details[n], f, n))
    && (m.retry <==> exists f :: f in finishes && f.result.retry)
    && (m.interval.Some? ==> exists f :: f in finishes && f.result.interval == m.interval)
    && (forall f :: f in finishes && f.result.interval.Some? ==> m.interval.Some? && m.interval.value <= f.result.interval.value)
  }

  lemma {:induction false} MergeHolds(finishes: seq<Finish>)
    requires OneStageEach(finishes)
    ensures Holds(MergeAll(finishes), multiset(finishes))
    decreases |finishes|
  {
    if finishes != [] {
      var init, f := finishes[..|finishes| - 1], finishes[|finishes| - 1];
      assert finishes == init + [f];
      MergeHolds(init);
      forall g | g in init ensures g.result.passRules.Keys !! f.result.passRules.Keys {
        var i :| 0 <= i < |init| && init[i] == g;
        assert finishes[i] == g;
      }
      HoldsStep(MergeAll(init), init, f);
    }
  }

  lemma MergedKey(m: Merged, f: Finish, n: Text)
    ensures var d := MergeOne(m, f).details;
      && (n in d <==> n in m.details || n in f.result.passRules)
      && (n in f.result.passRules ==> d[n] == Noted(m.details, f, n))
      && (n in m.details && n !in f.result.passRules ==> d[n] == m.details[n])
  {
  }

  lemma FirstWordSays(details: map<Text, Detail>, f: Finish, n: Text)
    requires n in f.result.passRules && n !in details
    ensures SaysOf(Noted(details, f, n), f, n)
  {
  }

  lemma KeysStep(m: Merged, init: seq<Finish>, f: Finish, n: Text)
    requires Holds(m, multiset(init))
    ensures n in MergeOne(m, f).details <==> exists g :: g in multiset(init + [f]) && n in g.result.passRules
  {
    MergedKey(m, f, n);
    assert forall g :: g in multiset(init + [f]) <==> g in multiset(init) || g == f;
  }

  lemma DetailsStep(m: Merged, init: seq<Finish>, f: Finish, n: Text, g: Finish)
    requires Holds(m, multiset(init)) && forall g :: g in init ==> g.result.passRules.Keys !! f.result.passRules.Keys
    requires g in multiset(init + [f]) && n in g.result.passRules
    ensures n in MergeOne(m, f).details && SaysOf(MergeOne(m, f).details[n], g, n)
  {
    MergedKey(m, f, n);
    if n in f.result.passRules {
      assert n !in m.details;
      FirstWordSays(m.details, f, n);
      assert g == f;
    } else {
      assert g in multiset(init);
    }
  }

  lemma HoldsStep(m: Merged, init: seq<Finish>, f: Finish)
    requires Holds(m, multiset(init)) && forall g :: g in init ==> g.result.passRules.Keys !! f.result.passRules.Keys
    ensures Holds(MergeOne(m, f), multiset(init + [f]))
  {
    forall n { KeysStep(m, init, f, n); }
    forall g, n | g in multiset(init + [f]) && n in g.result.passRules ensures SaysOf(MergeOne(m, f).details[n], g, n) {
      DetailsStep(m, init, f, n, g);
    }
    assert forall g :: g in multiset(init + [f]) <==> g in multiset(init) || g == f;
  }

  // Two merges that hold the same agree.
  lemma HoldsDetermines(a: Merged, b: Merged, finishes: multiset<Finish>)
    requires Holds(a, finishes) && Holds(b, finishes)
    ensures a.details == b.details && a.retry == b.retry && a.interval == b.interval
  {
    forall n ensures (n in a.details <==> n in b.details) && (n in a.details ==> a.details[n] == b.details[n]) {
      DetailsAgree(a, b, finishes, n);
    }
  }

  lemma DetailsAgree(a: Merged, b: Merged, finishes: multiset<Finish>, n: Text)
    requires Holds(a, finishes) && Holds(b, finishes)
    ensures (n in a.details <==> n in b.details) && (n in a.details ==> a.details[n] == b.details[n])
  {
    if f :| f in finishes && n in f.result.passRules {
      assert SaysOf(a.details[n], f, n) && SaysOf(b.details[n], f, n);
    }
  }

  function AllStates(finishes: seq<Finish>): multiset<Text> {
    if finishes == [] then multiset{} else multiset(finishes[0].result.states) + AllStates(finishes[1..])
  }

  lemma {:induction false} StatesAppend(finishes: seq<Finish>, f: Finish)
    ensures AllStates(finishes + [f]) == AllStates(finishes) + multiset(f.result.states)
    decreases |finishes|
  {
    if finishes == [] {
      assert [f][1..] == [];
    } else {
      assert (finishes + [f])[1..] == finishes[1..] + [f];
      StatesAppend(finishes[1..], f);
    }
  }

  lemma {:induction false} MergeCollectsStates(finishes: seq<Finish>)
    ensures multiset(MergeAll(finishes).states) == AllStates(finishes)
    decreases |finishes|
  {
    if finishes != [] {
      var init, f := finishes[..|finishes| - 1], finishes[|finishes| - 1];
      MergeCollectsStates(init);
      StatesAppend(init, f);
      assert finishes == init + [f];
    }
  }

  lemma RestOfSlices(finishes: seq<Finish>, i: nat)
    requires 0 < i < |finishes|
    ensures var others := finishes[..i] + finishes[i + 1..];
      others[0] == finishes[0] && others[1..] == finishes[1..][..i - 1] + finishes[1..][i..]
  {
  }

  lemma {:induction false} StatesTakes(finishes: seq<Finish>, i: nat)
    requires i < |finishes|
    ensures AllStates(finishes) == multiset(finishes[i].result.states) + AllStates(finishes[..i] + finishes[i + 1..])
    decreases i
  {
    if i > 0 {
      StatesTakes(finishes[1..], i - 1);
      RestOfSlices(finishes, i);
    } else {
      assert finishes[..0] + finishes[1..] == finishes[1..];
    }
  }

  lemma {:induction false} StatesOfPermutation(a: seq<Finish>, b: seq<Finish>)
    requires multiset(a) == multiset(b)
    ensures AllStates(a) == AllStates(b)
    decreases |a|
  {
    if a == [] {
      assert |multiset(b)| == 0;
    } else {
      assert a[0] in multiset(b);
      var i :| 0 <= i < |b| && b[i] == a[0];
      var rest := b[..i] + b[i + 1..];
      assert b == b[..i] + [b[i]] + b[i + 1..];
      assert a == [a[0]] + a[1..];
      assert multiset(rest) == multiset(b) - multiset{a[0]} == multiset(a[1..]);
      StatesTakes(b, i);
      StatesOfPermutation(a[1..], rest);
    }
  }

  // The merge does not depend on the order in which the stages finish.
  lemma ScheduleIndependent(a: seq<Finish>, b: seq<Finish>)
    requires multiset(a) == multiset(b) && OneStageEach(a) && OneStageEach(b)
    ensures var p, q := MergeAll(a), MergeAll(b);
      p.details == q.details && p.retry == q.retry && p.interval == q.interval && multiset(p.states) == multiset(q.states)
  {
    MergeHolds(a);
    MergeHolds(b);
    HoldsDetermines(MergeAll(a), MergeAll(b), multiset(a));
    StatesOfPermutation(a, b);
    MergeCollectsStates(a);
    MergeCollectsStates(b);
  }

  // For two stages this is exact: a Pod that both looked at keeps the stage of the one
  // that finished first.
  lemma OrderMattersIffShared(f: Finish, g: Finish)
    requires f.stage != g.stage
    ensures MergeAll([f, g]).details == MergeAll([g, f]).details <==> f.result.passRules.Keys !! g.result.passRules.Keys
  {
    var p, q := MergeAll([f, g]).details, MergeAll([g, f]).details;
    if f.result.passRules.Keys !! g.result.passRules.Keys {
      forall n ensures (n in p <==> n in q) && (n in p ==> p[n] == q[n]) {
        MergeTwoKey(f, g, n);
        MergeTwoKey(g, f, n);
      }
    } else {
      var n :| n in f.result.passRules && n in g.result.passRules;
      MergeTwoKey(f, g, n);
      MergeTwoKey(g, f, n);
    }
  }

  lemma MergeTwoKey(f: Finish, g: Finish, n: Text)
    ensures var d := MergeAll([f, g]).details;
      && (n in d <==> n in f.result.passRules || n in g.result.passRules)
      && (n in f.result.passRules ==> d[n].stage == Some(f.stage))
      && (n in f.result.passRules && n !in g.result.passRules ==> d[n] == OnlyWord(f, n))
      && (n in g.result.passRules && n !in f.result.passRules ==> d[n] == OnlyWord(g, n))
  {
    MergeTwo(f, g);
    MergedKey(EMPTY_MERGE, f, n);
    MergedKey(MergeOne(EMPTY_MERGE, f), g, n);
  }

  lemma MergeTwo(f: Finish, g: Finish)
    ensures MergeAll([f, g]) == MergeOne(MergeOne(EMPTY_MERGE, f), g)
  {
    assert [f, g][..1] == [f] && [f][..0] == [];
    assert MergeAll([f]) == MergeOne(MergeAll([]), f);
  }

  // A Pod in one of the six phases is in at most one stage.
  lemma SixPhasedIsInOneStage(l: Labels)
    requires SixPhased(l)
    ensures !(InStage(l, PreCheckStage) && InStage(l, PostCheckStage))
    ensures InStage(l, PreCheckStage) <==> PhaseOf(l) == PreCheckPhase
  {
    var ph, id, t :| InPhase(l, ph, id, t);
    PhaseIsReadable(l, ph, id, t);
    PhaseIds(l, ph, id, t);
    if InStage(l, PreCheckStage) {
      PassFits(l, PreCheckStage, ph, id, t);
    }
    if InStage(l, PostCheckStage) {
      PassFits(l, PostCheckStage, ph, id, t);
    }
  }
}
