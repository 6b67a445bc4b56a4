// The chain of rules that one stage applies to its Pods
// (podtransitionrule/processor/processor.go).

module Processor {
  import opened Options
  import opened Pods
  import opened Checker

  // What a ruler answers for its subjects.
  datatype RulerResult = RulerResult(passed: set<Text>, rejected: set<Text>, err: bool, interval: Option<int>, state: Option<Text>)

  // A rule of the spec.  Its ruler, if it has one, is an arbitrary answer to the
  // subjects it is asked about; a chain asks it once.
  datatype Rule = Rule(
    name: Text,
    disabled: bool,
    skippedByEnv: bool,
    stage: Option<Stage>,
    defaultStage: Stage,
    weight: int,
    hasSkip: Pod -> bool,
    conditions: Option<Pod -> bool>,
    selector: Option<Pod -> bool>,
    ruler: Option<set<Text> -> RulerResult>)

  predicate Effective(rule: Rule, stage: Stage) {
    !rule.disabled && !rule.skippedByEnv &&
    (if rule.stage.None? then rule.defaultStage == stage else rule.stage.value == stage)
  }

  // A rule passes a Pod by: its annotation says so, none of the conditions holds of
  // it, or the filter does not select it.
  predicate Skips(rule: Rule, p: Pod) {
    || rule.hasSkip(p)
    || (rule.conditions.Some? && !rule.conditions.value(p))
    || (rule.selector.Some? && !rule.selector.value(p))
  }

  // 2^31 - 1 seconds in nanoseconds stand for no interval.
  const MAX_INTERVAL: int := 0x7fff_ffff * 1_000_000_000

  // The books of a chain.
  datatype Books = Books(
    processing: set<Text>,
    skipped: set<Text>,
    passInfo: map<Text, set<Text>>,
    rejected: map<Text, Text>,
    retry: bool,
    minInterval: int,
    states: seq<Text>)

  function Opening(inStage: set<Text>): Books {
    Books(inStage, {}, map n | n in inStage :: {}, map[], false, MAX_INTERVAL, [])
  }

  function Subjects(b: Books, rule: Rule, targets: map<Text, Pod>): set<Text> {
    set n | n in b.processing && !(n in targets && Skips(rule, targets[n]))
  }

  function PassedInto(passInfo: map<Text, set<Text>>, passed: set<Text>, rule: Text): map<Text, set<Text>> {
    map n | n in passInfo :: if n in passed then passInfo[n] + {rule} else passInfo[n]
  }

  // The books after one rule.
  function Apply(b: Books, rule: Rule, targets: map<Text, Pod>): Books {
    if rule.ruler.None? then b
    else
      var subjects := Subjects(b, rule, targets);
      var r := rule.ruler.value(subjects);
      var skipped := b.skipped + (b.processing - subjects);
      var shorter := r.interval.Some? && r.interval.value < b.minInterval;
      Books(r.passed + skipped, skipped,
            PassedInto(b.passInfo, r.passed, rule.name),
            b.rejected + (map n | n in r.rejected :: rule.name),
            b.retry || r.err || shorter,
            if shorter then r.interval.value else b.minInterval,
            if r.state.Some? then b.states + [r.state.value] else b.states)
  }

  function ApplyAll(b: Books, rules: seq<Rule>, targets: map<Text, Pod>): Books
    decreases |rules|
  {
    if rules == [] then b else ApplyAll(Apply(b, rules[0], targets), rules[1..], targets)
  }

  lemma {:induction false} ApplyLast(b: Books, rules: seq<Rule>, rule: Rule, targets: map<Text, Pod>)
    ensures ApplyAll(b, rules + [rule], targets) == Apply(ApplyAll(b, rules, targets), rule, targets)
    decreases |rules|
  {
    if rules == [] {
      assert [rule][1..] == [];
    } else {
      ApplyLast(Apply(b, rules[0], targets), rules[1..], rule, targets);
      assert (rules + [rule])[1..] == rules[1..] + [rule];
    }
  }

  // ------------------------------------------------------------ the chain itself

  predicate ByWeight(rules: seq<Rule>) {
    forall i, j :: 0 <= i < j < |rules| ==> rules[i].weight <= rules[j].weight
  }

  // The rules of the stage, in the order of the spec.
  function Selected(rules: seq<Rule>, stage: Stage): seq<Rule> {
    if rules == [] then []
    else Selected(rules[..|rules| - 1], stage) + if Effective(rules[|rules| - 1], stage) then [rules[|rules| - 1]] else []
  }

  // Insertion by weight.
  method Insert(sorted: seq<Rule>, rule: Rule) returns (longer: seq<Rule>)
    requires ByWeight(sorted)
    ensures ByWeight(longer) && multiset(longer) == multiset(sorted + [rule])
  {
    var at := 0;
    while at < |sorted| && sorted[at].weight <= rule.weight
      invariant 0 <= at <= |sorted|
      invariant forall j :: 0 <= j < at ==> sorted[j].weight <= rule.weight
    {
      at := at + 1;
    }
    assert sorted == sorted[..at] + sorted[at..];
    return sorted[..at] + [rule] + sorted[at..];
  }

  // The rules of the stage, light ones first.  Nothing is said about rules of equal
  // weight: the sort of the original is not stable.
  method EffectiveRules(rules: seq<Rule>, stage: Stage) returns (sorted: seq<Rule>)
    ensures forall i, j :: 0 <= i < j < |sorted| ==> sorted[i].weight <= sorted[j].weight
    ensures multiset(sorted) == multiset(Selected(rules, stage))
    ensures forall r :: r in sorted <==>
      r in rules && !r.disabled && !r.skippedByEnv && (match r.stage case None => r.defaultStage == stage case Some(s) => s == stage)
  {
    sorted := [];
    for i := 0 to |rules|
      invariant ByWeight(sorted) && multiset(sorted) == multiset(Selected(rules[..i], stage))
    {
      assert rules[..i + 1][..i] == rules[..i];
      if Effective(rules[i], stage) {
        sorted := Insert(sorted, rules[i]);
      }
    }
    assert rules[..|rules|] == rules;
    SelectedReads(rules, stage);
    assert forall r :: r in sorted <==> r in multiset(sorted);
    assert forall r :: r in Selected(rules, stage) <==> r in multiset(Selected(rules, stage));
  }

  lemma {:induction false} SelectedReads(rules: seq<Rule>, stage: Stage)
    ensures forall r :: r in Selected(rules, stage) <==>
      r in rules && !r.disabled && !r.skippedByEnv && (match r.stage case None => r.defaultStage == stage case Some(s) => s == stage)
    decreases |rules|
  {
    if rules != [] {
      var init, last := rules[..|rules| - 1], rules[|rules| - 1];
      SelectedReads(init, stage);
      assert forall r :: r in rules <==> r in init || r == last;
    }
  }

  datatype ProcessResult = ProcessResult(
    passRules: map<Text, set<Text>>, rejected: map<Text, Text>, retry: bool, interval: Option<int>, states: seq<Text>)

  function Closing(b: Books): ProcessResult {
    ProcessResult(b.passInfo, b.rejected, b.retry, if b.minInterval != MAX_INTERVAL then Some(b.minInterval) else None, b.states)
  }

  const NOTHING := ProcessResult(map[], map[], false, None, [])

  // ------------------------------------------------------------- when to retry

  // The answers that the rulers of a chain give.
  function Answers(b: Books, rules: seq<Rule>, targets: map<Text, Pod>): seq<RulerResult>
    decreases |rules|
  {
    if rules == [] then []
    else
      (if rules[0].ruler.Some? then [rules[0].ruler.value(Subjects(b, rules[0], targets))] else [])
      + Answers(Apply(b, rules[0], targets), rules[1..], targets)
  }

  ghost predicate Shortest(min: int, bound: int, answers: seq<RulerResult>) {
    && min <= bound
    && (forall r :: r in answers && r.interval.Some? ==> min <= r.interval.value)
    && (min == bound || exists r :: r in answers && r.interval == Some(min))
  }

  // A chain asks to be called again after the shortest interval of its rulers, and
  // retries at once iff one of them failed or gave an interval at all.
  lemma {:induction false} ChainRetries(b: Books, rules: seq<Rule>, targets: map<Text, Pod>)
    ensures var c, answers := ApplyAll(b, rules, targets), Answers(b, rules, targets);
      && Shortest(c.minInterval, b.minInterval, answers)
      && (c.retry <==> b.retry || c.minInterval < b.minInterval || exists r :: r in answers && r.err)
    decreases |rules|
  {
    if rules != [] {
      ChainRetries(Apply(b, rules[0], targets), rules[1..], targets);
      if rules[0].ruler.Some? {
        var first, rest := rules[0].ruler.value(Subjects(b, rules[0], targets)), Answers(Apply(b, rules[0], targets), rules[1..], targets);
        assert forall r :: r in [first] + rest <==> r == first || r in rest;
      } else {
        assert [] + Answers(b, rules[1..], targets) == Answers(b, rules[1..], targets);
      }
    }
  }

  function StatesOf(answers: seq<RulerResult>): seq<Text> {
    if answers == [] then []
    else (match answers[0].state case None => [] case Some(s) => [s]) + StatesOf(answers[1..])
  }

  // The states of the rulers are collected in the order of the chain.
  lemma {:induction false} ChainCollectsStates(b: Books, rules: seq<Rule>, targets: map<Text, Pod>)
    ensures ApplyAll(b, rules, targets).states == b.states + StatesOf(Answers(b, rules, targets))
    decreases |rules|
  {
    if rules != [] {
      ChainCollectsStates(Apply(b, rules[0], targets), rules[1..], targets);
      var rest := Answers(Apply(b, rules[0], targets), rules[1..], targets);
      if rules[0].ruler.Some? {
        assert Answers(b, rules, targets)[1..] == rest;
      } else {
        assert [] + rest == rest;
      }
    }
  }

  // What a chain reports, in terms of what its rulers answered.
  ghost predicate Reports(inStage: set<Text>, answers: seq<RulerResult>, r: ProcessResult) {
    && r.passRules.Keys == inStage
    && (r.retry <==> exists a :: a in answers && (a.err || (a.interval.Some? && a.interval.value < MAX_INTERVAL)))
    && (r.interval.Some? ==> r.interval.value < MAX_INTERVAL && exists a :: a in answers && a.interval == r.interval)
    && (forall a :: a in answers && a.interval.Some? && a.interval.value < MAX_INTERVAL ==>
          r.interval.Some? && r.interval.value <= a.interval.value)
    && r.states == StatesOf(answers)
  }

  lemma ChainReports(inStage: set<Text>, rules: seq<Rule>, targets: map<Text, Pod>)
    ensures Reports(inStage, Answers(Opening(inStage), rules, targets), Closing(ApplyAll(Opening(inStage), rules, targets)))
  {
    ChainRetries(Opening(inStage), rules, targets);
    ChainCollectsStates(Opening(inStage), rules, targets);
    ChainKeepsPods(Opening(inStage), rules, targets);
  }

  lemma {:induction false} ChainKeepsPods(b: Books, rules: seq<Rule>, targets: map<Text, Pod>)
    ensures ApplyAll(b, rules, targets).passInfo.Keys == b.passInfo.Keys
    decreases |rules|
  {
    if rules != [] {
      ChainKeepsPods(Apply(b, rules[0], targets), rules[1..], targets);
    }
  }

  // Process, on the Pods of the stage and its rules in some order by weight.
  method RunChain(targets: map<Text, Pod>, inStage: set<Text>, rules: seq<Rule>) returns (r: ProcessResult)
    requires inStage <= targets.Keys
    ensures r == if inStage == {} then NOTHING else Closing(ApplyAll(Opening(inStage), rules, targets))
    ensures inStage != {} ==> Reports(inStage, Answers(Opening(inStage), rules, targets), r)
  {
    if inStage == {} {
      return NOTHING;
    }
    var processing, skipped := inStage, {};
    var passInfo: map<Text, set<Text>> := map n | n in inStage :: {};
    var rejected: map<Text, Text> := map[];
    var retry, minInterval, states := false, MAX_INTERVAL, [];
    for i := 0 to |rules|
      invariant Books(processing, skipped, passInfo, rejected, retry, minInterval, states)
                == ApplyAll(Opening(inStage), rules[..i], targets)
    {
      ghost var b := Books(processing, skipped, passInfo, rejected, retry, minInterval, states);
      ApplyLast(Opening(inStage), rules[..i], rules[i], targets);
      assert rules[..i + 1] == rules[..i] + [rules[i]];
      if rules[i].ruler.Some? {
        var subjects := Subjects(Books(processing, skipped, passInfo, rejected, retry, minInterval, states), rules[i], targets);
        skipped := skipped + (processing - subjects);
        var result := rules[i].ruler.value(subjects);
        if result.state.Some? {
          states := states + [result.state.value];
        }
        if result.err {
          retry := true;
        }
        if result.interval.Some? && result.interval.value < minInterval {
          retry, minInterval := true, result.interval.value;
        }
        passInfo := PassedInto(passInfo, result.passed, rules[i].name);
        rejected := rejected + map n | n in result.rejected :: rules[i].name;
        processing := result.passed + skipped;
      }
    }
    assert rules[..|rules|] == rules;
    ChainReports(inStage, rules, targets);
    return Closing(Books(processing, skipped, passInfo, rejected, retry, minInterval, states));
  }

  // ------------------------------------------------------------------- verdicts

  // A ruler that puts each of its subjects in exactly one of passed and rejected.
  ghost predicate Fair(rule: Rule) {
    rule.ruler.Some? ==>
      forall s :: var r := rule.ruler.value(s); r.passed + r.rejected == s && r.passed !! r.rejected
  }

  datatype Outcome = NoRuler | NotAsked | SkippedBy | PassedBy | RejectedBy

  // What a rule does to a Pod of the stage.
  function OutcomeOf(b: Books, rule: Rule, targets: map<Text, Pod>, n: Text): Outcome {
    if rule.ruler.None? then NoRuler
    else if n !in b.processing then NotAsked
    else if n !in Subjects(b, rule, targets) then SkippedBy
    else if n in rule.ruler.value(Subjects(b, rule, targets)).rejected then RejectedBy
    else PassedBy
  }

  function Outcomes(b: Books, rules: seq<Rule>, targets: map<Text, Pod>, n: Text): (o: seq<Outcome>)
    ensures |o| == |rules|
    decreases |rules|
  {
    if rules == [] then []
    else [OutcomeOf(b, rules[0], targets, n)] + Outcomes(Apply(b, rules[0], targets), rules[1..], targets, n)
  }

  ghost predicate Sound(b: Books) {
    && b.skipped <= b.processing <= b.passInfo.Keys
    && forall n :: n in b.passInfo && n !in b.rejected ==> n in b.processing
  }

  lemma ApplyIsSound(b: Books, rule: Rule, targets: map<Text, Pod>)
    requires Sound(b) && Fair(rule) && b.skipped <= b.processing
    ensures Sound(Apply(b, rule, targets)) && Apply(b, rule, targets).passInfo.Keys == b.passInfo.Keys
  {
    if rule.ruler.Some? {
      var s := Subjects(b, rule, targets);
      var r := rule.ruler.value(s);
      forall n | n in b.processing ensures n in s || n in b.processing - s {
      }
    }
  }

  predicate Clear(o: Outcome) {
    o == NoRuler || o == SkippedBy || o == PassedBy
  }

  // A Pod of the stage ends without a rejection iff every rule with a ruler skipped it
  // or passed it.
  lemma {:induction false} UnrejectedIffClear(b: Books, rules: seq<Rule>, targets: map<Text, Pod>, n: Text)
    requires Sound(b) && n in b.passInfo && n !in b.rejected
    requires forall r :: r in rules ==> Fair(r)
    ensures n !in ApplyAll(b, rules, targets).rejected <==> forall o :: o in Outcomes(b, rules, targets, n) ==> Clear(o)
    decreases |rules|
  {
    if rules != [] {
      var c := Apply(b, rules[0], targets);
      var first := OutcomeOf(b, rules[0], targets, n);
      assert Outcomes(b, rules, targets, n) == [first] + Outcomes(c, rules[1..], targets, n);
      ApplyIsSound(b, rules[0], targets);
      if n in c.rejected {
        assert !Clear(first);
        StaysRejected(c, rules[1..], targets, n);
      } else {
        assert Clear(first);
        UnrejectedIffClear(c, rules[1..], targets, n);
      }
    }
  }

  lemma {:induction false} StaysRejected(b: Books, rules: seq<Rule>, targets: map<Text, Pod>, n: Text)
    requires n in b.rejected
    ensures n in ApplyAll(b, rules, targets).rejected
    decreases |rules|
  {
    if rules != [] {
      StaysRejected(Apply(b, rules[0], targets), rules[1..], targets, n);
    }
  }

  // A rule that comes to a Pod passes it by iff the Pod's annotation says so, none of the
  // conditions holds of it, or the filter does not select it.  Otherwise its ruler is asked
  // about the Pod, and about no Pod that it passes by.
  lemma {:induction false} SkippedIff(b: Books, rules: seq<Rule>, targets: map<Text, Pod>, n: Text, j: nat)
    requires j < |rules| && n in targets && rules[j].ruler.Some? && Outcomes(b, rules, targets, n)[j] != NotAsked
    ensures var rule, o := rules[j], Outcomes(b, rules, targets, n)[j];
      && (o == SkippedBy <==>
            || rule.hasSkip(targets[n])
            || (rule.conditions.Some? && !rule.conditions.value(targets[n]))
            || (rule.selector.Some? && !rule.selector.value(targets[n])))
      && (o != SkippedBy ==> exists s :: n in s && (o == RejectedBy <==> n in rule.ruler.value(s).rejected)
                                         && forall m :: m in s && m in targets ==> !rule.hasSkip(targets[m]))
    decreases j
  {
    if j > 0 {
      SkippedIff(Apply(b, rules[0], targets), rules[1..], targets, n, j - 1);
    } else if n in Subjects(b, rules[0], targets) {
      assert n in Subjects(b, rules[0], targets) && forall m :: m in Subjects(b, rules[0], targets) && m in targets ==> !rules[0].hasSkip(targets[m]);
    }
  }

  // The published rejection of a Pod is that of the last rule that rejected it.
  lemma {:induction false} RejectionNamesLast(b: Books, rules: seq<Rule>, targets: map<Text, Pod>, n: Text)
    requires n in ApplyAll(b, rules, targets).rejected
    requires forall r :: r in rules ==> Fair(r)
    ensures var o, name := Outcomes(b, rules, targets, n), ApplyAll(b, rules, targets).rejected[n];
      || (RejectedBy !in o && n in b.rejected && name == b.rejected[n])
      || (exists i :: 0 <= i < |rules| && o[i] == RejectedBy && rules[i].name == name && RejectedBy !in o[i + 1..])
    decreases |rules|
  {
    if rules != [] {
      var c, o := Apply(b, rules[0], targets), Outcomes(b, rules, targets, n);
      var rest := Outcomes(c, rules[1..], targets, n);
      RejectionNamesLast(c, rules[1..], targets, n);
      assert o == [OutcomeOf(b, rules[0], targets, n)] + rest;
      if RejectedBy in rest {
        var i :| 0 <= i < |rules[1..]| && rest[i] == RejectedBy && rules[1..][i].name == ApplyAll(b, rules, targets).rejected[n] && RejectedBy !in rest[i + 1..];
        assert o[i + 1] == RejectedBy && rules[i + 1].name == rules[1..][i].name && o[i + 2..] == rest[i + 1..];
      } else if o[0] == RejectedBy {
        assert o[1..] == rest;
      } else {
        NotRejectedNow(b, rules[0], targets, n);
      }
    }
  }

  lemma NotRejectedNow(b: Books, rule: Rule, targets: map<Text, Pod>, n: Text)
    requires Fair(rule) && OutcomeOf(b, rule, targets, n) != RejectedBy && n in Apply(b, rule, targets).rejected
    ensures n in b.rejected && Apply(b, rule, targets).rejected[n] == b.rejected[n]
  {
    if rule.ruler.Some? {
      var s := Subjects(b, rule, targets);
      assert rule.ruler.value(s).rejected <= s;
    }
  }

  // A rule of that name passed the Pod.
  ghost predicate SomePasses(rules: seq<Rule>, o: seq<Outcome>, rule: Text)
    requires |o| == |rules|
  {
    exists i :: 0 <= i < |rules| && rules[i].name == rule && o[i] == PassedBy
  }

  lemma SomePassesStep(rules: seq<Rule>, o: seq<Outcome>, rule: Text)
    requires |o| == |rules| > 0
    ensures SomePasses(rules, o, rule) <==>
            (rules[0].name == rule && o[0] == PassedBy) || SomePasses(rules[1..], o[1..], rule)
  {
    if SomePasses(rules[1..], o[1..], rule) {
      var i :| 0 <= i < |rules[1..]| && rules[1..][i].name == rule && o[1..][i] == PassedBy;
      assert rules[i + 1].name == rule && o[i + 1] == PassedBy;
    }
    if SomePasses(rules, o, rule) {
      var i :| 0 <= i < |rules| && rules[i].name == rule && o[i] == PassedBy;
      assert i > 0 ==> rules[1..][i - 1].name == rule && o[1..][i - 1] == PassedBy;
    }
  }

  // The passed rules that are published for a Pod are those that passed it.
  lemma {:induction false} PassInfoRecordsPasses(b: Books, rules: seq<Rule>, targets: map<Text, Pod>, n: Text, rule: Text)
    requires Sound(b) && n in b.passInfo
    requires forall r :: r in rules ==> Fair(r)
    ensures n in ApplyAll(b, rules, targets).passInfo
    ensures rule in ApplyAll(b, rules, targets).passInfo[n] <==>
            rule in b.passInfo[n] || SomePasses(rules, Outcomes(b, rules, targets, n), rule)
    decreases |rules|
  {
    if rules != [] {
      var c, o := Apply(b, rules[0], targets), Outcomes(b, rules, targets, n);
      ApplyIsSound(b, rules[0], targets);
      PassInfoRecordsPasses(c, rules[1..], targets, n, rule);
      SomePassesStep(rules, o, rule);
      assert o[1..] == Outcomes(c, rules[1..], targets, n);
      assert rule in c.passInfo[n] <==> rule in b.passInfo[n] || (rules[0].name == rule && o[0] == PassedBy);
    }
  }

  lemma {:induction false} SkippedIsAlwaysAsked(b: Books, rules: seq<Rule>, targets: map<Text, Pod>, n: Text, j: nat)
    requires n in b.skipped && b.skipped <= b.processing && j < |rules|
    ensures Outcomes(b, rules, targets, n)[j] != NotAsked
    decreases j
  {
    if j > 0 {
      SkippedIsAlwaysAsked(Apply(b, rules[0], targets), rules[1..], targets, n, j - 1);
    }
  }

  lemma {:induction false} OutIsNeverAsked(b: Books, rules: seq<Rule>, targets: map<Text, Pod>, n: Text, j: nat)
    requires n !in b.skipped && n !in b.processing && j < |rules|
    requires forall r :: r in rules ==> Fair(r)
    ensures Outcomes(b, rules, targets, n)[j] in {NotAsked, NoRuler}
    decreases j
  {
    if j > 0 {
      if rules[0].ruler.Some? {
        assert Fair(rules[0]);
        var s := Subjects(b, rules[0], targets);
        assert n !in rules[0].ruler.value(s).passed + rules[0].ruler.value(s).rejected;
      }
      OutIsNeverAsked(Apply(b, rules[0], targets), rules[1..], targets, n, j - 1);
    }
  }

  predicate SkippedBefore(o: seq<Outcome>, i: nat)
    requires i <= |o|
  {
    SkippedBy in o[..i]
  }

  lemma {:induction false} RulersAnswer(b: Books, rules: seq<Rule>, targets: map<Text, Pod>, n: Text, j: nat)
    requires j < |rules|
    ensures Outcomes(b, rules, targets, n)[j] == NoRuler <==> rules[j].ruler.None?
    decreases j
  {
    if j > 0 {
      RulersAnswer(Apply(b, rules[0], targets), rules[1..], targets, n, j - 1);
    }
  }

  // After a rejection a Pod is put to a later rule iff some rule had skipped it before
  // the rejection; so a Pod that was never skipped is not.
  lemma {:induction false} AskedAgainIffSkipped(b: Books, rules: seq<Rule>, targets: map<Text, Pod>, n: Text, i: nat, j: nat)
    requires Sound(b) && n in b.processing && i < j < |rules| && rules[j].ruler.Some?
    requires forall r :: r in rules ==> Fair(r)
    requires Outcomes(b, rules, targets, n)[i] == RejectedBy
    ensures Outcomes(b, rules, targets, n)[j] != NotAsked <==> n in b.skipped || SkippedBefore(Outcomes(b, rules, targets, n), i)
    decreases i
  {
    var c := Apply(b, rules[0], targets);
    var rest := Outcomes(c, rules[1..], targets, n);
    assert Outcomes(b, rules, targets, n) == [OutcomeOf(b, rules[0], targets, n)] + rest;
    ApplyIsSound(b, rules[0], targets);
    RulersAnswer(b, rules, targets, n, j);
    if i == 0 {
      if n in c.skipped {
        SkippedIsAlwaysAsked(c, rules[1..], targets, n, j - 1);
      } else {
        OutIsNeverAsked(c, rules[1..], targets, n, j - 1);
      }
    } else if n in c.processing {
      AskedAgainIffSkipped(c, rules[1..], targets, n, i - 1, j - 1);
      assert Outcomes(b, rules, targets, n)[..i] == [OutcomeOf(b, rules[0], targets, n)] + rest[..i - 1];
    } else {
      OutIsNeverAsked(c, rules[1..], targets, n, i - 1);
    }
  }
}
