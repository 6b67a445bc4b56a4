// Rules that ask an external service (processor/rules/webhook.go): the service may
// approve at once, or later, through a task that is polled.

module WebhookRule {
  import opened Options
  import opened Pods

  // A polled task.
  datatype Task = Task(id: Text, approved: set<Text>, processing: set<Text>)

  // The latest result of polling a task.
  datatype Poll = Poll(approveAll: bool, stopped: bool, approved: set<Text>)

  // What the first request is answered.
  datatype Response = NoResponse | Response(success: bool, poll: bool, taskId: Text, finished: set<Text>)

  datatype Why = Running(task: Text) | Stopped(task: Text) | Unreachable | Refused | NoTaskId | NoPolling | Started(task: Text)

  type Polls = Text -> Poll

  // --------------------------------------------------------- the bookkeeping

  function Members(t: Task): set<Text> {
    t.approved + t.processing
  }

  function Recorded(t: Task, approved: set<Text>): Task {
    t.(approved := t.approved + approved * t.processing, processing := t.processing - approved)
  }

  // A task that is carried on loses and gains nobody; Pods only move from processing to
  // approved, and no Pod is in both.
  lemma RecordedConserves(t: Task, approved: set<Text>)
    ensures var r := Recorded(t, approved);
      && r.id == t.id && Members(r) == Members(t) && t.approved <= r.approved && r.processing <= t.processing
      && r.approved - t.approved == t.processing * approved - t.approved
      && (t.approved !! t.processing ==> r.approved !! r.processing)
  {
    var r := Recorded(t, approved);
    forall n ensures n in Members(r) <==> n in Members(t) {
    }
  }

  // No Pod is in two tasks, or approved and processing in one.
  ghost predicate Separate(tasks: seq<Task>) {
    && (forall i :: 0 <= i < |tasks| ==> tasks[i].approved !! tasks[i].processing)
    && forall i, j :: 0 <= i < j < |tasks| ==> tasks[i].id != tasks[j].id && Members(tasks[i]) !! Members(tasks[j])
  }

  // ------------------------------------------------------------ fates of Pods

  predicate Live(open: set<Text>, t: Task) {
    exists n :: n in t.processing && n in open
  }

  predicate Grants(poll: Poll, n: Text) {
    poll.approveAll || n in poll.approved
  }

  predicate Granted(open: set<Text>, t: Task, polls: Polls, n: Text) {
    n in open && Live(open, t) && (n in t.approved || (n in t.processing && Grants(polls(t.id), n)))
  }

  predicate Held(open: set<Text>, t: Task, polls: Polls, n: Text) {
    n in open && n in t.processing && !Grants(polls(t.id), n)
  }

  // Some task among `tasks` grants, or holds, the Pod.
  ghost predicate SomeGrants(open: set<Text>, tasks: seq<Task>, polls: Polls, n: Text) {
    exists t :: t in tasks && Granted(open, t, polls, n)
  }

  ghost predicate SomeHolds(open: set<Text>, tasks: seq<Task>, polls: Polls, n: Text) {
    exists t :: t in tasks && Held(open, t, polls, n)
  }

  predicate Drops(open: set<Text>, t: Task, polls: Polls, n: Text) {
    Held(open, t, polls, n) && polls(t.id).stopped
  }

  // Why a Pod is held back: the task that holds it, or the answer to the first request.
  function Stuck(t: Task, poll: Poll): Why {
    if poll.stopped then Stopped(t.id) else Running(t.id)
  }

  ghost predicate SomeHoldsFor(open: set<Text>, tasks: seq<Task>, polls: Polls, n: Text, why: Why) {
    exists t :: t in tasks && Held(open, t, polls, n) && why == Stuck(t, polls(t.id))
  }

  function Refusal(res: Response, pollable: bool): Why {
    if res.NoResponse? then Unreachable
    else if !res.success then Refused
    else if res.taskId == EMPTY then NoTaskId
    else if !pollable then NoPolling
    else Started(res.taskId)
  }

  // A task that stopped without approving the Pod lets go of it.
  ghost predicate SomeDrops(open: set<Text>, tasks: seq<Task>, polls: Polls, n: Text) {
    exists t :: t in tasks && Drops(open, t, polls, n)
  }

  predicate Traces(open: set<Text>, t: Task, polls: Polls, n: Text) {
    n in open && n in t.processing && !Drops(open, t, polls, n)
  }

  ghost predicate SomeTraces(open: set<Text>, tasks: seq<Task>, polls: Polls, n: Text) {
    exists t :: t in tasks && Traces(open, t, polls, n)
  }

  // What the answer to the first request says about a Pod that it asked for.
  predicate AnsweredYes(res: Response, pollable: bool, n: Text) {
    && res.Response?
    && if !res.success then n in res.finished
       else !res.poll || (res.taskId != EMPTY && pollable && n in res.finished)
  }

  // A live task that is still running, or was approved as a whole, is carried on.
  predicate CarriesOn(open: set<Text>, t: Task, polls: Polls) {
    Live(open, t) && (polls(t.id).approveAll || !polls(t.id).stopped)
  }

  function Successor(t: Task, polls: Polls): Task {
    Recorded(t, if polls(t.id).approveAll then t.processing else polls(t.id).approved)
  }

  predicate CarriedAs(open: set<Text>, t: Task, polls: Polls, r: Task) {
    CarriesOn(open, t, polls) && r == Successor(t, polls)
  }

  // The tasks that the loop records: those that carry on, and no others.
  function CarriedInfo(open: set<Text>, tasks: seq<Task>, polls: Polls): map<Text, Task> {
    if tasks == [] then map[]
    else
      var init, t := CarriedInfo(open, tasks[..|tasks| - 1], polls), tasks[|tasks| - 1];
      if CarriesOn(open, t, polls) then init[t.id := Successor(t, polls)] else init
  }

  lemma {:induction false} RecordedAreCarried(open: set<Text>, tasks: seq<Task>, polls: Polls)
    ensures Carried(open, tasks, polls, CarriedInfo(open, tasks, polls))
    decreases |tasks|
  {
    if tasks != [] {
      var init, t := tasks[..|tasks| - 1], tasks[|tasks| - 1];
      RecordedAreCarried(open, init, polls);
      var info := CarriedInfo(open, tasks, polls);
      forall id | id in info ensures info[id].id == id && exists s :: s in tasks && CarriedAs(open, s, polls, info[id]) {
        if id in CarriedInfo(open, init, polls) && info[id] == CarriedInfo(open, init, polls)[id] {
          var s :| s in init && CarriedAs(open, s, polls, info[id]);
          assert s in tasks;
        } else {
          assert t in tasks && CarriedAs(open, t, polls, info[id]);
        }
      }
    }
  }

  // No task that carries on is forgotten.
  lemma {:induction false} NobodyIsForgotten(open: set<Text>, tasks: seq<Task>, polls: Polls, t: Task)
    requires Separate(tasks) && t in tasks && CarriesOn(open, t, polls)
    ensures t.id in CarriedInfo(open, tasks, polls) && CarriedInfo(open, tasks, polls)[t.id] == Successor(t, polls)
    decreases |tasks|
  {
    var init, last := tasks[..|tasks| - 1], tasks[|tasks| - 1];
    assert tasks == init + [last];
    SeparateLast(init, last);
    if t in init {
      NobodyIsForgotten(open, init, polls, t);
    }
  }

  ghost predicate Carried(open: set<Text>, tasks: seq<Task>, polls: Polls, info: map<Text, Task>) {
    forall id :: id in info ==> info[id].id == id && exists t :: t in tasks && CarriedAs(open, t, polls, info[id])
  }

  ghost predicate SeparateInfo(info: map<Text, Task>) {
    && (forall a :: a in info ==> info[a].approved !! info[a].processing)
    && forall a, b :: a in info && b in info && a != b ==> Members(info[a]) !! Members(info[b])
  }

  datatype Books = Books(checked: set<Text>, tracing: set<Text>, rejected: map<Text, Why>)

  // What the loop over the tasks has found, `before` having been approved earlier.
  ghost predicate Traced(open: set<Text>, tasks: seq<Task>, polls: Polls, before: set<Text>, b: Books) {
    && (forall n :: n in b.checked <==> n in before || SomeGrants(open, tasks, polls, n))
    && (forall n :: n in b.rejected <==> SomeHolds(open, tasks, polls, n))
    && (forall n :: n in b.rejected ==> SomeHoldsFor(open, tasks, polls, n, b.rejected[n]))
    && (forall n :: n in b.tracing ==> n in open && (n in b.checked || n in b.rejected))
    && (forall n :: n in b.tracing ==> SomeTraces(open, tasks, polls, n))
    && (Separate(tasks) ==> forall n :: n in b.tracing <==> SomeTraces(open, tasks, polls, n))
  }

  // What one task adds.
  ghost predicate TracedOne(open: set<Text>, t: Task, polls: Polls, was: Books, b: Books) {
    && (forall n :: n in b.checked <==> n in was.checked || Granted(open, t, polls, n))
    && (forall n :: n in b.rejected <==> n in was.rejected || Held(open, t, polls, n))
    && (forall n :: n in b.rejected ==> b.rejected[n] == if Held(open, t, polls, n) then Stuck(t, polls(t.id)) else was.rejected[n])
    && (forall n :: n in b.tracing <==> (n in was.tracing || Traces(open, t, polls, n)) && !Drops(open, t, polls, n))
  }

  lemma TracedStep(open: set<Text>, tasks: seq<Task>, t: Task, polls: Polls, before: set<Text>, was: Books, b: Books)
    requires Traced(open, tasks, polls, before, was) && TracedOne(open, t, polls, was, b)
    ensures Traced(open, tasks + [t], polls, before, b)
  {
    var more := tasks + [t];
    assert forall s :: s in more <==> s in tasks || s == t;
    if Separate(more) {
      SeparateLast(tasks, t);
      assert forall n, s :: s in tasks && Traces(open, s, polls, n) ==> n in Members(s);
    }
  }

  lemma SeparateLast(tasks: seq<Task>, t: Task)
    requires Separate(tasks + [t])
    ensures Separate(tasks) && forall s :: s in tasks ==> s.id != t.id && Members(s) !! Members(t)
  {
    var more := tasks + [t];
    assert forall i :: 0 <= i < |tasks| ==> more[i] == tasks[i];
    assert more[|tasks|] == t;
  }

  lemma CarriedAreSeparate(open: set<Text>, tasks: seq<Task>, polls: Polls, info: map<Text, Task>)
    requires Separate(tasks) && Carried(open, tasks, polls, info)
    ensures SeparateInfo(info)
  {
    forall a | a in info ensures info[a].approved !! info[a].processing {
      var t :| t in tasks && CarriedAs(open, t, polls, info[a]);
      RecordedConserves(t, if polls(t.id).approveAll then t.processing else polls(t.id).approved);
    }
    forall a, b | a in info && b in info && a != b ensures Members(info[a]) !! Members(info[b]) {
      var s :| s in tasks && CarriedAs(open, s, polls, info[a]);
      var t :| t in tasks && CarriedAs(open, t, polls, info[b]);
      RecordedConserves(s, if polls(s.id).approveAll then s.processing else polls(s.id).approved);
      RecordedConserves(t, if polls(t.id).approveAll then t.processing else polls(t.id).approved);
      var i :| 0 <= i < |tasks| && tasks[i] == s;
      var j :| 0 <= j < |tasks| && tasks[j] == t;
      assert i != j;
    }
  }

  // A new task takes only Pods that no carried task has.
  lemma NewTaskIsSeparate(open: set<Text>, tasks: seq<Task>, polls: Polls, info: map<Text, Task>, b: Books, before: set<Text>, newcomer: Task)
    requires Separate(tasks) && Carried(open, tasks, polls, info) && Traced(open, tasks, polls, before, b)
    requires Members(newcomer) <= open - b.tracing - b.checked && newcomer.approved !! newcomer.processing
    ensures SeparateInfo(info[newcomer.id := newcomer])
  {
    CarriedAreSeparate(open, tasks, polls, info);
    forall a | a in info ensures Members(info[a]) !! Members(newcomer) {
      var t :| t in tasks && CarriedAs(open, t, polls, info[a]);
      RecordedConserves(t, if polls(t.id).approveAll then t.processing else polls(t.id).approved);
      forall n | n in Members(t) && n in open ensures n !in Members(newcomer) {
        if n in t.approved {
          assert Granted(open, t, polls, n);
        } else {
          assert !Drops(open, t, polls, n);
          assert Traces(open, t, polls, n);
        }
      }
    }
  }

  // The Pods that the first request asks for: nobody granted them, no task traces them.
  function Rest(open: set<Text>, b: Books): set<Text> {
    open - b.tracing - b.checked
  }

  // The same, said of the tasks: these Pods are asked for.
  ghost predicate Asked(open: set<Text>, tasks: seq<Task>, polls: Polls, n: Text) {
    n in open && !SomeGrants(open, tasks, polls, n) && !SomeTraces(open, tasks, polls, n)
  }

  lemma RestIsAsked(open: set<Text>, tasks: seq<Task>, polls: Polls, before: set<Text>, b: Books, n: Text)
    requires Separate(tasks) && Traced(open, tasks, polls, before, b) && before !! open
    ensures n in Rest(open, b) <==> Asked(open, tasks, polls, n)
  {
  }

  // Whether the answer to the first request starts a task, and which.
  predicate StartsTask(res: Response, pollable: bool) {
    res.Response? && res.success && res.poll && res.taskId != EMPTY && pollable
  }

  function Newcomer(rest: set<Text>, res: Response): Task
    requires res.Response?
  {
    Task(res.taskId, rest * res.finished, rest - res.finished)
  }

  ghost predicate TaskStarts(open: set<Text>, tasks: seq<Task>, polls: Polls, res: Response, pollable: bool) {
    StartsTask(res, pollable) && exists n :: Asked(open, tasks, polls, n)
  }

  // The tasks that a call publishes: the new one, and the successors of all tasks that
  // carry on, except for one whose ID the new task takes.
  ghost predicate Publishes(open: set<Text>, tasks: seq<Task>, polls: Polls, res: Response, pollable: bool, t: Task) {
    if TaskStarts(open, tasks, polls, res, pollable) && t.id == res.taskId then
      && (forall n :: n in t.approved <==> Asked(open, tasks, polls, n) && n in res.finished)
      && (forall n :: n in t.processing <==> Asked(open, tasks, polls, n) && n !in res.finished)
    else
      exists s :: s in tasks && CarriedAs(open, s, polls, t)
  }

  // What becomes of each Pod of a call.
  ghost predicate Decides(subjects: set<Text>, approved: set<Text>, tasks: seq<Task>, polls: Polls,
                          res: Response, pollable: bool, r: Answer) {
    var open := subjects - approved;
    && (forall n :: n in r.passed <==>
          || (n in subjects && n in approved) || SomeGrants(open, tasks, polls, n)
          || (Asked(open, tasks, polls, n) && AnsweredYes(res, pollable, n)))
    && (forall n :: n in r.rejected <==>
          SomeHolds(open, tasks, polls, n) || (Asked(open, tasks, polls, n) && !AnsweredYes(res, pollable, n)))
  }

  lemma GrantedIsNotHeld(open: set<Text>, tasks: seq<Task>, polls: Polls, n: Text)
    requires Separate(tasks) && SomeGrants(open, tasks, polls, n)
    ensures !SomeHolds(open, tasks, polls, n)
  {
    var s :| s in tasks && Granted(open, s, polls, n);
    forall t | t in tasks && Held(open, t, polls, n) ensures false {
      OneTaskEach(tasks, s, t, n);
    }
  }

  lemma OneTaskEach(tasks: seq<Task>, s: Task, t: Task, n: Text)
    requires Separate(tasks) && s in tasks && t in tasks && n in Members(s) && n in Members(t)
    ensures s == t && s.approved !! s.processing
  {
    var i :| 0 <= i < |tasks| && tasks[i] == s;
    var j :| 0 <= j < |tasks| && tasks[j] == t;
  }

  lemma DroppedIsRest(open: set<Text>, tasks: seq<Task>, polls: Polls, before: set<Text>, b: Books, n: Text)
    requires Separate(tasks) && Traced(open, tasks, polls, before, b) && before !! open
    ensures n in Rest(open, b) && n in b.rejected <==> SomeDrops(open, tasks, polls, n)
  {
    if SomeDrops(open, tasks, polls, n) {
      var t :| t in tasks && Drops(open, t, polls, n);
      assert SomeHolds(open, tasks, polls, n);
      if SomeGrants(open, tasks, polls, n) {
        GrantedIsNotHeld(open, tasks, polls, n);
      }
      forall s | s in tasks && Traces(open, s, polls, n) ensures false {
        OneTaskEach(tasks, s, t, n);
      }
    }
  }

  lemma CheckedIsNotRejected(open: set<Text>, tasks: seq<Task>, polls: Polls, before: set<Text>, b: Books, n: Text)
    requires Separate(tasks) && Traced(open, tasks, polls, before, b) && before !! open
    ensures !(n in b.checked && n in b.rejected)
  {
    if SomeGrants(open, tasks, polls, n) {
      GrantedIsNotHeld(open, tasks, polls, n);
    }
  }

  // When a task stopped without approving a Pod, the Pod is rejected for that and asked
  // for again in the same call; a yes then passes it too.
  lemma PassedAndRejected(id: Text, n: Text) returns (tasks: seq<Task>, polls: Polls, res: Response)
    ensures Separate(tasks) && SomeDrops({n}, tasks, polls, n) && AnsweredYes(res, true, n)
  {
    tasks, polls, res := [Task(id, {}, {n})], _ => Poll(false, true, {}), Response(true, false, id, {});
    assert Drops({n}, tasks[0], polls, n);
  }

  // The call itself fails when the service cannot be reached, or cannot be polled.
  predicate ErrorIn(res: Response, pollable: bool) {
    Refusal(res, pollable) == Unreachable || (res.Response? && res.success && res.poll && Refusal(res, pollable) == NoPolling)
  }

  // Error and interval: an error is reported iff some Pod is rejected for it; the call
  // is to be repeated when some Pod is rejected by a refusal, and only after one.
  ghost predicate Signals(res: Response, pollable: bool, r: Answer) {
    && (r.err <==> ErrorIn(res, pollable) && exists n :: n in r.rejected && r.rejected[n] == Refusal(res, pollable))
    && ((exists n :: n in r.rejected && r.rejected[n] == Refused) ==> r.interval == Some(DEFAULT_INTERVAL))
    && (r.interval.Some? ==> r.interval == Some(DEFAULT_INTERVAL) && res.Response? && !res.success)
  }

  datatype Answer = Answer(passed: set<Text>, rejected: map<Text, Why>, interval: Option<int>, err: bool)

  // Five seconds, in nanoseconds.
  const DEFAULT_INTERVAL: int := 5_000_000_000

  // What the call passes and rejects, b being the books after the tasks.
  ghost predicate Concludes(open: set<Text>, b: Books, res: Response, pollable: bool, r: Answer) {
    && (forall n :: n in r.passed <==> n in b.checked || (n in Rest(open, b) && AnsweredYes(res, pollable, n)))
    && (forall n :: n in r.rejected <==> n in b.rejected || (n in Rest(open, b) && !AnsweredYes(res, pollable, n)))
    && (forall n :: n in r.rejected ==>
          r.rejected[n] == if n in Rest(open, b) && !AnsweredYes(res, pollable, n) then Refusal(res, pollable) else b.rejected[n])
  }

  lemma Covered(subjects: set<Text>, approved: set<Text>, tasks: seq<Task>, polls: Polls, b: Books,
                res: Response, pollable: bool, r: Answer)
    requires Traced(subjects - approved, tasks, polls, subjects * approved, b)
    requires Concludes(subjects - approved, b, res, pollable, r)
    ensures r.passed + r.rejected.Keys == subjects
    ensures forall n :: n in r.passed ==> n in approved || SomeGrants(subjects - approved, tasks, polls, n) || AnsweredYes(res, pollable, n)
    ensures forall n :: n in r.rejected ==>
      r.rejected[n] == Refusal(res, pollable) || SomeHoldsFor(subjects - approved, tasks, polls, n, r.rejected[n])
  {
    var open := subjects - approved;
    forall n ensures n in r.passed + r.rejected.Keys <==> n in subjects {
      if n in b.rejected {
        var t :| t in tasks && Held(open, t, polls, n);
      }
      if SomeGrants(open, tasks, polls, n) {
        var t :| t in tasks && Granted(open, t, polls, n);
      }
    }
  }

  lemma SignalsRight(open: set<Text>, before: set<Text>, tasks: seq<Task>, polls: Polls, b: Books,
                     res: Response, pollable: bool, r: Answer)
    requires Traced(open, tasks, polls, before, b) && Concludes(open, b, res, pollable, r)
    requires Rest(open, b) == {} ==> !r.err && r.interval == None
    requires Rest(open, b) != {} ==>
      r.err == ErrorIn(res, pollable) && r.interval == if res.Response? && !res.success then Some(DEFAULT_INTERVAL) else None
    ensures Signals(res, pollable, r)
  {
    forall n | n in b.rejected ensures b.rejected[n].Running? || b.rejected[n].Stopped? {
      assert SomeHoldsFor(open, tasks, polls, n, b.rejected[n]);
    }
    if r.err {
      var n :| n in Rest(open, b);
      assert n in r.rejected && r.rejected[n] == Refusal(res, pollable);
    }
  }

  lemma BothIffDropped(open: set<Text>, before: set<Text>, tasks: seq<Task>, polls: Polls, b: Books,
                       res: Response, pollable: bool, r: Answer, n: Text)
    requires Separate(tasks) && Traced(open, tasks, polls, before, b) && before !! open
    requires Concludes(open, b, res, pollable, r)
    ensures n in r.passed && n in r.rejected <==> SomeDrops(open, tasks, polls, n) && AnsweredYes(res, pollable, n)
  {
    DroppedIsRest(open, tasks, polls, before, b, n);
    CheckedIsNotRejected(open, tasks, polls, before, b, n);
  }

  lemma DecidedByBooks(subjects: set<Text>, approved: set<Text>, tasks: seq<Task>, polls: Polls, b: Books,
                       res: Response, pollable: bool, r: Answer)
    requires Separate(tasks) && Traced(subjects - approved, tasks, polls, subjects * approved, b)
    requires Concludes(subjects - approved, b, res, pollable, r)
    ensures Decides(subjects, approved, tasks, polls, res, pollable, r)
  {
    forall n ensures n in Rest(subjects - approved, b) <==> Asked(subjects - approved, tasks, polls, n) {
      RestIsAsked(subjects - approved, tasks, polls, subjects * approved, b, n);
    }
  }

  // What is recorded in the end.
  function Recordings(open: set<Text>, tasks: seq<Task>, polls: Polls, b: Books, res: Response, pollable: bool): map<Text, Task> {
    var info := CarriedInfo(open, tasks, polls);
    if Rest(open, b) != {} && StartsTask(res, pollable) then info[res.taskId := Newcomer(Rest(open, b), res)] else info
  }

  lemma RecordingsArePublished(open: set<Text>, tasks: seq<Task>, polls: Polls, before: set<Text>, b: Books,
                               res: Response, pollable: bool, t: Task)
    requires Separate(tasks) && Traced(open, tasks, polls, before, b) && before !! open
    ensures t in Recordings(open, tasks, polls, b, res, pollable).Values <==> Publishes(open, tasks, polls, res, pollable, t)
  {
    var info, all := CarriedInfo(open, tasks, polls), Recordings(open, tasks, polls, b, res, pollable);
    RecordedAreCarried(open, tasks, polls);
    forall n ensures n in Rest(open, b) <==> Asked(open, tasks, polls, n) {
      RestIsAsked(open, tasks, polls, before, b, n);
    }
    ValueAt(all, t);
    if TaskStarts(open, tasks, polls, res, pollable) && t.id == res.taskId {
      assert all[t.id] == Newcomer(Rest(open, b), res);
    } else {
      CarriedAtId(open, tasks, polls, t);
      OthersAreRecorded(open, tasks, polls, before, b, res, pollable, t);
    }
  }

  lemma OthersAreRecorded(open: set<Text>, tasks: seq<Task>, polls: Polls, before: set<Text>, b: Books,
                          res: Response, pollable: bool, t: Task)
    requires Separate(tasks) && Traced(open, tasks, polls, before, b) && before !! open
    requires !(TaskStarts(open, tasks, polls, res, pollable) && t.id == res.taskId)
    ensures var info, all := CarriedInfo(open, tasks, polls), Recordings(open, tasks, polls, b, res, pollable);
      t.id in all && all[t.id] == t <==> t.id in info && info[t.id] == t
  {
    if n :| n in Rest(open, b) {
      RestIsAsked(open, tasks, polls, before, b, n);
    }
  }

  lemma ValueAt(info: map<Text, Task>, t: Task)
    requires forall id :: id in info ==> info[id].id == id
    ensures t in info.Values <==> t.id in info && info[t.id] == t
  {
  }

  lemma CarriedAtId(open: set<Text>, tasks: seq<Task>, polls: Polls, t: Task)
    requires Separate(tasks)
    ensures var info := CarriedInfo(open, tasks, polls);
      t.id in info && info[t.id] == t <==> exists s :: s in tasks && CarriedAs(open, s, polls, t)
  {
    RecordedAreCarried(open, tasks, polls);
    if s :| s in tasks && CarriedAs(open, s, polls, t) {
      NobodyIsForgotten(open, tasks, polls, s);
    }
  }

  // Where a published task comes from.
  ghost predicate Descends(open: set<Text>, tasks: seq<Task>, polls: Polls, t: Task) {
    (exists s :: s in tasks && CarriedAs(open, s, polls, t)) || Members(t) <= open
  }

  lemma RecordingsDescend(open: set<Text>, tasks: seq<Task>, polls: Polls, b: Books, res: Response, pollable: bool)
    ensures forall t :: t in Recordings(open, tasks, polls, b, res, pollable).Values ==> Descends(open, tasks, polls, t)
  {
    RecordedAreCarried(open, tasks, polls);
  }

  lemma RecordingsAreSeparate(open: set<Text>, tasks: seq<Task>, polls: Polls, before: set<Text>, b: Books,
                              res: Response, pollable: bool)
    requires Separate(tasks) && Traced(open, tasks, polls, before, b)
    ensures var all := Recordings(open, tasks, polls, b, res, pollable);
      SeparateInfo(all) && forall id :: id in all ==> all[id].id == id
  {
    var info := CarriedInfo(open, tasks, polls);
    RecordedAreCarried(open, tasks, polls);
    CarriedAreSeparate(open, tasks, polls, info);
    if Rest(open, b) != {} && StartsTask(res, pollable) {
      NewTaskIsSeparate(open, tasks, polls, info, b, before, Newcomer(Rest(open, b), res));
    }
  }

  // A task that carries on survives the call iff no new task takes its ID.
  lemma SurvivesIffIdIsKept(open: set<Text>, tasks: seq<Task>, polls: Polls, res: Response, pollable: bool, s: Task)
    requires Separate(tasks) && s in tasks && CarriesOn(open, s, polls)
    ensures Publishes(open, tasks, polls, res, pollable, Successor(s, polls)) <==>
            !(TaskStarts(open, tasks, polls, res, pollable) && res.taskId == s.id)
  {
    var t := Successor(s, polls);
    var n :| n in s.processing && n in open;
    if n !in t.processing {
      assert Granted(open, s, polls, n);
    }
  }

  // A service that answers with the ID of a task that is still running makes the rule
  // forget that task and the Pods that it has in process.
  lemma ReusedIdForgets(id: Text, n: Text, m: Text) returns (tasks: seq<Task>, polls: Polls, res: Response)
    requires id != EMPTY && n != m
    ensures Separate(tasks) && |tasks| == 1 && CarriesOn({n, m}, tasks[0], polls) && n in tasks[0].processing
    ensures TaskStarts({n, m}, tasks, polls, res, true) && res.taskId == tasks[0].id
    ensures forall t :: Publishes({n, m}, tasks, polls, res, true, t) ==> n !in Members(t)
  {
    tasks, polls, res := [Task(id, {}, {n})], _ => Poll(false, false, {}), Response(true, true, id, {});
    assert Traces({n, m}, tasks[0], polls, n);
    assert Asked({n, m}, tasks, polls, m);
  }

  // --------------------------------------- the law, in the service's own words

  // What the service, or the poll of its task, has said in favour of the Pod.
  predicate ApprovedBy(t: Task, poll: Poll, n: Text) {
    n in t.approved || (n in t.processing && (poll.approveAll || n in poll.approved))
  }

  // A task counts while a Pod that it has in process is open.
  predicate Counts(open: set<Text>, t: Task) {
    t.processing * open != {}
  }

  ghost predicate SomeApproves(open: set<Text>, tasks: seq<Task>, polls: Polls, n: Text) {
    exists t :: t in tasks && Counts(open, t) && ApprovedBy(t, polls(t.id), n)
  }

  // The Pods that the service is asked for: none of its tasks has approved them, and none
  // but a stopped one has them in process.
  ghost predicate AskedFor(open: set<Text>, tasks: seq<Task>, polls: Polls, n: Text) {
    && n in open
    && forall t :: t in tasks && Counts(open, t) ==>
         !ApprovedBy(t, polls(t.id), n) && (n in t.processing ==> polls(t.id).stopped)
  }

  // What becomes of a Pod that it is asked for, answer by answer.
  predicate FateOf(res: Response, pollable: bool, n: Text, r: Answer) {
    match res
    case NoResponse => n !in r.passed && n in r.rejected && r.rejected[n] == Unreachable
    case Response(false, _, _, finished) =>
      if n in finished then n in r.passed else n !in r.passed && n in r.rejected && r.rejected[n] == Refused
    case Response(true, false, _, _) => n in r.passed
    case Response(true, true, id, finished) =>
      if id != EMPTY && pollable && n in finished then n in r.passed
      else n !in r.passed && n in r.rejected &&
           r.rejected[n] == if id == EMPTY then NoTaskId else if pollable then Started(id) else NoPolling
  }

  lemma CountsIsLive(open: set<Text>, t: Task)
    ensures Counts(open, t) <==> Live(open, t)
  {
    assert forall n :: n in t.processing && n in open <==> n in t.processing * open;
    if Counts(open, t) {
      var n :| n in t.processing * open;
    }
  }

  lemma GrantsRead(open: set<Text>, tasks: seq<Task>, polls: Polls, n: Text)
    ensures SomeGrants(open, tasks, polls, n) <==> n in open && SomeApproves(open, tasks, polls, n)
    ensures Asked(open, tasks, polls, n) <==> AskedFor(open, tasks, polls, n)
  {
    forall t | t in tasks ensures Counts(open, t) <==> Live(open, t) {
      CountsIsLive(open, t);
    }
    assert forall t :: t in tasks ==> (Granted(open, t, polls, n) <==> n in open && Counts(open, t) && ApprovedBy(t, polls(t.id), n));
    assert forall t :: t in tasks && n in open && n in t.processing ==> Counts(open, t);
    assert forall t :: t in tasks && n in open && n in t.processing ==>
      (Traces(open, t, polls, n) <==> Grants(polls(t.id), n) || !polls(t.id).stopped);
  }

  // Who passes, and what becomes of the others.
  ghost predicate Lawful(subjects: set<Text>, approved: set<Text>, tasks: seq<Task>, polls: Polls,
                         res: Response, pollable: bool, r: Answer) {
    var open := subjects - approved;
    && (forall n :: n in r.passed && n !in approved && !SomeApproves(open, tasks, polls, n) ==>
          res.Response? && (n in res.finished || (res.success && !res.poll)))
    && (forall n :: n in subjects && (n in approved || SomeApproves(open, tasks, polls, n)) ==> n in r.passed)
    && (Separate(tasks) ==> forall n :: AskedFor(open, tasks, polls, n) ==> FateOf(res, pollable, n, r))
    && (Separate(tasks) ==> forall n :: n in open && !AskedFor(open, tasks, polls, n) ==>
          (n in r.passed <==> SomeApproves(open, tasks, polls, n)) && (n in r.passed <==> n !in r.rejected))
  }

  lemma LawfulByBooks(subjects: set<Text>, approved: set<Text>, tasks: seq<Task>, polls: Polls, b: Books,
                      res: Response, pollable: bool, r: Answer)
    requires Traced(subjects - approved, tasks, polls, subjects * approved, b)
    requires Concludes(subjects - approved, b, res, pollable, r)
    ensures Lawful(subjects, approved, tasks, polls, res, pollable, r)
  {
    var open := subjects - approved;
    forall n {
      GrantsRead(open, tasks, polls, n);
    }
    Covered(subjects, approved, tasks, polls, b, res, pollable, r);
    if Separate(tasks) {
      forall n | n in open
        ensures AskedFor(open, tasks, polls, n) ==> FateOf(res, pollable, n, r)
        ensures !AskedFor(open, tasks, polls, n) ==> (n in r.passed <==> SomeApproves(open, tasks, polls, n))
        ensures !AskedFor(open, tasks, polls, n) ==> (n in r.passed <==> n !in r.rejected)
      {
        RestIsAsked(open, tasks, polls, subjects * approved, b, n);
        CheckedIsNotRejected(open, tasks, polls, subjects * approved, b, n);
      }
    }
  }

  // A Pod that a task has in process, unapproved, is held back for it while it runs; once it
  // has stopped, a yes to the first request passes the Pod although it stays rejected.
  ghost predicate HoldsBack(open: set<Text>, tasks: seq<Task>, polls: Polls, r: Answer) {
    forall t, n :: t in tasks && n in t.processing && n in open && !polls(t.id).approveAll && n !in polls(t.id).approved ==>
      && n in r.rejected
      && (!polls(t.id).stopped ==> n !in r.passed && r.rejected[n] == Running(t.id))
      && (polls(t.id).stopped && n in r.passed ==> r.rejected[n] == Stopped(t.id))
  }

  lemma HeldByBooks(open: set<Text>, tasks: seq<Task>, polls: Polls, before: set<Text>, b: Books,
                    res: Response, pollable: bool, r: Answer)
    requires Separate(tasks) && Traced(open, tasks, polls, before, b) && before !! open
    requires Concludes(open, b, res, pollable, r)
    ensures HoldsBack(open, tasks, polls, r)
  {
    forall t, n | t in tasks && n in t.processing && n in open && !polls(t.id).approveAll && n !in polls(t.id).approved
      ensures n in r.rejected
      ensures !polls(t.id).stopped ==> n !in r.passed && r.rejected[n] == Running(t.id)
      ensures polls(t.id).stopped && n in r.passed ==> r.rejected[n] == Stopped(t.id)
    {
      HeldOne(open, tasks, polls, before, b, t, n);
    }
  }

  lemma HeldOne(open: set<Text>, tasks: seq<Task>, polls: Polls, before: set<Text>, b: Books, t: Task, n: Text)
    requires Separate(tasks) && Traced(open, tasks, polls, before, b) && before !! open
    requires t in tasks && Held(open, t, polls, n)
    ensures n in b.rejected && b.rejected[n] == if polls(t.id).stopped then Stopped(t.id) else Running(t.id)
    ensures n !in b.checked
    ensures !polls(t.id).stopped ==> n in b.tracing
  {
    HeldFor(open, tasks, polls, before, b, t, n);
    CheckedIsNotRejected(open, tasks, polls, before, b, n);
    if !polls(t.id).stopped {
      assert Traces(open, t, polls, n);
    }
  }

  lemma HeldFor(open: set<Text>, tasks: seq<Task>, polls: Polls, before: set<Text>, b: Books, t: Task, n: Text)
    requires Separate(tasks) && Traced(open, tasks, polls, before, b) && t in tasks && Held(open, t, polls, n)
    ensures n in b.rejected && b.rejected[n] == if polls(t.id).stopped then Stopped(t.id) else Running(t.id)
  {
    var u :| u in tasks && Held(open, u, polls, n) && b.rejected[n] == Stuck(u, polls(u.id));
    OneTaskEach(tasks, t, u, n);
  }

  // The call fails and asks to be repeated for what the service answers, and for that alone.
  ghost predicate Reports(open: set<Text>, tasks: seq<Task>, polls: Polls, res: Response, pollable: bool, r: Answer) {
    var asked := exists n :: AskedFor(open, tasks, polls, n);
    && (r.err <==> asked && (res.NoResponse? || (res.success && res.poll && res.taskId != EMPTY && !pollable)))
    && (r.interval == if asked && res.Response? && !res.success then Some(DEFAULT_INTERVAL) else None)
  }

  lemma ReportsByBooks(open: set<Text>, tasks: seq<Task>, polls: Polls, before: set<Text>, b: Books,
                       res: Response, pollable: bool, r: Answer)
    requires Separate(tasks) && Traced(open, tasks, polls, before, b) && before !! open
    requires Rest(open, b) == {} ==> !r.err && r.interval == None
    requires Rest(open, b) != {} ==>
      r.err == ErrorIn(res, pollable) && r.interval == if res.Response? && !res.success then Some(DEFAULT_INTERVAL) else None
    ensures Reports(open, tasks, polls, res, pollable, r)
  {
    forall n ensures n in Rest(open, b) <==> AskedFor(open, tasks, polls, n) {
      RestIsAsked(open, tasks, polls, before, b, n);
      GrantsRead(open, tasks, polls, n);
    }
    if n :| AskedFor(open, tasks, polls, n) {
      assert n in Rest(open, b);
    }
    if n :| n in Rest(open, b) {
      assert AskedFor(open, tasks, polls, n);
    }
  }

  // A task that is to be carried on: it counts, and it is still running or was approved
  // as a whole.
  predicate GoesOn(open: set<Text>, t: Task, poll: Poll) {
    Counts(open, t) && (poll.approveAll || !poll.stopped)
  }

  // Of such a task the Pods that were approved now are recorded as approved, and the
  // others stay in process.
  ghost predicate Updates(t: Task, poll: Poll, next: Task) {
    && next.id == t.id
    && (forall n :: n in next.approved <==> ApprovedBy(t, poll, n))
    && (forall n :: n in next.processing <==> n in t.processing && !poll.approveAll && n !in poll.approved)
  }

  lemma CarriedReads(open: set<Text>, t: Task, polls: Polls, next: Task)
    ensures CarriedAs(open, t, polls, next) <==> GoesOn(open, t, polls(t.id)) && Updates(t, polls(t.id), next)
  {
    CountsIsLive(open, t);
    var s := Successor(t, polls);
    assert Updates(t, polls(t.id), s);
    if Updates(t, polls(t.id), next) {
      assert next.approved == s.approved && next.processing == s.processing;
    }
  }

  // What the published tasks are: the new one, if the answer starts one, and one for each
  // task that goes on and whose ID is not taken.
  lemma PublishedReads(open: set<Text>, tasks: seq<Task>, polls: Polls, res: Response, pollable: bool, t: Task)
    ensures Publishes(open, tasks, polls, res, pollable, t) <==>
      if res.Response? && res.success && res.poll && res.taskId != EMPTY && pollable && t.id == res.taskId
         && (exists n :: AskedFor(open, tasks, polls, n))
      then
        && (forall n :: n in t.approved <==> AskedFor(open, tasks, polls, n) && n in res.finished)
        && (forall n :: n in t.processing <==> AskedFor(open, tasks, polls, n) && n !in res.finished)
      else
        exists s :: s in tasks && GoesOn(open, s, polls(s.id)) && Updates(s, polls(s.id), t)
  {
    forall n {
      GrantsRead(open, tasks, polls, n);
    }
    forall s {
      CarriedReads(open, s, polls, t);
    }
    assert (exists n :: Asked(open, tasks, polls, n)) <==> exists n :: AskedFor(open, tasks, polls, n);
  }

  class Webhook {
    var state: seq<Task>
    var taskInfo: map<Text, Task>
    var interval: Option<int>

    constructor (tasks: seq<Task>)
      ensures state == tasks && taskInfo == map[] && interval == None
    {
      state, taskInfo, interval := tasks, map[], None;
    }

    method RecordTaskInfo(t: Task, approved: set<Text>)
      modifies this`taskInfo
      ensures taskInfo == old(taskInfo)[t.id := Recorded(t, approved)]
    {
      var granted := t.approved;
      var seen: set<Text> := {};
      while seen != approved
        invariant seen <= approved
        invariant granted == t.approved + seen * t.processing
        invariant taskInfo == old(taskInfo)
        decreases approved - seen
      {
        Unseen(seen, approved);
        var n :| n in approved - seen;
        if n in t.processing {
          granted := granted + {n};
        }
        seen := seen + {n};
      }
      taskInfo := taskInfo[t.id := Task(t.id, granted, t.processing - approved)];
    }

    method UpdateInterval(i: int)
      modifies this`interval
      ensures interval in {Some(i), old(interval)}
      ensures interval.Some? && interval.value <= i && (old(interval).Some? ==> interval.value <= old(interval).value)
    {
      if interval.None? || interval.value > i {
        interval := Some(i);
      }
    }

    // The fate of the Pods that a task has in process.
    method Settle(t: Task, open: set<Text>, poll: Poll, was: Books) returns (b: Books)
      requires !poll.approveAll
      ensures forall n :: n in b.checked <==> n in was.checked || (n in open && n in t.processing && n in poll.approved)
      ensures forall n :: n in b.rejected <==> n in was.rejected || (n in open && n in t.processing && n !in poll.approved)
      ensures forall n :: n in b.rejected ==>
        b.rejected[n] == if n in open && n in t.processing && n !in poll.approved then Stuck(t, poll) else was.rejected[n]
      ensures forall n :: n in b.tracing <==> n in was.tracing && !(poll.stopped && n in open && n in t.processing && n !in poll.approved)
    {
      b := was;
      var current := open * t.processing;
      var seen: set<Text> := {};
      while seen != current
        invariant seen <= current
        invariant forall n :: n in b.checked <==> n in was.checked || (n in seen && n in poll.approved)
        invariant forall n :: n in b.rejected <==> n in was.rejected || (n in seen && n !in poll.approved)
        invariant forall n :: n in b.rejected ==>
          b.rejected[n] == if n in seen && n !in poll.approved then Stuck(t, poll) else was.rejected[n]
        invariant forall n :: n in b.tracing <==> n in was.tracing && !(poll.stopped && n in seen && n !in poll.approved)
        decreases current - seen
      {
        Unseen(seen, current);
        var n :| n in current - seen;
        if n in poll.approved {
          b := b.(checked := b.checked + {n});
        } else {
          if poll.stopped {
            b := b.(tracing := b.tracing - {n});
          }
          b := b.(rejected := b.rejected[n := Stuck(t, poll)]);
        }
        seen := seen + {n};
      }
    }

    // One turn of the loop over the tasks.
    method TraceTask(t: Task, open: set<Text>, polls: Polls, was: Books) returns (b: Books)
      modifies this`taskInfo
      ensures TracedOne(open, t, polls, was, b)
      ensures taskInfo == if CarriesOn(open, t, polls) then old(taskInfo)[t.id := Successor(t, polls)] else old(taskInfo)
    {
      if t.processing * open == {} {
        assert !Live(open, t) by {
          assert forall n :: n in t.processing && n in open ==> n in t.processing * open;
        }
        return was;
      }
      var current := open * t.processing;
      assert Live(open, t) by {
        var n :| n in current;
      }
      b := Books(was.checked + open * t.approved, was.tracing + current, was.rejected);
      var poll := polls(t.id);
      if poll.approveAll {
        RecordTaskInfo(t, t.processing);
        b := b.(checked := b.checked + current);
        return;
      }
      if !poll.stopped {
        RecordTaskInfo(t, poll.approved);
      }
      b := Settle(t, open, poll, b);
    }

    // The loop over the tasks.
    method TraceTasks(open: set<Text>, polls: Polls, before: set<Text>) returns (b: Books)
      requires taskInfo == map[]
      modifies this`taskInfo
      ensures Traced(open, state, polls, before, b) && taskInfo == CarriedInfo(open, state, polls)
    {
      b := Books(before, {}, map[]);
      for i := 0 to |state|
        invariant Traced(open, state[..i], polls, before, b)
        invariant taskInfo == CarriedInfo(open, state[..i], polls)
      {
        ghost var was := b;
        b := TraceTask(state[i], open, polls, b);
        assert state[..i + 1] == state[..i] + [state[i]] && state[..i + 1][..i] == state[..i];
        TracedStep(open, state[..i], state[i], polls, before, was, b);
      }
      assert state[..|state|] == state;
    }

    // The request for the Pods that no task looks after, and what its answer means.
    method Ask(rest: set<Text>, res: Response, pollable: bool, b: Books) returns (r: Answer)
      modifies this`taskInfo, this`interval
      ensures forall n :: n in r.passed <==> n in b.checked || (n in rest && AnsweredYes(res, pollable, n))
      ensures forall n :: n in r.rejected <==> n in b.rejected || (n in rest && !AnsweredYes(res, pollable, n))
      ensures forall n :: n in r.rejected ==>
        r.rejected[n] == if n in rest && !AnsweredYes(res, pollable, n) then Refusal(res, pollable) else b.rejected[n]
      ensures r.err == ErrorIn(res, pollable)
      ensures old(interval).None? ==> r.interval == if res.Response? && !res.success then Some(DEFAULT_INTERVAL) else None
      ensures forall n :: n in r.passed && n !in b.checked ==>
        n in rest && res.Response? && (n in res.finished || (res.success && !res.poll))
      ensures forall n :: n in rest && n !in b.checked ==> FateOf(res, pollable, n, r)
      ensures taskInfo == if StartsTask(res, pollable) then old(taskInfo)[res.taskId := Newcomer(rest, res)] else old(taskInfo)
    {
      if res.NoResponse? {
        return Answer(b.checked, b.rejected + map n | n in rest :: Unreachable, None, true);
      }
      var processing, approved := rest - res.finished, rest * res.finished;
      if !res.success {
        UpdateInterval(DEFAULT_INTERVAL);
        return Answer(b.checked + approved, b.rejected + map n | n in processing :: Refused, interval, false);
      }
      if !res.poll {
        return Answer(b.checked + rest, b.rejected, interval, false);
      }
      if res.taskId == EMPTY {
        return Answer(b.checked, b.rejected + map n | n in rest :: NoTaskId, None, false);
      }
      if !pollable {
        return Answer(b.checked, b.rejected + map n | n in rest :: NoPolling, None, true);
      }
      var t := Task(res.taskId, approved, processing);
      taskInfo := taskInfo[t.id := t];
      return Answer(b.checked + approved, b.rejected + map n | n in processing :: Started(t.id), interval, false);
    }

    // The tasks in some order.
    method ConvTaskInfo() returns (tasks: seq<Task>)
      ensures forall t :: t in tasks <==> t in taskInfo.Values
      ensures |tasks| == |taskInfo|
      ensures SeparateInfo(taskInfo) && (forall id :: id in taskInfo ==> taskInfo[id].id == id) ==> Separate(tasks)
    {
      tasks := [];
      ghost var order: seq<Text> := [];
      var seen: set<Text> := {};
      while seen != taskInfo.Keys
        invariant seen <= taskInfo.Keys && |seen| == |order| == |tasks|
        invariant forall i :: 0 <= i < |order| ==> order[i] in seen && order[i] in taskInfo && tasks[i] == taskInfo[order[i]]
        invariant forall id :: id in seen ==> id in order
        invariant forall i, j :: 0 <= i < j < |order| ==> order[i] != order[j]
        decreases taskInfo.Keys - seen
      {
        Unseen(seen, taskInfo.Keys);
        var id :| id in taskInfo.Keys - seen;
        tasks, order, seen := tasks + [taskInfo[id]], order + [id], seen + {id};
      }
      assert |taskInfo| == |taskInfo.Keys|;
      forall t ensures t in tasks <==> t in taskInfo.Values {
        if t in taskInfo.Values {
          var id :| id in taskInfo && taskInfo[id] == t;
          var i :| 0 <= i < |order| && order[i] == id;
          assert tasks[i] == t;
        }
      }
    }

    // Do.  `approved` are the Pods that the rule has passed before.
    method Do(subjects: set<Text>, approved: set<Text>, polls: Polls, res: Response, pollable: bool) returns (r: Answer)
      modifies this
      ensures r.passed <= subjects && r.rejected.Keys <= subjects && subjects == r.passed + r.rejected.Keys
      ensures forall n :: n in r.passed ==>
        n in approved || SomeGrants(subjects - approved, old(state), polls, n) || AnsweredYes(res, pollable, n)
      ensures forall n :: n in r.rejected ==>
        r.rejected[n] == Refusal(res, pollable) || SomeHoldsFor(subjects - approved, old(state), polls, n, r.rejected[n])
      ensures old(interval).None? ==> Signals(res, pollable, r)
      ensures Lawful(subjects, approved, old(state), polls, res, pollable, r)
      ensures Separate(old(state)) && old(interval).None? ==> Reports(subjects - approved, old(state), polls, res, pollable, r)
      ensures Separate(old(state)) ==> HoldsBack(subjects - approved, old(state), polls, r)
      ensures Separate(old(state)) ==> Decides(subjects, approved, old(state), polls, res, pollable, r)
      ensures Separate(old(state)) ==> forall n ::
        n in r.passed && n in r.rejected <==> SomeDrops(subjects - approved, old(state), polls, n) && AnsweredYes(res, pollable, n)
      ensures Separate(old(state)) ==> Separate(state)
      ensures forall t :: t in state ==> Descends(subjects - approved, old(state), polls, t)
      ensures Separate(old(state)) ==> forall t :: t in state <==> Publishes(subjects - approved, old(state), polls, res, pollable, t)
    {
      ghost var was := state;
      taskInfo := map[];
      var open, before := subjects - approved, subjects * approved;
      var b := TraceTasks(open, polls, before);
      r := Answer(b.checked, b.rejected, interval, false);
      if Rest(open, b) != {} {
        r := Ask(Rest(open, b), res, pollable, b);
      }
      assert taskInfo == Recordings(open, was, polls, b, res, pollable);
      Covered(subjects, approved, was, polls, b, res, pollable, r);
      LawfulByBooks(subjects, approved, was, polls, b, res, pollable, r);
      if Separate(was) && old(interval).None? {
        ReportsByBooks(open, was, polls, before, b, res, pollable, r);
      }
      if old(interval).None? {
        SignalsRight(open, before, was, polls, b, res, pollable, r);
      }
      RecordingsDescend(open, was, polls, b, res, pollable);
      state := ConvTaskInfo();
      if Separate(was) {
        HeldByBooks(open, was, polls, before, b, res, pollable, r);
        DecidedByBooks(subjects, approved, was, polls, b, res, pollable, r);
        RecordingsAreSeparate(open, was, polls, before, b, res, pollable);
        forall n ensures n in r.passed && n in r.rejected <==> SomeDrops(open, was, polls, n) && AnsweredYes(res, pollable, n) {
          BothIffDropped(open, before, was, polls, b, res, pollable, r, n);
        }
        forall t ensures t in state <==> Publishes(open, was, polls, res, pollable, t) {
          RecordingsArePublished(open, was, polls, before, b, res, pollable, t);
        }
      }
    }
  }
}
