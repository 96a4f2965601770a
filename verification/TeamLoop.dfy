/** One team run (tankai/core/loop.py) under the shared call budget (tankai/core/llm.py). */
module TeamLoops {
  // A run plans, executes, synthesizes and checks. What the models answer is an arbitrary input.

  import opened Common

  const MAX_STEPS: nat := 5

  datatype Step = Step(research: bool)

  /** What the planner's text parses to before the step limit is checked. */
  datatype RawPlan = Malformed | Steps(steps: seq<Step>)

  datatype Plan = Plan(steps: seq<Step>, parseFallback: bool)

  /** One attempt at a step: what the specialist and the critic do, and which sources were fetched and cited. */
  datatype Attempt = Attempt(specialistFails: bool, criticFails: bool, criticPasses: bool, sources: set<string>,
                             researchError: bool, cited: set<string>)

  /** Everything the models answer in one run. */
  datatype Answers = Answers(plan: nat -> RawPlan, planApproved: nat -> bool, attempt: (nat, nat) -> Attempt,
                             finalCited: set<string>, finalApproved: bool)

  datatype Settings = Settings(maxRetries: nat, evidence: bool, single: bool, simulated: bool, ltm: bool)

  datatype RunResult = RunResult(plan: Plan, planGatePassed: bool, completed: seq<bool>, sources: set<string>,
                                 releaseReady: bool)

  /** Calls of planning and of each step, with retries, and three more. */
  function Bound(retries: nat, steps: nat): nat {
    2 * (retries + 1) * (1 + steps) + 3
  }

  /** Synthesis unless the single step is reused, the final critique, and consolidation into long-term memory. */
  function FinalCalls(s: Settings): nat {
    (if s.single then 0 else 1) + 1 + if s.ltm && !s.simulated then 1 else 0
  }

  /** The default of two retries and at most five steps needs 39 calls; the budget allows 40. */
  lemma DefaultBudgetSuffices(steps: nat)
    requires steps <= MAX_STEPS
    ensures Bound(2, steps) <= 39
  {
  }

  function ParsedPlan(raw: RawPlan, maxSteps: nat): Plan {
    if raw.Malformed? || |raw.steps| == 0 || |raw.steps| > maxSteps then Plan([], true) else Plan(raw.steps, false)
  }

  // ----- the deterministic gates -----

  /** A research step needs fetched sources, at least one of them cited, and nothing cited that was not fetched. */
  predicate ResearchOk(expected: set<string>, cited: set<string>) {
    expected != {} && cited * expected != {} && cited <= expected
  }

  predicate AttemptPasses(step: Step, a: Attempt, evidence: bool) {
    !a.specialistFails && !a.criticFails && a.criticPasses
    && (step.research && evidence ==> !a.researchError && ResearchOk(a.sources, a.cited))
  }

  predicate HasResearch(plan: Plan) {
    exists i :: 0 <= i < |plan.steps| && plan.steps[i].research
  }

  predicate AllCompleted(completed: seq<bool>) {
    forall i :: 0 <= i < |completed| ==> completed[i]
  }

  /** A step that counts as completed had an attempt that passed critic and research gate. */
  ghost predicate Earned(plan: Plan, answers: Answers, s: Settings, completed: seq<bool>) {
    |completed| == |plan.steps|
    && forall i :: 0 <= i < |completed| && completed[i] ==> SomeAttemptStands(plan.steps[i], i, answers, s)
  }

  ghost predicate SomeAttemptStands(step: Step, i: nat, answers: Answers, s: Settings) {
    exists k: nat :: k <= s.maxRetries && StepStands(step, answers.attempt(i, k), s.evidence)
  }

  ghost predicate SourcesKept(step: Step, i: nat, answers: Answers, s: Settings, sources: set<string>) {
    exists k: nat :: k <= s.maxRetries && StepStands(step, answers.attempt(i, k), s.evidence) && answers.attempt(i, k).sources <= sources
  }

  ghost predicate FetchedBySome(plan: Plan, answers: Answers, s: Settings, x: string) {
    exists i, k: nat :: 0 <= i < |plan.steps| && plan.steps[i].research && k <= s.maxRetries && x in answers.attempt(i, k).sources
  }

  /** What a release promises. */
  ghost predicate Releasable(r: RunResult, answers: Answers, s: Settings) {
    && r.planGatePassed && !r.plan.parseFallback && 0 < |r.plan.steps| <= MAX_STEPS
    && Earned(r.plan, answers, s, r.completed) && AllCompleted(r.completed)
    && answers.finalApproved && !s.simulated
    && (s.evidence && HasResearch(r.plan) ==> ResearchOk(r.sources, answers.finalCited))
  }

  // ----- what the answers amount to -----

  /** Something is cited, and nothing that was not fetched. */
  ghost predicate Cites(cited: set<string>, sources: set<string>) {
    (exists c :: c in cited && c in sources) && forall c :: c in cited ==> c in sources
  }

  /** The text parses to between one and the allowed number of steps, and the critic approves. */
  predicate PlanStands(answers: Answers, s: Settings, k: nat) {
    var raw := answers.plan(k);
    raw.Steps? && 0 < |raw.steps| <= (if s.single then 1 else 5) && answers.planApproved(k)
  }

  /** Specialist and critic answer, the critic is content, and a research step that needs evidence cites its sources. */
  ghost predicate StepStands(step: Step, a: Attempt, evidence: bool) {
    && !a.specialistFails && !a.criticFails && a.criticPasses
    && (step.research && evidence ==> !a.researchError && Cites(a.cited, a.sources))
  }

  lemma StandingIsPassing(step: Step, a: Attempt, evidence: bool)
    ensures StepStands(step, a, evidence) <==> AttemptPasses(step, a, evidence)
  {
    CitesIsResearchOk(a.cited, a.sources);
  }

  lemma CitesIsResearchOk(cited: set<string>, sources: set<string>)
    ensures Cites(cited, sources) <==> ResearchOk(sources, cited)
  {
    if ResearchOk(sources, cited) {
      var c :| c in cited * sources;
    }
    if c :| c in cited && c in sources {
      assert c in cited * sources;
    }
  }

  /** No attempt so far stands, and a step that was given up has no attempt that does. */
  ghost predicate FailedSoFar(w: Work, step: Step, i: nat, answers: Answers, s: Settings) {
    && (forall k: nat :: k < w.attempt ==> !StepStands(step, answers.attempt(i, k), s.evidence))
    && (w.done && !w.passed ==> forall k: nat :: k <= s.maxRetries ==> !StepStands(step, answers.attempt(i, k), s.evidence))
  }

  /** What the specialist of the attempt at hand, or of the one that passed, has fetched is among the sources. */
  predicate Fetched(w: Work, step: Step, i: nat, answers: Answers, sources: set<string>) {
    step.research && (if w.done then w.passed else w.criticNext) ==> answers.attempt(i, w.attempt).sources <= sources
  }

  /** What the work on one step has established. */
  ghost predicate Sound(w: Work, step: Step, i: nat, answers: Answers, s: Settings, sources: set<string>) {
    && TwoCalls(w, s.maxRetries) && Fetched(w, step, i, answers, sources)
    && (w.done && w.passed ==> w.attempt <= s.maxRetries && StepStands(step, answers.attempt(i, w.attempt), s.evidence))
  }

  ghost predicate AllSound(work: seq<Work>, plan: Plan, answers: Answers, s: Settings, sources: set<string>) {
    && |work| == |plan.steps| && (forall i :: 0 <= i < |work| ==> Sound(work[i], plan.steps[i], i, answers, s, sources))
    && forall x :: x in sources ==> FetchedBySome(plan, answers, s, x)
  }

  ghost predicate AllFailedSoFar(work: seq<Work>, plan: Plan, answers: Answers, s: Settings) {
    |work| == |plan.steps| && forall i :: 0 <= i < |work| ==> FailedSoFar(work[i], plan.steps[i], i, answers, s)
  }

  lemma SoundAfter(work: seq<Work>, plan: Plan, answers: Answers, s: Settings, sources: set<string>, i: nat, w: Work,
                   fetched: set<string>)
    requires AllSound(work, plan, answers, s, sources) && i < |work|
    requires Sound(w, plan.steps[i], i, answers, s, sources + fetched)
    requires fetched != {} ==> plan.steps[i].research && work[i].attempt <= s.maxRetries
                               && fetched == answers.attempt(i, work[i].attempt).sources
    ensures AllSound(work[i := w], plan, answers, s, sources + fetched)
  {
    forall x | x in fetched
      ensures FetchedBySome(plan, answers, s, x)
    {
      assert x in answers.attempt(i, work[i].attempt).sources;
    }
  }

  function Completed(work: seq<Work>): (completed: seq<bool>)
    ensures |completed| == |work| && forall i :: 0 <= i < |work| ==> completed[i] == (work[i].done && work[i].passed)
  {
    seq(|work|, i requires 0 <= i < |work| => work[i].done && work[i].passed)
  }

  /** A step counts as completed exactly when one of its attempts stands. */
  ghost predicate Judged(plan: Plan, answers: Answers, s: Settings, completed: seq<bool>) {
    |completed| == |plan.steps|
    && forall i :: 0 <= i < |completed| ==> (completed[i] <==> SomeAttemptStands(plan.steps[i], i, answers, s))
  }

  /** The sources hold what the completed research steps rest on, and only what some research step has fetched. */
  ghost predicate SourcesTold(plan: Plan, answers: Answers, s: Settings, completed: seq<bool>, sources: set<string>) {
    && |completed| == |plan.steps|
    && (forall i :: 0 <= i < |completed| && completed[i] && plan.steps[i].research ==>
          SourcesKept(plan.steps[i], i, answers, s, sources))
    && forall x :: x in sources ==> FetchedBySome(plan, answers, s, x)
  }

  /** The final critic approves, every step is completed, and research that needs evidence cites its sources. */
  ghost predicate Passes(plan: Plan, answers: Answers, s: Settings, completed: seq<bool>, sources: set<string>) {
    && answers.finalApproved && (forall i :: 0 <= i < |completed| ==> completed[i])
    && (s.evidence && (exists i :: 0 <= i < |plan.steps| && plan.steps[i].research) ==> Cites(answers.finalCited, sources))
  }

  /** The plan is that of the first planning attempt that stands. */
  ghost predicate FirstPlan(plan: Plan, answers: Answers, s: Settings) {
    exists k: nat :: k <= s.maxRetries && PlanStands(answers, s, k) && plan.steps == answers.plan(k).steps
                     && forall m: nat :: m < k ==> !PlanStands(answers, s, m)
  }

  ghost predicate SomePlanStands(answers: Answers, s: Settings) {
    exists k: nat :: k <= s.maxRetries && PlanStands(answers, s, k)
  }

  lemma {:induction false} WorkIsDone(work: seq<Work>, plan: Plan, answers: Answers, s: Settings, sources: set<string>)
    requires AllSound(work, plan, answers, s, sources) && forall i :: 0 <= i < |work| ==> work[i].done
    ensures Earned(plan, answers, s, Completed(work)) && SourcesTold(plan, answers, s, Completed(work), sources)
    ensures AllFailedSoFar(work, plan, answers, s) ==> Judged(plan, answers, s, Completed(work))
    ensures s.maxRetries == 0 && AllCompleted(Completed(work)) ==> TotalAsked(work) == 2 * |work|
  {
    var completed := Completed(work);
    forall i | 0 <= i < |work|
      ensures completed[i] ==> SomeAttemptStands(plan.steps[i], i, answers, s)
      ensures completed[i] && plan.steps[i].research ==> SourcesKept(plan.steps[i], i, answers, s, sources)
      ensures FailedSoFar(work[i], plan.steps[i], i, answers, s) && !completed[i] ==>
                !SomeAttemptStands(plan.steps[i], i, answers, s)
    {
      assert Sound(work[i], plan.steps[i], i, answers, s, sources);
    }
    if s.maxRetries == 0 && AllCompleted(completed) {
      forall i | 0 <= i < |work|
        ensures work[i].asked == 2
      {
        assert completed[i] && Sound(work[i], plan.steps[i], i, answers, s, sources);
      }
      TwoCallsEach(work);
    }
  }

  // ----- the work on the steps -----

  /** One step in progress: which attempt, whether its critic is next, and how many calls it has asked for. */
  datatype Work = Work(attempt: nat, criticNext: bool, done: bool, passed: bool, asked: nat)

  function Progress(w: Work, retries: nat): nat {
    if w.done then 2 * (retries + 1) else 2 * w.attempt + if w.criticNext then 1 else 0
  }

  predicate WorkOk(w: Work, retries: nat) {
    (!w.done ==> w.attempt <= retries) && w.asked <= Progress(w, retries)
  }

  function Left(w: Work, retries: nat): nat
    requires WorkOk(w, retries)
  {
    2 * (retries + 1) - Progress(w, retries)
  }

  ghost predicate AllOk(work: seq<Work>, retries: nat) {
    forall i :: 0 <= i < |work| ==> WorkOk(work[i], retries)
  }

  /** Without retries a step that passed has asked for exactly two calls, and one in progress for its specialist's. */
  predicate TwoCalls(w: Work, retries: nat) {
    retries == 0 && (!w.done || w.passed) ==> w.asked == Progress(w, 0)
  }

  lemma {:induction false} TwoCallsEach(work: seq<Work>)
    requires forall i :: 0 <= i < |work| ==> work[i].asked == 2
    ensures TotalAsked(work) == 2 * |work|
  {
    if |work| > 0 {
      TwoCallsEach(work[..|work| - 1]);
    }
  }

  function TotalLeft(work: seq<Work>, retries: nat): nat
    requires AllOk(work, retries)
  {
    if |work| == 0 then 0 else TotalLeft(work[..|work| - 1], retries) + Left(work[|work| - 1], retries)
  }

  function TotalAsked(work: seq<Work>): nat {
    if |work| == 0 then 0 else TotalAsked(work[..|work| - 1]) + work[|work| - 1].asked
  }

  lemma {:induction false} TotalLeftAfter(work: seq<Work>, retries: nat, i: nat, w: Work)
    requires AllOk(work, retries) && i < |work| && WorkOk(w, retries)
    ensures AllOk(work[i := w], retries)
    ensures TotalLeft(work[i := w], retries) == TotalLeft(work, retries) - Left(work[i], retries) + Left(w, retries)
  {
    var n := |work| - 1;
    if i == n {
      assert work[i := w][..n] == work[..n];
    } else {
      TotalLeftAfter(work[..n], retries, i, w);
      assert work[i := w][..n] == work[..n][i := w];
    }
  }

  lemma {:induction false} TotalAskedAfter(work: seq<Work>, i: nat, w: Work)
    requires i < |work|
    ensures TotalAsked(work[i := w]) == TotalAsked(work) - work[i].asked + w.asked
  {
    var n := |work| - 1;
    if i == n {
      assert work[i := w][..n] == work[..n];
    } else {
      TotalAskedAfter(work[..n], i, w);
      assert work[i := w][..n] == work[..n][i := w];
    }
  }

  lemma {:induction false} AskedBound(work: seq<Work>, retries: nat)
    requires AllOk(work, retries)
    ensures TotalAsked(work) <= 2 * (retries + 1) * |work|
  {
    if |work| > 0 {
      AskedBound(work[..|work| - 1], retries);
      assert work[|work| - 1].asked <= 2 * (retries + 1);
      assert 2 * (retries + 1) * |work| == 2 * (retries + 1) * (|work| - 1) + 2 * (retries + 1);
    }
  }

  /** After a failed attempt: the next one, or the step has failed. */
  function NextAttempt(w: Work, retries: nat): Work {
    if w.attempt < retries then w.(attempt := w.attempt + 1, criticNext := false) else w.(done := true, passed := false)
  }

  /** Giving up an attempt keeps what is known of the step, and fails it only if none of its attempts stands. */
  lemma GivenUp(w: Work, step: Step, i: nat, answers: Answers, s: Settings)
    requires WorkOk(w, s.maxRetries) && !w.done
    ensures var w' := NextAttempt(w.(asked := w.asked + 1), s.maxRetries);
            && WorkOk(w', s.maxRetries) && Left(w', s.maxRetries) < Left(w, s.maxRetries)
            && (forall known :: TwoCalls(w, s.maxRetries) ==> Sound(w', step, i, answers, s, known))
            && (FailedSoFar(w, step, i, answers, s) && !StepStands(step, answers.attempt(i, w.attempt), s.evidence) ==>
                  FailedSoFar(w', step, i, answers, s))
  {
  }

  lemma {:induction false} FreshWork(n: nat, retries: nat)
    ensures var work := seq(n, _ => Work(0, false, false, false, 0));
            AllOk(work, retries) && TotalAsked(work) == 0
  {
    var work := seq(n, _ => Work(0, false, false, false, 0));
    if n > 0 {
      FreshWork(n - 1, retries);
      assert work[..n - 1] == seq(n - 1, _ => Work(0, false, false, false, 0));
    }
  }

  // ----- the budget -----

  class LLMCallBudget {
    const maxCalls: nat
    var used: nat
    /** Calls asked for since the last reset, granted or not. */
    ghost var asked: nat

    ghost predicate Valid()
      reads this
    {
      used == Min(asked, maxCalls)
    }

    constructor (maxCalls: nat)
      requires 1 <= maxCalls <= 40
      ensures Valid() && asked == 0 && this.maxCalls == maxCalls
    {
      this.maxCalls, used, asked := maxCalls, 0, 0;
    }

    method Reset()
      modifies this
      ensures Valid() && asked == 0
    {
      used, asked := 0, 0;
    }

    /** Blocks the call when the budget is used up; a blocked call uses nothing. */
    method Consume() returns (ok: bool)
      requires Valid()
      modifies this
      ensures Valid() && asked == old(asked) + 1 && (ok <==> asked <= maxCalls)
      ensures used == old(used) + if ok then 1 else 0
    {
      asked := asked + 1;
      ok := used < maxCalls;
      if ok {
        used := used + 1;
      }
    }
  }

  class TeamLoop {
    const budget: LLMCallBudget
    const s: Settings

    constructor (budget: LLMCallBudget, s: Settings)
      requires s.single ==> s.maxRetries == 0 && budget.maxCalls >= 5
      ensures this.budget == budget && this.s == s
    {
      this.budget, this.s := budget, s;
    }

    /** Plans until the critic approves or the retries are used up; None when the budget blocks a call. */
    method PlanAndReview(answers: Answers) returns (plan: Option<Plan>, approved: bool)
      requires budget.Valid()
      modifies budget
      ensures budget.Valid() && old(budget.asked) <= budget.asked <= old(budget.asked) + 2 * (s.maxRetries + 1)
      ensures plan.None? ==> budget.asked > budget.maxCalls
      ensures plan.Some? ==> |plan.value.steps| <= if s.single then 1 else MAX_STEPS
      ensures approved ==> plan.Some? && !plan.value.parseFallback && |plan.value.steps| > 0
      ensures approved && s.maxRetries == 0 ==> budget.asked == old(budget.asked) + 2
      ensures plan.Some? ==> (approved <==> SomePlanStands(answers, s))
      ensures approved ==> FirstPlan(plan.value, answers, s)
    {
      plan, approved := None, false;
      var attempt := 0;
      while attempt <= s.maxRetries && !approved
        invariant attempt <= s.maxRetries + 1 && budget.Valid()
        invariant old(budget.asked) <= budget.asked <= old(budget.asked) + 2 * attempt
        invariant attempt > 0 ==> plan.Some?
        invariant plan.Some? ==> |plan.value.steps| <= if s.single then 1 else MAX_STEPS
        invariant approved ==> plan.Some? && !plan.value.parseFallback && |plan.value.steps| > 0
        invariant approved && s.maxRetries == 0 ==> budget.asked == old(budget.asked) + 2
        invariant !approved ==> forall m: nat :: m < attempt ==> !PlanStands(answers, s, m)
        invariant approved ==> 0 < attempt && PlanStands(answers, s, attempt - 1)
                               && plan.value.steps == answers.plan(attempt - 1).steps
                               && forall m: nat :: m < attempt - 1 ==> !PlanStands(answers, s, m)
        decreases s.maxRetries + 1 - attempt
      {
        var granted := budget.Consume();
        if !granted {
          return None, false;
        }
        var p := ParsedPlan(answers.plan(attempt), if s.single then 1 else MAX_STEPS);
        plan := Some(p);
        if !p.parseFallback && |p.steps| > 0 {
          granted := budget.Consume();
          if !granted {
            return None, false;
          }
          approved := answers.planApproved(attempt);
        }
        attempt := attempt + 1;
      }
    }

    /** One model call for a step: the specialist's, or the critic's on what the specialist produced. */
    method Advance(step: Step, i: nat, answers: Answers, w: Work) returns (w': Work, fetched: set<string>)
      requires budget.Valid() && WorkOk(w, s.maxRetries) && !w.done
      modifies budget
      ensures budget.Valid() && budget.asked == old(budget.asked) + 1 && w'.asked == w.asked + 1
      ensures WorkOk(w', s.maxRetries) && Left(w', s.maxRetries) < Left(w, s.maxRetries)
      ensures budget.asked <= budget.maxCalls && FailedSoFar(w, step, i, answers, s) ==> FailedSoFar(w', step, i, answers, s)
      ensures forall known :: Sound(w, step, i, answers, s, known) ==> Sound(w', step, i, answers, s, known + fetched)
      ensures fetched != {} ==> step.research && w.attempt <= s.maxRetries && fetched == answers.attempt(i, w.attempt).sources
    {
      StandingIsPassing(step, answers.attempt(i, w.attempt), s.evidence);
      GivenUp(w, step, i, answers, s);
      var a := answers.attempt(i, w.attempt);
      var granted := budget.Consume();
      fetched := {};
      w' := w.(asked := w.asked + 1);
      if !w.criticNext {
        if !granted || a.specialistFails {
          w' := NextAttempt(w', s.maxRetries);
        } else {
          w' := w'.(criticNext := true);
          if step.research {
            fetched := a.sources;
          }
        }
      } else if granted && AttemptPasses(step, a, s.evidence) {
        w' := w'.(done := true, passed := true);
      } else {
        w' := NextAttempt(w', s.maxRetries);
      }
    }

    /** One model call for one of the steps that are not done. */
    method Turn(plan: Plan, answers: Answers, work: seq<Work>, i: nat, sources: set<string>)
      returns (work': seq<Work>, sources': set<string>)
      requires budget.Valid() && AllOk(work, s.maxRetries) && AllSound(work, plan, answers, s, sources)
      requires i < |work| && !work[i].done
      modifies budget
      ensures budget.Valid() && budget.asked == old(budget.asked) + 1
      ensures AllOk(work', s.maxRetries) && AllSound(work', plan, answers, s, sources')
      ensures TotalLeft(work', s.maxRetries) < TotalLeft(work, s.maxRetries) && TotalAsked(work') == TotalAsked(work) + 1
      ensures budget.asked <= budget.maxCalls && AllFailedSoFar(work, plan, answers, s) ==>
                AllFailedSoFar(work', plan, answers, s)
    {
      var w, fetched := Advance(plan.steps[i], i, answers, work[i]);
      TotalLeftAfter(work, s.maxRetries, i, w);
      TotalAskedAfter(work, i, w);
      SoundAfter(work, plan, answers, s, sources, i, w, fetched);
      work', sources' := work[i := w], sources + fetched;
    }

    /**
     * Works on all steps, one model call at a time and in any order: one after the other or in parallel. A blocked
     * call fails its attempt like any other error.
     */
    method ExecuteSteps(plan: Plan, answers: Answers) returns (completed: seq<bool>, sources: set<string>)
      requires budget.Valid()
      modifies budget
      ensures budget.Valid()
      ensures old(budget.asked) <= budget.asked <= old(budget.asked) + 2 * (s.maxRetries + 1) * |plan.steps|
      ensures Earned(plan, answers, s, completed) && SourcesTold(plan, answers, s, completed, sources)
      ensures s.maxRetries == 0 && AllCompleted(completed) ==> budget.asked == old(budget.asked) + 2 * |plan.steps|
      ensures budget.maxCalls >= old(budget.asked) + 2 * (s.maxRetries + 1) * |plan.steps| ==>
                Judged(plan, answers, s, completed)
    {
      var n := |plan.steps|;
      var work := seq(n, _ => Work(0, false, false, false, 0));
      sources := {};
      FreshWork(n, s.maxRetries);
      ghost var enough := budget.maxCalls >= budget.asked + 2 * (s.maxRetries + 1) * n;
      while exists i :: 0 <= i < |work| && !work[i].done
        invariant |work| == n && AllOk(work, s.maxRetries) && budget.Valid()
        invariant budget.asked == old(budget.asked) + TotalAsked(work)
        invariant AllSound(work, plan, answers, s, sources)
        invariant enough ==> AllFailedSoFar(work, plan, answers, s)
        decreases TotalLeft(work, s.maxRetries)
      {
        var i :| 0 <= i < |work| && !work[i].done;
        work, sources := Turn(plan, answers, work, i, sources);
        AskedBound(work, s.maxRetries);
      }
      AskedBound(work, s.maxRetries);
      WorkIsDone(work, plan, answers, s, sources);
      completed := Completed(work);
    }

    /** Synthesis, final critique and gates, and consolidation; None when the budget blocks a call. */
    method Finish(plan: Plan, answers: Answers, completed: seq<bool>, sources: set<string>) returns (passed: Option<bool>)
      requires budget.Valid()
      modifies budget
      ensures budget.Valid() && old(budget.asked) <= budget.asked <= old(budget.asked) + 3
      ensures passed.None? ==> budget.asked > budget.maxCalls
      ensures passed.Some? ==> budget.asked == old(budget.asked) + FinalCalls(s) <= budget.maxCalls
      ensures passed.Some? ==> (passed.value <==> Passes(plan, answers, s, completed, sources))
    {
      CitesIsResearchOk(answers.finalCited, sources);
      if !s.single {
        var granted := budget.Consume();
        if !granted {
          return None;
        }
      }
      var granted := budget.Consume();
      if !granted {
        return None;
      }
      var ok := answers.finalApproved;
      if s.evidence && HasResearch(plan) && !ResearchOk(sources, answers.finalCited) {
        ok := false;
      }
      if !AllCompleted(completed) {
        ok := false;
      }
      if s.ltm && !s.simulated {
        granted := budget.Consume();
        if !granted {
          return None;
        }
      }
      passed := Some(ok);
    }

    /** Execution and final stage of an approved plan. */
    method ExecuteAndFinish(plan: Plan, answers: Answers) returns (r: Option<RunResult>)
      requires budget.Valid()
      modifies budget
      ensures budget.Valid()
      ensures old(budget.asked) <= budget.asked <= old(budget.asked) + 2 * (s.maxRetries + 1) * |plan.steps| + 3
      ensures r.None? ==> budget.asked > budget.maxCalls
      ensures r.Some? ==>
                && budget.asked <= old(budget.asked) + 2 * (s.maxRetries + 1) * |plan.steps| + FinalCalls(s)
                && budget.asked <= budget.maxCalls && r.value.plan == plan && r.value.planGatePassed
                && Earned(plan, answers, s, r.value.completed)
                && SourcesTold(plan, answers, s, r.value.completed, r.value.sources)
                && (r.value.releaseReady <==> !s.simulated && Passes(plan, answers, s, r.value.completed, r.value.sources))
      ensures r.Some? && budget.maxCalls >= old(budget.asked) + 2 * (s.maxRetries + 1) * |plan.steps| ==>
                Judged(plan, answers, s, r.value.completed)
      ensures r.Some? && r.value.releaseReady && s.maxRetries == 0 ==>
                budget.asked == old(budget.asked) + 2 * |plan.steps| + FinalCalls(s)
    {
      var completed, sources := ExecuteSteps(plan, answers);
      var passed := Finish(plan, answers, completed, sources);
      if passed.None? {
        return None;
      }
      r := Some(RunResult(plan, true, completed, sources, passed.value && !s.simulated));
    }

    /**
     * A whole run; None when it ends with the error of the exhausted budget. A release in single-step mode takes five
     * calls, or six with long-term memory: the five that the constructor asks for are then one too few.
     */
    method Run(answers: Answers) returns (r: Option<RunResult>)
      modifies budget
      ensures budget.Valid() && budget.asked <= Bound(s.maxRetries, MAX_STEPS)
      ensures r.Some? ==> budget.asked <= Bound(s.maxRetries, |r.value.plan.steps|)
      ensures r.Some? ==> budget.asked <= 2 * (s.maxRetries + 1) * (1 + |r.value.plan.steps|) + FinalCalls(s)
      ensures r.Some? && r.value.releaseReady && s.maxRetries == 0 ==>
                budget.asked == 2 * (1 + |r.value.plan.steps|) + FinalCalls(s) <= budget.maxCalls
      ensures r.Some? && r.value.releaseReady && s.single && s.maxRetries == 0 ==>
                budget.asked == (if s.ltm then 6 else 5) <= budget.maxCalls
      ensures r.None? ==> budget.asked > budget.maxCalls
      ensures budget.maxCalls >= Bound(s.maxRetries, MAX_STEPS) ==> r.Some? && budget.used == budget.asked
      ensures r.Some? && r.value.releaseReady ==> Releasable(r.value, answers, s)
      ensures r.Some? ==> (r.value.planGatePassed <==> SomePlanStands(answers, s))
      ensures r.Some? && r.value.planGatePassed ==>
                FirstPlan(r.value.plan, answers, s)
                && SourcesTold(r.value.plan, answers, s, r.value.completed, r.value.sources)
      ensures r.Some? ==> (r.value.releaseReady <==>
                             r.value.planGatePassed && !s.simulated
                             && Passes(r.value.plan, answers, s, r.value.completed, r.value.sources))
      ensures budget.maxCalls >= Bound(s.maxRetries, MAX_STEPS) && r.Some? && r.value.planGatePassed ==>
                Judged(r.value.plan, answers, s, r.value.completed)
    {
      budget.Reset();
      var plan, approved := PlanAndReview(answers);
      ghost var steps := if plan.Some? then |plan.value.steps| else 0;
      BoundGrows(s.maxRetries, steps, MAX_STEPS);
      if plan.None? {
        return None;
      }
      if !approved {
        return Some(RunResult(plan.value, false, [], {}, false));
      }
      BoundIsSum(s.maxRetries, steps);
      r := ExecuteAndFinish(plan.value, answers);
      CitesIsResearchOk(answers.finalCited, if r.Some? then r.value.sources else {});
    }
  }

  lemma BoundIsSum(retries: nat, steps: nat)
    ensures Bound(retries, steps) == 2 * (retries + 1) + 2 * (retries + 1) * steps + 3
  {
  }

  lemma BoundGrows(retries: nat, m: nat, n: nat)
    requires m <= n
    ensures 2 * (retries + 1) + 3 <= Bound(retries, m) <= Bound(retries, n)
  {
    BoundIsSum(retries, m);
    BoundIsSum(retries, n);
    assert 2 * (retries + 1) * m <= 2 * (retries + 1) * n;
  }
}
