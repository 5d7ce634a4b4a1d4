/** The bounded loop of extraction, validation, review and repair of one chunk (review.py). */
module ReviewLoop {
  import opened Wrappers

  // ---------- Calls and their replies ----------

  /** A call returns, or raises a truncation error or any other exception. */
  datatype Reply<+T> = Returned(value: T) | Truncated(reason: string) | Raised(exception: string)

  datatype Issue = Issue(path: string, message: string, evidence: Option<string>)

  datatype Decision = Pass | Fix | Block | Unsupported

  datatype Review = Review(decision: Decision, issues: seq<Issue>)

  /** Validation may change the graph in place, whether it returns or raises. */
  datatype Validation<+G> = Validation(graph: G, issues: Reply<seq<Issue>>)

  /** Every behaviour a bundle can show: what its k-th call of each kind does. */
  datatype Bundle<!G> = Bundle(
    extract: Reply<G>, validate: nat -> Validation<G>, review: nat -> Reply<Review>, repair: nat -> Reply<G>)

  datatype Options = Options(maxReviews: nat, maxFixes: nat)

  datatype Stage = Extracting | Validating | Reviewing | Repairing

  datatype Status = Final | Candidate | Blocked | Failed

  datatype Reason =
    | ReviewPassed
    | ReviewBlocked
    | ValidationFailed
    | ReviewBudgetExhausted
    | FixBudgetExhausted
    | OutputTruncated(at: Stage, reason: string)
    | CallFailed(at: Stage, exception: string)

  datatype ChunkResult<+G> = ChunkResult(
    status: Status, graph: Option<G>, issues: seq<Issue>, reason: Reason, stage: Option<Stage>,
    reviewsUsed: nat, fixesUsed: nat, llmCalls: nat)

  // ---------- Traces ----------

  /** A call that was made: the graph it got, and what came of it. */
  datatype Event<+G> =
    | ExtractCall(extracted: Reply<G>)
    | ValidateCall(given: G, validation: Validation<G>)
    | ReviewCall(reviewed: G, review: Reply<Review>)
    | RepairCall(broken: G, complaints: seq<Issue>, repaired: Reply<G>)

  ghost predicate Counts<G>(kind: Stage, e: Event<G>) {
    match kind
    case Extracting => e.ExtractCall?
    case Validating => e.ValidateCall?
    case Reviewing => e.ReviewCall?
    case Repairing => e.RepairCall?
  }

  ghost function Calls<G>(trace: seq<Event<G>>, kind: Stage): nat {
    if trace == [] then 0
    else Calls(trace[..|trace| - 1], kind) + (if Counts(kind, trace[|trace| - 1]) then 1 else 0)
  }

  lemma CallsSnoc<G>(trace: seq<Event<G>>, e: Event<G>, kind: Stage)
    ensures Calls(trace + [e], kind) == Calls(trace, kind) + (if Counts(kind, e) then 1 else 0)
  {
  }

  /** The graph goes from call to call: what extraction or repair returned is validated, a
      graph without issues is reviewed as validation left it, and repair gets the graph together
      with the issues that were just found. */
  ghost predicate Follows<G>(e: Event<G>, next: Event<G>) {
    match e
    case ExtractCall(Returned(g)) => next.ValidateCall? && next.given == g
    case RepairCall(_, _, Returned(g)) => next.ValidateCall? && next.given == g
    case ValidateCall(_, Validation(g, Returned(issues))) =>
      if issues == [] then next.ReviewCall? && next.reviewed == g
      else next.RepairCall? && next.broken == g && next.complaints == issues
    case ReviewCall(g, Returned(Review(Fix, issues))) => next.RepairCall? && next.broken == g
                                                         && next.complaints == issues
    case _ => false
  }

  ghost predicate Linked<G>(trace: seq<Event<G>>) {
    && trace != [] && trace[0].ExtractCall?
    && forall i :: 0 <= i < |trace| - 1 ==> Follows(trace[i], trace[i + 1])
  }

  /** The reply of a call made after `trace` is the bundle's next one of that kind. */
  ghost predicate Answers<G>(bundle: Bundle<G>, trace: seq<Event<G>>, e: Event<G>) {
    match e
    case ExtractCall(reply) => reply == bundle.extract
    case ValidateCall(_, reply) => reply == bundle.validate(Calls(trace, Validating))
    case ReviewCall(_, reply) => reply == bundle.review(Calls(trace, Reviewing))
    case RepairCall(_, _, reply) => reply == bundle.repair(Calls(trace, Repairing))
  }

  ghost predicate Replied<G>(bundle: Bundle<G>, trace: seq<Event<G>>) {
    forall i :: 0 <= i < |trace| ==> Answers(bundle, trace[..i], trace[i])
  }

  lemma RepliedSnoc<G>(bundle: Bundle<G>, trace: seq<Event<G>>, e: Event<G>)
    requires Replied(bundle, trace) && Answers(bundle, trace, e)
    ensures Replied(bundle, trace + [e])
  {
    hide Answers;
    assert (trace + [e])[..|trace|] == trace;
    forall i | 0 <= i < |trace + [e]|
      ensures Answers(bundle, (trace + [e])[..i], (trace + [e])[i])
    {
      if i < |trace| {
        assert (trace + [e])[..i] == trace[..i];
      }
    }
  }

  function FailureReason<T>(reply: Reply<T>, stage: Stage): Reason
    requires !reply.Returned?
  {
    match reply
    case Truncated(reason) => OutputTruncated(stage, reason)
    case Raised(exception) => CallFailed(stage, exception)
  }

  /** The outcome that the last call of a trace calls for, given the budgets; none if the loop
      goes on. */
  ghost function Outcome<G>(trace: seq<Event<G>>,
                            options: Options): Option<(Status, Option<G>, seq<Issue>, Reason, Option<Stage>)>
    requires trace != []
  {
    var reviewsLeft := Calls(trace, Reviewing) < options.maxReviews;
    var fixesLeft := Calls(trace, Repairing) < options.maxFixes;
    match trace[|trace| - 1]
    case ExtractCall(reply) =>
      if reply.Returned? then None else Some((Failed, None, [], FailureReason(reply, Extracting), Some(Extracting)))
    case ValidateCall(_, Validation(g, reply)) =>
      if !reply.Returned? then Some((Failed, Some(g), [], FailureReason(reply, Validating), Some(Validating)))
      else if reply.value != [] then
        if fixesLeft then None else Some((Blocked, Some(g), reply.value, ValidationFailed, Option.None))
      else if reviewsLeft then None else Some((Candidate, Some(g), [], ReviewBudgetExhausted, Option.None))
    case ReviewCall(g, reply) =>
      if !reply.Returned? then Some((Failed, Some(g), [], FailureReason(reply, Reviewing), Some(Reviewing)))
      else
        (match reply.value.decision
         case Pass => Some((Final, Some(g), reply.value.issues, ReviewPassed, Option.None))
         case Block => Some((Blocked, Some(g), reply.value.issues, ReviewBlocked, Option.None))
         case Unsupported => Some((Failed, Some(g), reply.value.issues, CallFailed(Reviewing, "ValueError"),
                                   Some(Reviewing)))
         case Fix =>
           if fixesLeft then None else Some((Candidate, Some(g), reply.value.issues, FixBudgetExhausted, Option.None)))
    case RepairCall(g, complaints, reply) =>
      if reply.Returned? then None
      else Some((Failed, Some(g), complaints, FailureReason(reply, Repairing), Some(Repairing)))
  }

  /** Nothing but the last call ended the loop. */
  ghost predicate Runs<G>(bundle: Bundle<G>, trace: seq<Event<G>>, options: Options) {
    && Linked(trace) && Replied(bundle, trace)
    && forall n :: 1 <= n < |trace| ==> Outcome(trace[..n], options) == Option.None
  }

  lemma RunsSnoc<G>(bundle: Bundle<G>, trace: seq<Event<G>>, e: Event<G>, options: Options)
    requires Runs(bundle, trace, options) && Outcome(trace, options) == Option.None
    requires Follows(trace[|trace| - 1], e) && Answers(bundle, trace, e)
    ensures Runs(bundle, trace + [e], options)
  {
    hide Outcome, Replied, Answers, Follows;
    var longer := trace + [e];
    RepliedSnoc(bundle, trace, e);
    assert longer[..|trace|] == trace;
    forall n | 1 <= n < |longer|
      ensures Outcome(longer[..n], options) == Option.None
    {
      if n < |trace| {
        assert longer[..n] == trace[..n];
      }
    }
    assert forall i :: 0 <= i < |trace| - 1 ==> Follows(trace[i], trace[i + 1]);
  }

  lemma RunStarts<G>(bundle: Bundle<G>, options: Options)
    ensures var trace := [ExtractCall(bundle.extract)];
            Runs(bundle, trace, options) && forall kind :: Calls(trace, kind) == if kind == Extracting then 1 else 0
  {
  }

  // ---------- The loop ----------

  /** `run_chunk`. The trace records the calls: it is the whole run, and the result is what its
      last call calls for. */
  method RunChunk<G>(bundle: Bundle<G>, options: Options) returns (result: ChunkResult<G>, ghost trace: seq<Event<G>>)
    ensures trace != [] && Runs(bundle, trace, options)
    ensures Outcome(trace, options) == Some((result.status, result.graph, result.issues, result.reason, result.stage))
    ensures result.reviewsUsed == Calls(trace, Reviewing) && result.fixesUsed == Calls(trace, Repairing)
    ensures result.llmCalls == 1 + result.reviewsUsed + result.fixesUsed
    ensures result.fixesUsed <= options.maxFixes
    ensures result.reviewsUsed <= options.maxReviews && result.reviewsUsed <= result.fixesUsed + 1
  {
    hide Runs, Calls;
    var reviewsUsed, fixesUsed, llmCalls := 0, 0, 1;
    var extracted := bundle.extract;
    trace := [ExtractCall(extracted)];
    RunStarts(bundle, options);
    if !extracted.Returned? {
      return ChunkResult(Failed, None, [], FailureReason(extracted, Extracting), Some(Extracting), 0, 0, 1), trace;
    }
    var graph := extracted.value;
    var validations := 0;
    var issues: seq<Issue>;
    while true
      invariant trace != [] && Runs(bundle, trace, options) && Outcome(trace, options) == Option.None
      invariant forall e: Event<G> :: e.ValidateCall? && e.given == graph ==> Follows(trace[|trace| - 1], e)
      invariant reviewsUsed == Calls(trace, Reviewing) && fixesUsed == Calls(trace, Repairing)
      invariant validations == Calls(trace, Validating) && llmCalls == 1 + reviewsUsed + fixesUsed
      invariant reviewsUsed <= fixesUsed <= options.maxFixes && reviewsUsed <= options.maxReviews
      decreases options.maxFixes - fixesUsed
    {
      var validation := bundle.validate(validations);
      trace := Extended(bundle, trace, ValidateCall(graph, validation), options);
      validations := validations + 1;
      graph := validation.graph;
      if !validation.issues.Returned? {
        return ChunkResult(Failed, Some(graph), [], FailureReason(validation.issues, Validating), Some(Validating),
                           reviewsUsed, fixesUsed, llmCalls), trace;
      }
      issues := validation.issues.value;
      if issues != [] {
        if fixesUsed >= options.maxFixes {
          return ChunkResult(Blocked, Some(graph), issues, ValidationFailed, None, reviewsUsed, fixesUsed, llmCalls),
                 trace;
        }
      } else {
        if reviewsUsed >= options.maxReviews {
          return ChunkResult(Candidate, Some(graph), issues, ReviewBudgetExhausted, None, reviewsUsed, fixesUsed,
                             llmCalls), trace;
        }
        var review := bundle.review(reviewsUsed);
        trace := Extended(bundle, trace, ReviewCall(graph, review), options);
        reviewsUsed := reviewsUsed + 1;
        llmCalls := llmCalls + 1;
        if !review.Returned? {
          return ChunkResult(Failed, Some(graph), issues, FailureReason(review, Reviewing), Some(Reviewing),
                             reviewsUsed, fixesUsed, llmCalls), trace;
        }
        issues := review.value.issues;
        if review.value.decision == Pass {
          return ChunkResult(Final, Some(graph), issues, ReviewPassed, None, reviewsUsed, fixesUsed, llmCalls), trace;
        }
        if review.value.decision == Block {
          return ChunkResult(Blocked, Some(graph), issues, ReviewBlocked, None, reviewsUsed, fixesUsed, llmCalls),
                 trace;
        }
        if review.value.decision != Fix {
          return ChunkResult(Failed, Some(graph), issues, CallFailed(Reviewing, "ValueError"), Some(Reviewing),
                             reviewsUsed, fixesUsed, llmCalls), trace;
        }
        if fixesUsed >= options.maxFixes {
          return ChunkResult(Candidate, Some(graph), issues, FixBudgetExhausted, None, reviewsUsed, fixesUsed,
                             llmCalls), trace;
        }
      }
      var repaired := bundle.repair(fixesUsed);
      trace := Extended(bundle, trace, RepairCall(graph, issues, repaired), options);
      fixesUsed := fixesUsed + 1;
      llmCalls := llmCalls + 1;
      if !repaired.Returned? {
        return ChunkResult(Failed, Some(graph), issues, FailureReason(repaired, Repairing), Some(Repairing),
                           reviewsUsed, fixesUsed, llmCalls), trace;
      }
      graph := repaired.value;
      issues := [];
    }
  }

  /** The trace after one more call. */
  ghost function Extended<G>(bundle: Bundle<G>, trace: seq<Event<G>>, e: Event<G>,
                             options: Options): (longer: seq<Event<G>>)
    requires Runs(bundle, trace, options) && Outcome(trace, options) == Option.None
    requires Follows(trace[|trace| - 1], e) && Answers(bundle, trace, e)
    ensures Runs(bundle, longer, options) && longer == trace + [e]
    ensures forall kind: Stage :: Calls(longer, kind) == Calls(trace, kind) + (if Counts(kind, e) then 1 else 0)
  {
    RunsSnoc(bundle, trace, e, options);
    CallsSnoc(trace, e, Extracting);
    CallsSnoc(trace, e, Validating);
    CallsSnoc(trace, e, Reviewing);
    CallsSnoc(trace, e, Repairing);
    trace + [e]
  }

  // ---------- What the results mean ----------

  /** The last validation of the trace found no issue and left the graph as `g`. */
  ghost predicate LastValidatedClean<G>(trace: seq<Event<G>>, g: G) {
    exists i :: 0 <= i < |trace| && trace[i].ValidateCall? && trace[i].validation == Validation(g, Returned([]))
                && forall j :: i < j < |trace| ==> trace[j].ReviewCall?
  }

  /** A final or candidate result carries the graph as the last validation left it, without
      issues; a final one was moreover passed by the review of that very graph. */
  lemma ResultsAreValidated<G>(bundle: Bundle<G>, trace: seq<Event<G>>, options: Options)
    requires Runs(bundle, trace, options) && Outcome(trace, options).Some?
    ensures var (status, graph, issues, reason, stage) := Outcome(trace, options).value;
            && (status.Final? || status.Candidate? ==> graph.Some? && LastValidatedClean(trace, graph.value))
            && (status.Final? ==>
                  && trace[|trace| - 1] == ReviewCall(graph.value, Returned(Review(Pass, issues)))
                  && |trace| >= 2)
  {
  }

  /** The reply of a call, without the value it returned. */
  ghost predicate Ended<G>(e: Event<G>, kind: Stage, how: Reply<()>) {
    match e
    case ExtractCall(reply) => kind == Extracting && how == Bare(reply)
    case ValidateCall(_, validation) => kind == Validating && how == Bare(validation.issues)
    case ReviewCall(_, reply) => kind == Reviewing && how == Bare(reply)
    case RepairCall(_, _, reply) => kind == Repairing && how == Bare(reply)
  }

  function Bare<T>(reply: Reply<T>): Reply<()> {
    match reply
    case Returned(_) => Returned(())
    case Truncated(reason) => Truncated(reason)
    case Raised(exception) => Raised(exception)
  }

  ghost predicate Decided<G>(e: Event<G>, decision: Decision) {
    e.ReviewCall? && e.review.Returned? && e.review.value.decision == decision
  }

  ghost predicate Validated<G>(e: Event<G>, clean: bool) {
    e.ValidateCall? && e.validation.issues.Returned? && (e.validation.issues.value == [] <==> clean)
  }

  /** What each reason says about the last call, and which status goes with it. */
  lemma ReasonsExactly<G>(trace: seq<Event<G>>, options: Options)
    requires trace != [] && Outcome(trace, options).Some?
    ensures var (status, graph, issues, reason, stage) := Outcome(trace, options).value;
            var last := trace[|trace| - 1];
            && (reason == ReviewPassed <==> Decided(last, Pass))
            && (reason == ReviewBlocked <==> Decided(last, Block))
            && (reason == FixBudgetExhausted <==> Decided(last, Fix))
            && (reason == ValidationFailed <==> Validated(last, false))
            && (reason == ReviewBudgetExhausted <==> Validated(last, true))
            && (forall at, why :: reason == OutputTruncated(at, why) <==> Ended(last, at, Truncated(why)))
            && (forall at, what :: reason == CallFailed(at, what) <==>
                  Ended(last, at, Raised(what))
                  || (at == Reviewing && what == "ValueError" && Decided(last, Unsupported)))
            && (status == Final <==> reason == ReviewPassed)
            && (status == Blocked <==> reason in {ReviewBlocked, ValidationFailed})
            && (status == Candidate <==> reason in {FixBudgetExhausted, ReviewBudgetExhausted})
            && (stage.Some? <==> status == Failed)
            && (stage.Some? ==> Counts(stage.value, last))
  {
    hide Calls;
  }

  /** The loop ends after a call exactly when the call failed, the review decided, or the budget
      for what would come next is spent. */
  lemma EndsExactly<G>(trace: seq<Event<G>>, options: Options)
    requires trace != []
    ensures var last := trace[|trace| - 1];
            Outcome(trace, options).Some? <==>
              || (exists at, how: Reply<()> :: !how.Returned? && Ended(last, at, how))
              || Decided(last, Pass) || Decided(last, Block) || Decided(last, Unsupported)
              || ((Decided(last, Fix) || Validated(last, false)) && Calls(trace, Repairing) >= options.maxFixes)
              || (Validated(last, true) && Calls(trace, Reviewing) >= options.maxReviews)
  {
    hide Calls;
    var last := trace[|trace| - 1];
    match last
    case ExtractCall(reply) => assert Ended(last, Extracting, Bare(reply));
    case ValidateCall(_, validation) => assert Ended(last, Validating, Bare(validation.issues));
    case ReviewCall(_, reply) => assert Ended(last, Reviewing, Bare(reply));
    case RepairCall(_, _, reply) => assert Ended(last, Repairing, Bare(reply));
  }

  /** The graph and the issues of the result: as the last validation left the graph, or as it
      went into repair, with what was last found to be wrong with it. */
  lemma ResultsCarry<G>(trace: seq<Event<G>>, options: Options)
    requires trace != [] && Outcome(trace, options).Some?
    ensures var (status, graph, issues, reason, stage) := Outcome(trace, options).value;
            var last := trace[|trace| - 1];
            && (last.ExtractCall? <==> graph == None)
            && (last.ValidateCall? ==> graph == Some(last.validation.graph))
            && (last.ReviewCall? ==> graph == Some(last.reviewed))
            && (last.RepairCall? ==> graph == Some(last.broken) && issues == last.complaints)
            && (last.ValidateCall? && last.validation.issues.Returned? ==> issues == last.validation.issues.value)
            && (last.ReviewCall? && last.review.Returned? ==> issues == last.review.value.issues)
            && (status == Failed && !last.RepairCall? && !Decided(last, Unsupported) ==> issues == [])
  {
    hide Calls;
  }
}
