/** How a repair episode ends, and by which answer, over any crashes, restarts and operator resumes. */
module RepairOutcome {
  import opened Prelude
  import opened DayModels
  import opened RepairEpisodes

  /** A local proposal that was not made before, is in scope, and passed its verification. */
  ghost predicate GoodProposal(e: Episode, answer: ProposalAnswer) {
    && answer.Proposed? && answer.inScope && answer.verified
    && forall p :: p in e.proposals ==> p.fingerprint != Some(answer.fingerprint)
  }

  /** In this step the episode ends so. */
  ghost predicate EndsBy(s: Supervision, step: Step, how: FinalOutcome) {
    match how
    case LOCAL_VERIFIED => step.Propose? && s.at == LocalLoop && CanPropose(s.live, step.now) && GoodProposal(s.live, step.answer)
    case CODEX_VERIFIED => step == Expert(true) && s.at == AskExpert && s.live.expert == None
    case EXTERNAL_REVIEW_VERIFIED => step == Builder(true) && s.at == Building
    case EXTERNAL_REVIEW_BUILDER_FAILED => step == Builder(false) && s.at == Building
    case EXTERNAL_REVIEW_NOT_ELIGIBLE => step.Prepare? && s.at == AskReviewer && !step.eligible
    case EXTERNAL_REVIEW_UNRESOLVED =>
      || (step.Judge? && s.at == Reviewed(false))
      || (step.Prepare? && s.at == AskReviewer && step.eligible && Open(s.live.phase) && !(s.live.artifact.Some? && step.loaded))
  }

  lemma EndStep(s: Supervision, step: Step, how: FinalOutcome)
    requires SupervisionOk(s)
    ensures s.saved.final != Some(how) ==> (After(s, step).saved.final == Some(how) <==> EndsBy(s, step, how))
    ensures EndsBy(s, step, how) ==> s.saved.final == None
  {
    EndFacts(s, step);
  }

  /** Where the supervisor works, memory and disk agree and the episode is open. */
  lemma EndFacts(s: Supervision, step: Step)
    requires SupervisionOk(s)
    ensures s.at.LocalLoop? || s.at.AskExpert? || s.at.AskReviewer? || s.at.Reviewed? || s.at.Building? ==>
              s.live.final == None && s.saved == s.live
  {
  }

  function Run(deadline: Time, steps: seq<Step>): Supervision {
    AfterAll(Supervision(New(deadline), New(deadline), Idle, 0), steps)
  }

  /** The `k`-th step ended the episode so, and it has been ended so since. */
  ghost predicate EndedAt(deadline: Time, steps: seq<Step>, k: nat, how: FinalOutcome)
    requires k < |steps|
  {
    EndsBy(Run(deadline, steps[..k]), steps[k], how)
    && forall j :: k < j <= |steps| ==> Run(deadline, steps[..j]).saved.final == Some(how)
  }

  /**
   * From a new episode, through any crashes, restarts and resumes: its outcome is the one a step gave it, each by
   * its own answer; LOCAL_VERIFIED exactly by a local proposal that was new, in scope and verified.
   */
  lemma {:induction false} EndedExactly(deadline: Time, steps: seq<Step>, how: FinalOutcome)
    ensures Run(deadline, steps).saved.final == Some(how) <==> exists k: nat :: k < |steps| && EndedAt(deadline, steps, k, how)
  {
    hide After, EndsBy, SupervisionOk;
    assert steps[..|steps|] == steps;
    if steps != [] && Run(deadline, steps).saved.final == Some(how) {
      var n := |steps| - 1;
      EpisodeIsBounded(deadline, steps[..n]);
      EndStep(Run(deadline, steps[..n]), steps[n], how);
      if Run(deadline, steps[..n]).saved.final == Some(how) {
        EndedExactly(deadline, steps[..n], how);
        var k: nat :| k < n && EndedAt(deadline, steps[..n], k, how);
        EndedStill(deadline, steps, k, how);
      } else {
        assert EndedAt(deadline, steps, n, how);
      }
    }
  }

  lemma EndedStill(deadline: Time, steps: seq<Step>, k: nat, how: FinalOutcome)
    requires steps != [] && k < |steps| - 1 && EndedAt(deadline, steps[..|steps| - 1], k, how) && Run(deadline, steps).saved.final == Some(how)
    ensures EndedAt(deadline, steps, k, how)
  {
    hide After, EndsBy;
    var before := steps[..|steps| - 1];
    assert before[..k] == steps[..k] && steps[..|steps|] == steps;
    forall j | k < j <= |steps| ensures Run(deadline, steps[..j]).saved.final == Some(how) {
      if j < |steps| { assert before[..j] == steps[..j]; }
    }
  }

  // ----- single steps -----

  /** How a proposal is judged, and where the supervisor goes on: only a rejected one may be followed by another. */
  lemma ProposalIsJudged(s: Supervision, answer: ProposalAnswer, now: Time)
    requires SupervisionOk(s) && s.at == LocalLoop && CanPropose(s.live, now)
    ensures var s' := After(s, Propose(answer, now));
            var n := |s.live.proposals|;
            var repeated := answer.Proposed? && exists p :: p in s.live.proposals && p.fingerprint == Some(answer.fingerprint);
            && s'.saved == s'.live && |s'.saved.proposals| == n + 1 && s'.saved.proposals[..n] == s.live.proposals
            && s'.saved.proposals[n].fingerprint == (if answer.Proposed? then Some(answer.fingerprint) else None)
            && s'.saved.proposals[n].outcome ==
                 (if answer.NothingProposed? then NO_PROPOSAL else if repeated then DUPLICATE else if !answer.inScope then PREFILTER_REJECTED
                  else if answer.verified then VERIFIED else REJECTED)
            && s'.at == (if s'.saved.proposals[n].outcome == VERIFIED then Idle
                         else if s'.saved.proposals[n].outcome == REJECTED then LocalLoop else AskExpert)
  {
  }

  /** What a review leaves when it is recorded: its artifact, and the provider's failure if it gave no guidance for one. */
  lemma ReviewIsRecorded(s: Supervision)
    requires SupervisionOk(s) && s.at.Recording?
    ensures var s' := After(s, Record);
            && s'.saved == s'.live
            && s'.saved == s.live.(artifact := Some(s.at.artifact), phase := ARTIFACT_RECORDED, failure := s'.saved.failure)
            && s'.saved.failure == (match s.at.review
                                    case Guidance => None
                                    case NoGuidance(failure) => if failure.Some? then Some(Provider(failure.value)) else None)
            && s'.at == Reviewed(s.at.review == Guidance) && s'.submissions == s.submissions
  {
  }

  /** After a crash the saved episode is taken up, marked as interrupted if it was being supervised. */
  lemma RestartTakesUp(s: Supervision, supervising: bool)
    requires s.at == Down
    ensures var s' := After(s, Restart(supervising));
            && s'.at == Idle && s'.live == s'.saved && s'.submissions == s.submissions
            && s'.saved == s.saved.(interrupted := s.saved.interrupted || supervising)
  {
  }

  /** An operator may resume once, and only after a recoverable provider failure; the review starts over, and is marked interrupted. */
  lemma ResumeStartsOver(s: Supervision)
    requires SupervisionOk(s) && s.at == Idle
    ensures var s', e := After(s, OperatorResume), s.live;
            if e.resumes == 0 && (exists code :: e.failure == Some(Provider(Recoverable(code)))) then
              && s'.saved == s'.live && s'.at == Idle && s'.submissions == s.submissions
              && s'.saved == Episode(e.proposals, e.expert, None, NoPhase, None, None, 1, true, e.deadline)
            else s' == s
  {
    if e :| s.live.failure == Some(Provider(Recoverable(e))) {}
  }

  /** A proposal is asked for exactly in the local loop, before the expert, up to three, and until the deadline; then the loop is left. */
  lemma ProposesExactly(s: Supervision, answer: ProposalAnswer, now: Time)
    requires s.at == LocalLoop
    ensures var may := s.live.expert == None && |s.live.proposals| < 3 && now < s.live.deadline;
            && (After(s, Propose(answer, now)) != s <==> may)
            && After(s, LeaveLoop(now)) == (if may then s else s.(at := AskExpert))
  {
    if CanPropose(s.live, now) { assert |WithProposal(s.live, answer).proposals| == |s.live.proposals| + 1; }
  }

  /** The expert's answer is saved before anything else is asked, and so is that the builder has started. */
  lemma AnswersAreSaved(s: Supervision, verified: bool)
    requires SupervisionOk(s)
    ensures s.at == AskExpert && s.live.expert == None ==>
              var s' := After(s, Expert(verified));
              && s'.saved == s'.live && s'.saved.expert == Some(if verified then ExpertVerified else ExpertFailed)
              && s'.at == (if verified then Idle else AskReviewer)
    ensures s.at == Reviewed(true) ==>
              var s' := After(s, Judge); s'.at == Building && s'.saved == s'.live && s'.saved == s.live.(phase := BUILDER_STARTED)
    ensures s.at == Building ==>
              var s' := After(s, Builder(verified));
              s'.at == Idle && s'.saved == s'.live && s'.saved.phase == (if verified then BUILDER_VERIFIED else BUILDER_FAILED)
  {
  }

  /** The expert has answered, on disk and in memory. */
  predicate ExpertAnswered(s: Supervision) { s.saved.expert.Some? && s.live.expert == s.saved.expert && s.live.proposals == s.saved.proposals }

  /** Once the expert has answered it is never asked again, and no proposal is made any more, through any crashes and resumes. */
  lemma {:induction false} ExpertIsAskedOnce(s: Supervision, steps: seq<Step>)
    requires SupervisionOk(s) && ExpertAnswered(s)
    ensures var s' := AfterAll(s, steps);
            SupervisionOk(s') && ExpertAnswered(s') && s'.saved.expert == s.saved.expert && s'.saved.proposals == s.saved.proposals
  {
    if steps != [] {
      var before := AfterAll(s, steps[..|steps| - 1]);
      ExpertIsAskedOnce(s, steps[..|steps| - 1]);
      StepKeepsSupervision(before, steps[|steps| - 1]);
      ExpertStep(before, steps[|steps| - 1]);
    }
  }

  lemma ExpertStep(s: Supervision, step: Step)
    requires SupervisionOk(s) && ExpertAnswered(s)
    ensures ExpertAnswered(After(s, step)) && After(s, step).saved.expert == s.saved.expert && After(s, step).saved.proposals == s.saved.proposals
  {
  }

  /** An open episode is taken up, and no longer marked as interrupted. */
  lemma EnterTakesUp(s: Supervision)
    ensures var s' := After(s, Enter);
            if s.at == Idle && s.live.final == None then
              s'.at == LocalLoop && s'.saved == s'.live && s'.saved == s.live.(interrupted := false) && s'.submissions == s.submissions
            else s' == s
  {
  }
}
