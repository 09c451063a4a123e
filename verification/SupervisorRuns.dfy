/** What the launcher of module Supervisor achieves when nothing goes wrong around
    it: it gives every failing worker its restarts and reports a worker's success. */
module SupervisorRuns {
  import opened Text
  import opened Plan
  import opened KernelState
  import opened Supervisor
  import J = Journal
  import Safety = JournalSafety
  import Runs = JournalRuns
  import R = Recovery
  import B = Broker

  /** A worker that starts, is served, and exits by itself. */
  predicate Plays(p: DestinationPlan, s: Session, round: Round) {
    && !round.cancelledBefore && !round.cancelledAfter && round.socketpair && round.drained && round.inTime
    && round.binding == Some(s.binding) && B.Orderly(p, round.packets, 0)
    && round.chances.factory.ReturnsUnstarted? && round.chances.pipe && round.chances.start && round.chances.pidfd
    && round.chances.brokerPinned
    && (round.chances.ending.ExitBeforeReady? || round.chances.ending.ReadyThenExit?)
  }

  predicate Succeeds(round: Round) {
    round.chances.ending.ReadyThenExit? && round.chances.exitCode == 0
  }

  /** Whatever the workers do with the journal, the lines of other writers are
      disjoint from the plan when they have gone. */
  ghost predicate Calm(at: Place, w: J.Earth) {
    R.CalmLines(at.site, w.kernel.lines) && R.CalmTape(at.site, at.tape, 0)
  }

  /** The workers of attempts `number` to `last` play along; the last succeeds and
      the others do not. */
  ghost predicate Tries(at: Place, s: Session, number: nat, last: nat, w: J.Earth)
    decreases last - number
  {
    var worked := Worked(at, w, s.rounds(number).work);
    && number <= last && Plays(at.site.plan, s, s.rounds(number)) && Calm(at, worked)
    && (Succeeds(s.rounds(number)) <==> number == last)
    && (number < last ==> Tries(at, s, number + 1, last, CleanUp(at, worked, true).0))
  }

  lemma CleanUpWorks(at: Place, w: J.Earth)
    requires Sound(at, w) && Calm(at, w)
    ensures CleanUp(at, w, true).1 && Sound(at, CleanUp(at, w, true).0)
  {
    hide Safety.Safe, R.CalmLines, Runs.Cleanup;
    R.CleanupCompletes(at.site, at.tape, w);
  }

  lemma RoundPlays(at: Place, s: Session, number: nat, w: J.Earth)
    requires number <= s.maxRestarts && Sound(at, w) && Plays(at.site.plan, s, s.rounds(number))
    requires Calm(at, Worked(at, w, s.rounds(number).work))
    ensures var t := OneRound(at, s, number, w);
      && t.w == CleanUp(at, Worked(at, w, s.rounds(number).work), true).0 && Sound(at, t.w)
      && (t.again <==> !Succeeds(s.rounds(number)) && number < s.maxRestarts)
      && t.r == (if Succeeds(s.rounds(number)) then Result(Completed, true, 1)
                 else if number == s.maxRestarts then Result(Exhausted, true, 1) else Result(Blocked, true, 1))
  {
    hide Worked, CleanUp, Sound, Calm, B.RunLoop, B.Orderly, AttemptFacts;
    var round := s.rounds(number);
    var worked := Worked(at, w, round.work);
    WorkedSound(at, w, round.work);
    CleanUpWorks(at, worked);
    B.ServedAll(at.site.plan, round.packets);
  }

  lemma {:induction false} RoundsPlay(at: Place, s: Session, number: nat, last: nat, w: J.Earth)
    requires number <= last <= s.maxRestarts && Sound(at, w) && Tries(at, s, number, last, w)
    ensures Rounds(at, s, number, w).0 == Result(Completed, true, last - number + 1)
    decreases last - number
  {
    hide OneRound, Worked, CleanUp, Sound, Calm, Plays, Succeeds;
    RoundPlays(at, s, number, w);
    if number < last { RoundsPlay(at, s, number + 1, last, OneRound(at, s, number, w).w); }
  }

  /** An idle journal, no marker, and workers of which the first to succeed is
      within the restart budget: the run completes with exactly that attempt. */
  lemma SessionCompletes(at: Place, s: Session, last: nat, w: J.Earth)
    requires Sound(at, w) && Idling(at, w) && Calm(at, w)
    requires s.admitted && s.markerDurable && s.inTime && s.clearing.Cleared? && last <= s.maxRestarts
    requires Tries(at, s, 0, last, CleanUp(at, w, true).0)
    ensures RunSession(at, s, false, w).0 == Result(Completed, true, last + 1)
  {
    hide Rounds, CleanUp, Sound, Calm, Idling, Tries;
    CleanUpWorks(at, w);
    RoundsPlay(at, s, 0, last, CleanUp(at, w, true).0);
  }
}
