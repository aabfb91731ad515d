/** The shape the task poller (`task-paragraph.js`) and the payment poller
    (`task-payment.js`) share: a probe every interval, a counter that rises by one per
    probe, terminal answers that stop at once, and every other answer retried until the
    counter reaches its maximum. Each timer firing is one counted step. */
module Poller {

  /** Why a probe did not end the polling. */
  datatype Reason =
    | NotReady      // the query worked and the status is not terminal
    | QueryFailed   // the query came back with `success: false`
    | QueryError    // reading the answer threw (a success without data)

  /** How one answer is read. */
  datatype Step<+E> = Stop(outcome: E) | Continue(reason: Reason)

  /** How the polling ended: on a terminal answer, or out of probes. */
  datatype Exit<+E> = Finished(outcome: E) | Exhausted(last: Reason)

  /** The exit and the number of probes issued. */
  datatype Trace<+E> = Trace(exit: Exit<E>, probes: nat)

  /** Milliseconds between the scheduling of consecutive probes; the first probe is also
      scheduled one interval after the start. */
  const PollInterval: nat := 5000

  /** Probe `k` (counting from 0) is issued `k + 1` intervals after the start. */
  predicate OnSchedule(issuedAt: seq<nat>)
  {
    forall k | 0 <= k < |issuedAt| :: issuedAt[k] == (k + 1) * PollInterval
  }

  lemma OnScheduleExtend(issuedAt: seq<nat>, at: nat)
    requires OnSchedule(issuedAt) && at == (|issuedAt| + 1) * PollInterval
    ensures OnSchedule(issuedAt + [at])
  {
  }

  /** The polling from probe `done + 1` on; the `k`-th probe (counting from 0) gets the
      answer `answer(k)`, read by `classify`. */
  function Poll<A, E>(answer: nat -> A, classify: A -> Step<E>, max: nat, done: nat): (t: Trace<E>)
    requires done < max
    // at least one more probe, never more than the maximum in all
    ensures done < t.probes <= max
    // every probe before the last one was retried
    ensures forall k | done <= k < t.probes - 1 :: classify(answer(k)).Continue?
    // a terminal answer ends the polling at the probe that got it
    ensures t.exit.Finished? ==> classify(answer(t.probes - 1)) == Stop(t.exit.outcome)
    // running out happens only at the maximum, and reports the last retry reason
    ensures t.exit.Exhausted? ==> t.probes == max && classify(answer(max - 1)) == Continue(t.exit.last)
    decreases max - done
  {
    match classify(answer(done))
    case Stop(e) => Trace(Finished(e), done + 1)
    case Continue(reason) =>
      if done + 1 < max then Poll(answer, classify, max, done + 1) else Trace(Exhausted(reason), done + 1)
  }

  /** One probe of the polling: a terminal answer finishes it, a retry at the maximum
      exhausts it, and any other retry leaves the rest of the polling to the next probe. */
  lemma PollStep<A, E>(answer: nat -> A, classify: A -> Step<E>, max: nat, done: nat)
    requires done < max
    ensures classify(answer(done)).Stop? ==>
      Poll(answer, classify, max, done) == Trace(Finished(classify(answer(done)).outcome), done + 1)
    ensures classify(answer(done)).Continue? && done + 1 < max ==>
      Poll(answer, classify, max, done) == Poll(answer, classify, max, done + 1)
    ensures classify(answer(done)).Continue? && done + 1 == max ==>
      Poll(answer, classify, max, done) == Trace(Exhausted(classify(answer(done)).reason), max)
  {
  }

  /** The end a probe gives the polling when it is the last one: its terminal outcome,
      or running out with its retry reason. */
  function EndAt<E>(s: Step<E>, probes: nat): Trace<E>
  {
    Trace(if s.Stop? then Finished(s.outcome) else Exhausted(s.reason), probes)
  }

  /** `PollStep` in the form a polling loop uses: with `whole` the polling from the
      start, probe `done + 1` either ends it, as `EndAt` says, or hands it on. */
  lemma Advance<A, E>(answer: nat -> A, classify: A -> Step<E>, max: nat, done: nat, whole: Trace<E>)
    requires done < max && Poll(answer, classify, max, done) == whole
    ensures classify(answer(done)).Stop? || done + 1 == max ==> whole == EndAt(classify(answer(done)), done + 1)
    ensures classify(answer(done)).Continue? && done + 1 < max ==> Poll(answer, classify, max, done + 1) == whole
  {
    PollStep(answer, classify, max, done);
  }

  /** The first terminal answer decides: if probe `k` is the first to get one, the
      polling finishes there with its outcome. */
  lemma {:induction false} FirstStopDecides<A, E>(answer: nat -> A, classify: A -> Step<E>, max: nat, done: nat, k: nat)
    requires done <= k < max
    requires classify(answer(k)).Stop?
    requires forall j | done <= j < k :: classify(answer(j)).Continue?
    ensures Poll(answer, classify, max, done) == Trace(Finished(classify(answer(k)).outcome), k + 1)
    decreases k - done
  {
    if done < k {
      FirstStopDecides(answer, classify, max, done + 1, k);
    }
  }

  /** Without a terminal answer the polling always runs to the maximum. */
  lemma {:induction false} NoStopRunsOut<A, E>(answer: nat -> A, classify: A -> Step<E>, max: nat, done: nat)
    requires done < max
    requires forall j | done <= j < max :: classify(answer(j)).Continue?
    ensures Poll(answer, classify, max, done) == Trace(Exhausted(classify(answer(max - 1)).reason), max)
    decreases max - done
  {
    if done + 1 < max {
      NoStopRunsOut(answer, classify, max, done + 1);
    }
  }
}
