/**
 * What one step of the Capacitor SDK can touch.
 *
 * A step moves one operation, which keeps its kind and the attempt it started
 * in; every other operation stays as it is. Of the fields, the pending revokes
 * are written by the steps that record a grant and by a pass's write-back only,
 * and the attempt counter moves only when a sign-in starts or a sign-out has
 * read the session. And three program points are entered by one kind of step
 * only: a half-done commit, a sign-out that has asked for its revoke, and the
 * loop of a retry pass.
 *
 * The invariants that are about one field or one program point are proved over
 * this relation and not over the steps themselves.
 */
module CapacitorFootprint {
  import opened CapacitorProtocol
  import opened CapacitorSteps

  /** Steps of an operation that write the pending revokes. */
  predicate Rewrites(step: Step) {
    step.Record? || step.OutRecord? || step.IntentRecord? || step.PassWrite?
  }

  /** Steps that may drop a token. */
  predicate Drops(step: Step) {
    Rewrites(step) || step.IntentRead? || step.PassEntry?
  }

  ghost predicate Footprint(s: State, s': State, step: Step)
    requires step != Crash && !step.ServerKills?
  {
    var o := step.op;
    && o in s'.ops && s'.ops == s.ops[o := s'.ops[o]]
    && (o in s.ops ==>
          !s.ops[o].pc.Done? && s'.ops[o].attempt == s.ops[o].attempt && s'.ops[o].kind == s.ops[o].kind)
    && (o !in s.ops && s'.ops[o].kind == Pass ==> step.StartPass?)
    && (!Rewrites(step) ==> s'.pending == s.pending)
    && (!Drops(step) ==> s'.dropped == s.dropped)
    && (!step.StartSignIn? && !step.OutRead? ==> s'.attempt == s.attempt)
    && (s'.ops[o].pc.CommitWrote? ==> step.CommitWrite? && s'.ops[o].attempt == s'.attempt)
    && ((s'.ops[o].pc.OutRecording? || s'.ops[o].pc.OutWiping?) ==> OutStep(step))
    && (s'.ops[o].pc.Passing? ==> step.PassRead? || step.PassEntry?)
  }

  lemma SignInFootprint(s: State, step: Step)
    requires Enabled(s, step) && (SignInStep(step) || ExchangeStep(step))
    ensures Footprint(s, Apply(s, step), step)
  {
  }

  lemma CommitFootprint(s: State, step: Step)
    requires Enabled(s, step) && CommitStep(step)
    ensures Footprint(s, Apply(s, step), step)
  {
  }

  lemma RenewalFootprint(s: State, step: Step)
    requires Enabled(s, step) && RenewalStep(step)
    ensures Footprint(s, Apply(s, step), step)
  {
  }

  lemma WipeFootprint(s: State, step: Step)
    requires Enabled(s, step) && (step.Wipe? || step.WipeOwn?)
    ensures Footprint(s, Apply(s, step), step)
  {
  }

  lemma AbandonFootprint(s: State, step: Step)
    requires Enabled(s, step) && step.Abandon?
    ensures Footprint(s, Apply(s, step), step)
  {
  }

  lemma RecordFootprint(s: State, step: Step)
    requires Enabled(s, step) && step.Record?
    ensures Footprint(s, Apply(s, step), step)
  {
  }

  lemma OutFootprint(s: State, step: Step)
    requires Enabled(s, step) && OutStep(step)
    ensures Footprint(s, Apply(s, step), step)
  {
  }

  lemma IntentFootprint(s: State, step: Step)
    requires Enabled(s, step) && IntentStep(step)
    ensures Footprint(s, Apply(s, step), step)
  {
  }

  lemma PassFootprint(s: State, step: Step)
    requires Enabled(s, step) && PassStep(step)
    ensures Footprint(s, Apply(s, step), step)
  {
  }

  lemma EndFootprint(s: State, step: Step)
    requires Enabled(s, step) && (step.StartSignIn? || step.SignInEnds? || step.CommitRefused?)
    ensures Footprint(s, Apply(s, step), step)
  {
  }

  lemma StepFootprint(s: State, step: Step)
    requires Enabled(s, step) && step != Crash && !step.ServerKills?
    ensures Footprint(s, Apply(s, step), step)
  {
    if SignInStep(step) || ExchangeStep(step) {
      SignInFootprint(s, step);
    } else if CommitStep(step) {
      CommitFootprint(s, step);
    } else if RenewalStep(step) {
      RenewalFootprint(s, step);
    } else if step.Wipe? || step.WipeOwn? {
      WipeFootprint(s, step);
    } else if step.Abandon? {
      AbandonFootprint(s, step);
    } else if step.Record? {
      RecordFootprint(s, step);
    } else if OutStep(step) {
      OutFootprint(s, step);
    } else if IntentStep(step) {
      IntentFootprint(s, step);
    } else if PassStep(step) {
      PassFootprint(s, step);
    } else {
      EndFootprint(s, step);
    }
  }
}
