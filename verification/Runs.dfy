/** The invariant over whole runs. */
module Runs {
  import opened Text
  import opened Schema
  import opened Protocol
  import opened Effects
  import opened Invariant
  import opened Steps

  /** Who acts in a step and what it does to the world. */
  function Actor(step: Step): nat {
    match step
    case Start(id, _) => id
    case Next(id, _) => id
    case Crash(id) => id
    case _ => 0
  }

  ghost function StepEffect(cfg: Config, s: State, step: Step): Effect {
    match step
    case Tick(delta) => Pass(delta)
    case Join(u, o, role) =>
      if Execute(cfg.sql, s.w.db, InsertMember(u, o, role)).1.Rows? then AddMember(u, o, role) else Idle
    case Next(id, ch) => if id in s.reqs then EffectOf(cfg, s.w, id, s.reqs[id], ch) else Idle
    case _ => Idle
  }

  lemma RequestIsEffect(cfg: Config, s: State, id: nat, ch: Choice)
    requires StateOk(cfg, s) && Apply(cfg, s, Next(id, ch)).Some?
    ensures id in s.calls
    ensures StepIs(cfg, s.w, id, Advance(cfg, s.w, id, s.reqs[id], ch),
                   EffectOf(cfg, s.w, id, s.reqs[id], ch), s.calls[id])
  {
    assert PhaseOk(cfg, s.w, id, s.reqs[id]);
    EveryStep(cfg, s.w, id, s.reqs[id], ch, s.calls[id]);
  }

  lemma OutsideIsEffect(cfg: Config, s: State, step: Step)
    requires !step.Next? && Apply(cfg, s, step).Some?
    ensures var e, w' := StepEffect(cfg, s, step), Apply(cfg, s, step).value.w;
      Permitted(cfg, s.w, Actor(step), e) && w' == Perform(s.w, Actor(step), e) && (e.Idle? || e.Pass? || e.AddMember?)
  {
    if !step.Tick? && !step.Join? { IdleIsEffect(s.w, Actor(step)); }
  }

  /** The step is this effect, and its commit, its signature and its next phase suit the call that acts. */
  ghost predicate Suits(cfg: Config, s: State, step: Step, e: Effect)
    requires Apply(cfg, s, step).Some?
  {
    var id, s' := Actor(step), Apply(cfg, s, step).value;
    && s'.w == Perform(s.w, id, e)
    && (EventOf(s.w, e).Some? ==> id in s.calls && MadeBy(s.calls[id], EventOf(s.w, e).value))
    && (e.Issue? ==> e.token.req == id && id in s.calls && SignsIn(s.calls[id]))
    && (e.Revoke? ==> step.Next? && s'.reqs[step.id].Done?)
    && (step.Next? ==> id in s.calls && Fits(s.calls[id], s'.reqs[id]))
  }

  /** A possible step is a permitted effect, made by a request whose call suits it. */
  lemma ApplyIsEffect(cfg: Config, s: State, step: Step)
    requires StateOk(cfg, s) && Apply(cfg, s, step).Some?
    ensures Permitted(cfg, s.w, Actor(step), StepEffect(cfg, s, step)) && Suits(cfg, s, step, StepEffect(cfg, s, step))
  {
    if step.Next? {
      RequestIsEffect(cfg, s, step.id, step.choice);
    } else {
      OutsideIsEffect(cfg, s, step);
    }
  }

  /** Only the acting request can have revoked, and then it is done. */
  lemma OthersNeverRevoked(w: World, actor: nat, e: Effect, id: nat)
    requires NeverRevoked(w.log, id) && (id != actor || !e.Revoke?)
    ensures NeverRevoked(LogAfter(w, actor, e), id)
  {
  }

  lemma HistoryFits(w: World, id: nat, e: Effect, calls: map<nat, Call>, calls': map<nat, Call>)
    requires CommitsFit(w.log, calls) && SignersFit(w.signed, calls)
    requires forall k :: k in calls ==> k in calls' && calls'[k] == calls[k]
    requires EventOf(w, e).Some? ==> id in calls && MadeBy(calls[id], EventOf(w, e).value)
    requires e.Issue? ==> e.token.req == id && id in calls && SignsIn(calls[id])
    ensures CommitsFit(LogAfter(w, id, e), calls') && SignersFit(Perform(w, id, e).signed, calls')
  {
  }

  lemma BeginFits(cfg: Config, call: Call)
    ensures Fits(call, Begin(cfg, call))
  {
  }

  lemma FitsKept(cfg: Config, s: State, step: Step)
    requires FitsOk(s.calls, s.reqs) && Apply(cfg, s, step).Some?
    requires step.Next? ==> Fits(s.calls[step.id], Apply(cfg, s, step).value.reqs[step.id])
    ensures var s' := Apply(cfg, s, step).value; FitsOk(s'.calls, s'.reqs)
  {
    if step.Start? { BeginFits(cfg, step.call); }
  }

  lemma CallsKept(cfg: Config, s: State, step: Step, e: Effect)
    requires CallsOk(s) && Apply(cfg, s, step).Some? && Suits(cfg, s, step, e)
    ensures CallsOk(Apply(cfg, s, step).value)
  {
    FitsKept(cfg, s, step);
    HistoryFits(s.w, Actor(step), e, s.calls, Apply(cfg, s, step).value.calls);
  }

  lemma PhaseOfOther(cfg: Config, w: World, w': World, actor: nat, e: Effect, id: nat, ph: Phase)
    requires PhaseOk(cfg, w, id, ph) && Extends(w, w') && w' == Perform(w, actor, e)
    requires ph.Done? || id != actor || !e.Revoke?
    ensures PhaseOk(cfg, w', id, ph)
  {
    if !ph.Done? { OthersNeverRevoked(w, actor, e, id); }
    PhaseKept(cfg, w, w', id, ph);
  }

  lemma PhaseOfActor(cfg: Config, w: World, id: nat, ph: Phase, ch: Choice, e: Effect)
    requires VersionsOk(w) && KeysOk(cfg, w) && !ph.Done? && PhaseOk(cfg, w, id, ph) && Allowed(cfg, w, ph, ch)
    requires var (w', ph') := Advance(cfg, w, id, ph, ch);
      VersionsOk(w') && w' == Perform(w, id, e) && (e.Revoke? ==> ph'.Done?)
    ensures var (w', ph') := Advance(cfg, w, id, ph, ch); PhaseOk(cfg, w', id, ph')
  {
    if !Advance(cfg, w, id, ph, ch).1.Done? { OthersNeverRevoked(w, id, e, id); }
    NextPhaseOk(cfg, w, id, ph, ch);
  }

  lemma PhaseOfNew(cfg: Config, s: State, id: nat, call: Call)
    requires CallsOk(s) && id !in s.reqs
    ensures PhaseOk(cfg, s.w, id, Begin(cfg, call))
  {
    assert forall i :: 0 <= i < |s.w.log| ==> s.w.log[i].req in s.calls;
  }

  lemma PhaseAfter(cfg: Config, s: State, step: Step, e: Effect, id: nat)
    requires VersionsOk(s.w) && KeysOk(cfg, s.w) && CallsOk(s) && Apply(cfg, s, step).Some?
    requires var s' := Apply(cfg, s, step).value;
      && VersionsOk(s'.w) && Extends(s.w, s'.w) && s'.w == Perform(s.w, Actor(step), e)
      && id in s'.reqs && (id in s.reqs ==> PhaseOk(cfg, s.w, id, s.reqs[id]))
      && (e.Revoke? ==> step.Next? && s'.reqs[step.id].Done?)
    ensures PhaseOk(cfg, Apply(cfg, s, step).value.w, id, Apply(cfg, s, step).value.reqs[id])
  {
    var s' := Apply(cfg, s, step).value;
    if step.Next? && step.id == id {
      PhaseOfActor(cfg, s.w, id, s.reqs[id], step.choice, e);
    } else if step.Start? && step.id == id {
      PhaseOfNew(cfg, s, id, step.call);
    } else if !(step.Crash? && step.id == id) {
      PhaseOfOther(cfg, s.w, s'.w, Actor(step), e, id, s.reqs[id]);
    }
  }

  lemma PhasesKept(cfg: Config, s: State, step: Step, e: Effect)
    requires VersionsOk(s.w) && KeysOk(cfg, s.w) && CallsOk(s) && PhasesOk(cfg, s) && Apply(cfg, s, step).Some?
    requires var s' := Apply(cfg, s, step).value;
      VersionsOk(s'.w) && Extends(s.w, s'.w) && Suits(cfg, s, step, e)
    ensures PhasesOk(cfg, Apply(cfg, s, step).value)
  {
    forall id | id in Apply(cfg, s, step).value.reqs
      ensures PhaseOk(cfg, Apply(cfg, s, step).value.w, id, Apply(cfg, s, step).value.reqs[id])
    {
      if id in s.reqs { assert PhaseOk(cfg, s.w, id, s.reqs[id]); }
      PhaseAfter(cfg, s, step, e, id);
    }
  }

  /** The invariant is inductive, and a step only adds to the past. */
  lemma StateKept(cfg: Config, s: State, step: Step)
    requires StateOk(cfg, s) && Apply(cfg, s, step).Some?
    ensures StateOk(cfg, Apply(cfg, s, step).value) && Extends(s.w, Apply(cfg, s, step).value.w)
  {
    var e := StepEffect(cfg, s, step);
    ApplyIsEffect(cfg, s, step);
    WorldKept(cfg, s.w, Actor(step), e);
    CallsKept(cfg, s, step, e);
    PhasesKept(cfg, s, step, e);
  }

  lemma ExtendsTransitive(a: World, b: World, c: World)
    requires Extends(a, b) && Extends(b, c)
    ensures Extends(a, c)
  {
  }

  lemma {:induction false} ExecKept(cfg: Config, s: State, steps: seq<Step>)
    requires StateOk(cfg, s) && Exec(cfg, s, steps).Some?
    ensures StateOk(cfg, Exec(cfg, s, steps).value)
    decreases |steps|
  {
    if steps != [] {
      StateKept(cfg, s, steps[0]);
      ExecKept(cfg, Apply(cfg, s, steps[0]).value, steps[1..]);
    }
  }

  lemma {:induction false} ExecExtends(cfg: Config, s: State, steps: seq<Step>)
    requires StateOk(cfg, s) && Exec(cfg, s, steps).Some?
    ensures Extends(s.w, Exec(cfg, s, steps).value.w)
    decreases |steps|
  {
    if steps == [] {
      ExtendsItself(s.w);
    } else {
      StateKept(cfg, s, steps[0]);
      var m := Apply(cfg, s, steps[0]).value;
      ExecExtends(cfg, m, steps[1..]);
      ExtendsTransitive(s.w, m.w, Exec(cfg, s, steps).value.w);
    }
  }

  lemma ExtendsItself(w: World)
    ensures Extends(w, w)
  {
  }

  lemma InitOk(cfg: Config)
    ensures StateOk(cfg, INIT)
  {
    forall u: Uuid ensures |LiveRows(INIT.w.db.tokens, u)| == OpenSessions(INIT.w.log, u) {
      assert LiveRows(INIT.w.db.tokens, u) == {};
    }
  }

  /** Every reachable state satisfies the invariant. */
  lemma ReachableOk(cfg: Config, s: State)
    requires Reachable(cfg, s)
    ensures StateOk(cfg, s)
  {
    var steps :| Exec(cfg, INIT, steps) == Some(s);
    InitOk(cfg);
    ExecKept(cfg, INIT, steps);
  }

  /** Going on from a reachable state. */
  lemma RunGoesOn(cfg: Config, s: State, steps: seq<Step>)
    requires Reachable(cfg, s) && Exec(cfg, s, steps).Some?
    ensures Reachable(cfg, Exec(cfg, s, steps).value) && Extends(s.w, Exec(cfg, s, steps).value.w)
  {
    var before :| Exec(cfg, INIT, before) == Some(s);
    ExecConcat(cfg, INIT, before, steps);
    ReachableOk(cfg, s);
    ExecExtends(cfg, s, steps);
  }

  lemma StepGoesOn(cfg: Config, s: State, step: Step)
    requires Reachable(cfg, s) && Apply(cfg, s, step).Some?
    ensures Reachable(cfg, Apply(cfg, s, step).value) && Extends(s.w, Apply(cfg, s, step).value.w)
  {
    assert Exec(cfg, Apply(cfg, s, step).value, [step][1..]) == Apply(cfg, s, step);
    RunGoesOn(cfg, s, [step]);
  }

  // The parts of the invariant, one at a time.

  lemma ReachableTables(cfg: Config, s: State)
    requires Reachable(cfg, s)
    ensures TablesOk(cfg.sql, s.w.db) && HomesOk(s.w)
  {
    ReachableOk(cfg, s);
  }

  lemma ReachableVersions(cfg: Config, s: State)
    requires Reachable(cfg, s)
    ensures VersionsOk(s.w) && HashesOk(s.w) && SessionsOk(s.w)
  {
    ReachableOk(cfg, s);
  }

  lemma ReachableTokens(cfg: Config, s: State)
    requires Reachable(cfg, s)
    ensures VersionsOk(s.w) && TokensSignedOk(cfg, s.w) && SignersFit(s.w.signed, s.calls)
  {
    ReachableOk(cfg, s);
  }

  lemma ReachableCommits(cfg: Config, s: State)
    requires Reachable(cfg, s)
    ensures SpendsOk(s.w) && RevokersOk(s.w) && SignUpsOk(s.w) && CommitsFit(s.w.log, s.calls)
  {
    ReachableOk(cfg, s);
  }

  lemma ReachableKeys(cfg: Config, s: State)
    requires Reachable(cfg, s)
    ensures KeysOk(cfg, s.w)
  {
    ReachableOk(cfg, s);
  }

  lemma ReachableLineage(cfg: Config, s: State)
    requires Reachable(cfg, s)
    ensures LineageOk(s.w)
  {
    ReachableOk(cfg, s);
  }

  lemma ReachablePhase(cfg: Config, s: State, id: nat)
    requires Reachable(cfg, s) && id in s.reqs
    ensures id in s.calls && PhaseOk(cfg, s.w, id, s.reqs[id]) && Fits(s.calls[id], s.reqs[id])
  {
    ReachableOk(cfg, s);
  }
}
