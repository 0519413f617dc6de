/** What each operation answers, for every call, and the same of the calls recorded by the service object. */
module Answers {
  import opened Text
  import opened Security
  import opened Transactions
  import opened Protocol
  import opened Calls
  import opened Operations
  import opened PasswordReset
  import opened Service

  ghost predicate AnswersCall(cfg: Config, s: State, steps: seq<Step>, id: nat, call: Call)
    requires Ends(cfg, s, steps, id)
  {
    match call
    case Register(email, password, fullName) => RegisterAnswers(cfg, s, steps, id, email, password, fullName)
    case Login(email, password, sel) => LoginAnswers(cfg, s, steps, id, email, password, sel)
    case Refresh(secret) => RefreshAnswers(cfg, s, steps, id, secret)
    case Logout(secret) => LogoutAnswers(cfg, s, steps, id, secret)
    case ForgotPassword(email) => ForgotAnswers(cfg, s, steps, id, email)
    case ResetPassword(token, password) => ResetAnswers(cfg, s, steps, id, token, password)
    case ChangePassword(userID, current, next) => ChangeAnswers(cfg, s, steps, id, userID, current, next)
  }

  lemma EveryCall(cfg: Config, s: State, id: nat, call: Call, steps: seq<Step>)
    requires Served(cfg, s, id, call, steps)
    ensures AnswersCall(cfg, Begun(cfg, s, id, call), steps, id, call)
  {
    match call
    case Register(email, password, fullName) => RegisterCall(cfg, s, id, email, password, fullName, steps);
    case Login(email, password, sel) => LoginCall(cfg, s, id, email, password, sel, steps);
    case Refresh(secret) => RefreshCall(cfg, s, id, secret, steps);
    case Logout(secret) => LogoutCall(cfg, s, id, secret, steps);
    case ForgotPassword(email) => ForgotPasswordCall(cfg, s, id, email, steps);
    case ResetPassword(token, password) => ResetPasswordCall(cfg, s, id, token, password, steps);
    case ChangePassword(userID, current, next) => ChangePasswordCall(cfg, s, id, userID, current, next, steps);
  }

  /** A call made of the service object that was lucky and is over: the state it arrived in, and its run. */
  lemma RecordedCall(cfg: Config, hashOf: string -> Option<string>, trace: seq<Step>, st: State,
          tickets: map<nat, Ticket>, id: nat)
    returns (s: State, steps: seq<Step>)
    requires RunsTo(cfg, trace, st) && HonestRun(trace, tickets, hashOf)
    requires id in tickets && var t := tickets[id];
      && EnteredBy(trace, id, t) && id in st.reqs && st.reqs[id].Done?
      && t.luck.failAt.None? && t.luck.faults == NO_FAULTS && !Refused(hashOf, t.call)
    ensures var t := tickets[id];
      && trace == t.before + [Start(id, t.call)] + steps
      && RunsTo(cfg, t.before, s) && Served(cfg, s, id, t.call, steps)
      && Exec(cfg, Begun(cfg, s, id, t.call), steps) == Some(st)
  {
    var t := tickets[id];
    var n := |t.before| + 1;
    steps := trace[n..];
    assert trace == t.before + ([Start(id, t.call)] + steps) == t.before + [Start(id, t.call)] + steps;
    RunsToReachable(cfg, trace, st);
    ExecConcat(cfg, INIT, t.before, [Start(id, t.call)] + steps);
    s := Exec(cfg, INIT, t.before).value;
    RunsToReachable(cfg, t.before, s);
    StartsThere(cfg, s, id, t.call, steps, st);
    forall i | 0 <= i < |steps|
      ensures steps[i] != Crash(id) && (steps[i].Next? && steps[i].id == id ==> steps[i].choice.faults == NO_FAULTS)
    {
      assert steps[i] == trace[n + i] && Honest(trace[n + i], n + i, tickets, hashOf);
    }
  }

  lemma StartsThere(cfg: Config, s: State, id: nat, call: Call, steps: seq<Step>, st: State)
    requires Exec(cfg, s, [Start(id, call)] + steps) == Some(st)
    ensures id !in s.reqs && Exec(cfg, Begun(cfg, s, id, call), steps) == Some(st)
  {
    assert ([Start(id, call)] + steps)[1..] == steps;
  }

  /** A method of the service that has returned r: the answer is what the theorems about its call say. */
  lemma ServiceAnswers(svc: Service, id: nat, t: Ticket, r: Result<Grant>) returns (s: State, steps: seq<Step>)
    requires svc.Valid() && svc.At(id, t, t.luck, Done(r))
    requires t.luck.failAt.None? && t.luck.faults == NO_FAULTS && !Refused(svc.hashOf, t.call)
    ensures RunsTo(svc.cfg, t.before, s) && Served(svc.cfg, s, id, t.call, steps)
    ensures var b := Begun(svc.cfg, s, id, t.call);
      && Outcome(svc.cfg, b, steps, id) == r && Final(svc.cfg, b, steps) == svc.st.w
      && AnswersCall(svc.cfg, b, steps, id, t.call)
  {
    s, steps := RecordedCall(svc.cfg, svc.hashOf, svc.trace, svc.st, svc.tickets, id);
    EveryCall(svc.cfg, s, id, t.call, steps);
  }
}
