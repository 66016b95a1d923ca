/** What the receipts of the membrane say about Gold, and which frames lead to Gold, to a receipt or to a kill. */
module MembraneVerdicts {
  import opened Texts
  import opened MembraneRules
  import opened MembraneSteps
  import opened MembraneRuns

  // ---------------------------------------------------------------- answers of Gold

  /** The receipt core says of Gold what happened: the answer it gave, or that it was not called. */
  ghost predicate SaysAnswer(golds: seq<GoldCall>, answers: map<string, GoldAnswer>, token: string, core: Core) {
    && (core.extra.GoldOutcome? ==> token in answers && answers[token] == Answered(core.extra.ok))
    && (core.extra.ScopeOutcome? ==> Uncalled(golds, token))
  }

  ghost predicate EntrySays(s: State, i: nat)
    requires i < |s.history|
  {
    s.history[i].cause.ForRedemption? ==>
      SaysAnswer(s.golds, s.answers, s.history[i].cause.redemption.execution.token, s.history[i].receipt.core)
  }

  ghost predicate PhaseSays(s: State, ph: Phase) {
    && (ph.Reporting? && ph.next.Settle? ==>
          SaysAnswer(s.golds, s.answers, ph.next.redemption.execution.token, ph.core))
    && (ph.Awaiting? ==> ph.redemption.execution.token !in s.answers)
  }

  ghost predicate Answers(s: State) {
    && (forall i | 0 <= i < |s.history| :: EntrySays(s, i))
    && (forall c | c in s.conns :: PhaseSays(s, s.conns[c]))
    && (forall t | t in s.answers :: !Uncalled(s.golds, t))
  }

  /** Only tables and the phase of one connection differ. */
  ghost predicate OnlyPhase(s: State, s': State, c: nat) {
    && s'.history == s.history && s'.golds == s.golds && s'.answers == s.answers
    && forall c' | c' in s'.conns && c' != c :: c' in s.conns && s'.conns[c'] == s.conns[c']
  }

  /** What the phase that the connection is in now says is so. */
  ghost predicate NowSays(s: State, s': State, c: nat) {
    c in s'.conns ==> PhaseSays(s, s'.conns[c])
  }

  lemma PhaseKeepsAnswers(s: State, s': State, c: nat)
    requires Answers(s) && OnlyPhase(s, s', c) && NowSays(s', s', c)
    ensures Answers(s')
  {
    hide Uncalled;
    forall i | 0 <= i < |s'.history|
      ensures EntrySays(s', i)
    {
      assert EntrySays(s, i);
    }
    forall c' | c' in s'.conns
      ensures PhaseSays(s', s'.conns[c'])
    {
      assert c' != c ==> PhaseSays(s, s.conns[c']);
    }
  }

  /** A handler that moves on to a phase that says nothing of Gold. */
  lemma MovedSays(s: State, c: nat, ph: Phase, tables: Tables)
    requires PhaseSays(s, ph)
    ensures OnlyPhase(s, Moved(s, c, ph).(tables := tables), c) && NowSays(s, Moved(s, c, ph).(tables := tables), c)
  {
    hide PhaseSays;
  }

  lemma FirstFrameSays(w: World, s: State, c: nat, frame: Frame, x: Outside)
    ensures OnlyPhase(s, ReceiveFirst(w, s, c, frame, x), c)
    ensures NowSays(s, ReceiveFirst(w, s, c, frame, x), c)
  {
    hide RegisterFrame, OnlyPhase, NowSays, SaysAnswer;
    MovedSays(s, c, Closed, s.tables);
    if frame.Message? {
      match RegisterFrame(w, s.tables.registry, frame.msg, x)
      case Drop =>
      case Refuse(core) => MovedSays(s, c, Reporting(core, Hangup), s.tables);
      case Accept(client, session) =>
        MovedSays(s, c, Idle(client, session), s.tables.(sessions := s.tables.sessions[client := session]));
    }
  }

  lemma AdmitSays(w: World, s: State, c: nat, client: string, session: Session, msg: Dict, x: Outside)
    ensures OnlyPhase(s, ReceiveAdmit(w, s, c, client, session, msg, x), c)
    ensures NowSays(s, ReceiveAdmit(w, s, c, client, session, msg, x), c)
  {
    hide AdmitFrame, AdmittedCore, OnlyPhase, NowSays, SaysAnswer;
    match AdmitFrame(w, client, session, msg, x)
    case KillAdmit(reason) => MovedSays(s, c, Doomed(client, reason, x), s.tables);
    case Reject(core) => MovedSays(s, c, Reporting(core, Resume(client, session)), s.tables);
    case Admit(a) => MovedSays(s, c, Reporting(AdmittedCore(w, a), Grant(a)), s.tables);
  }

  lemma JudgedPhaseSays(w: World, s: State, r: Redemption, x: Outside)
    requires Uncalled(s.golds, r.execution.token)
    ensures PhaseSays(s, PhaseAfter(w, r, ExecuteFrame(w, r.client, r.execution, r.ticket), x))
  {
    hide ExecuteFrame, ScopeField, EffectiveMode;
  }

  lemma ExecuteSays(w: World, s: State, c: nat, client: string, session: Session, msg: Dict, x: Outside)
    requires Invariant(w, s)
    ensures OnlyPhase(s, ReceiveExecute(w, s, c, client, session, msg, x), c)
    ensures NowSays(s, ReceiveExecute(w, s, c, client, session, msg, x), c)
  {
    hide Invariant, ExecuteFrame, ExecutionOf, PhaseAfter, Uncalled;
    if ExecutionOf(msg).Some? && ExecutionOf(msg).value.token in s.tables.tickets {
      var e := ExecutionOf(msg).value;
      LiveIsUnused(w, s, e.token);
      JudgedPhaseSays(w, s, Redemption(client, session, s.tables.tickets[e.token], e), x);
    }
  }

  lemma FrameSays(w: World, s: State, c: nat, client: string, session: Session, frame: Frame, x: Outside)
    requires Invariant(w, s)
    ensures OnlyPhase(s, ReceiveNext(w, s, c, client, session, frame, x), c)
    ensures NowSays(s, ReceiveNext(w, s, c, client, session, frame, x), c)
  {
    hide Invariant, ReceiveAdmit, ReceiveExecute, WithoutClient, OnlyPhase, NowSays;
    if frame.Message? && Get(frame.msg, "op") == VStr("admit") {
      AdmitSays(w, s, c, client, session, frame.msg, x);
    } else if frame.Message? && Get(frame.msg, "op") == VStr("execute") {
      ExecuteSays(w, s, c, client, session, frame.msg, x);
    } else {
      OtherFrameSays(w, s, c, client, session, frame, x);
    }
  }

  lemma OtherFrameSays(w: World, s: State, c: nat, client: string, session: Session, frame: Frame, x: Outside)
    requires frame.Message? ==> Get(frame.msg, "op") != VStr("admit") && Get(frame.msg, "op") != VStr("execute")
    ensures OnlyPhase(s, ReceiveNext(w, s, c, client, session, frame, x), c)
    ensures NowSays(s, ReceiveNext(w, s, c, client, session, frame, x), c)
  {
    hide ReceiveAdmit, ReceiveExecute, WithoutClient, SaysAnswer;
  }

  /** Making a receipt adds one entry, and the connection waits for nothing any more. */
  lemma ReportedIs(w: World, s: State, c: nat, core: Core, next: Next)
    ensures var s' := Reported(w, s, c, core, next);
            && |s'.history| == |s.history| + 1 && s'.history[..|s.history|] == s.history
            && s'.history[|s.history|].receipt.core == core && s'.history[|s.history|].cause == CauseOf(next)
            && s'.golds == s.golds && s'.answers == s.answers
            && c in s'.conns && s'.conns == s.conns[c := s'.conns[c]]
            && !s'.conns[c].Reporting? && !s'.conns[c].Awaiting?
  {
  }

  lemma ReportKeepsAnswers(w: World, s: State, c: nat)
    requires Answers(s) && c in s.conns && s.conns[c].Reporting?
    ensures Answers(Reported(w, s, c, s.conns[c].core, s.conns[c].next))
  {
    var core, next := s.conns[c].core, s.conns[c].next;
    var s' := Reported(w, s, c, core, next);
    ReportedIs(w, s, c, core, next);
    hide Reported, Uncalled, SaysAnswer;
    assert PhaseSays(s, s.conns[c]);
    forall i | 0 <= i < |s'.history|
      ensures EntrySays(s', i)
    {
      if i < |s.history| {
        assert EntrySays(s, i) && s'.history[i] == s'.history[..|s.history|][i];
      }
    }
    forall c' | c' in s'.conns
      ensures PhaseSays(s', s'.conns[c'])
    {
      assert c' != c ==> PhaseSays(s, s.conns[c']);
    }
  }

  /** The token a connection holds is that of no outcome, and of no other connection. */
  lemma HeldIsAlone(w: World, s: State, c: nat, r: Redemption)
    requires Invariant(w, s) && At(s.places, r.execution.token, Held(c))
    ensures forall i | 0 <= i < |s.history| && s.history[i].cause.ForRedemption? ::
              s.history[i].cause.redemption.execution.token != r.execution.token
    ensures forall c', r' | c' in s.conns && c' != c && HoldsTicket(s.conns[c'], r') ::
              r'.execution.token != r.execution.token
  {
    hide Invariant, RedemptionOk, Tells, ScopeField, AdmittedAt, PlainCore, GrantsAdmission, SessionOk, Uncalled,
         WasCalled;
    forall i | 0 <= i < |s.history| && s.history[i].cause.ForRedemption?
      ensures s.history[i].cause.redemption.execution.token != r.execution.token
    {
      EntryIsOk(w, s, i);
    }
    forall c', r' | c' in s.conns && c' != c && HoldsTicket(s.conns[c'], r')
      ensures r'.execution.token != r.execution.token
    {
      PhaseIsOk(w, s, c');
    }
  }

  /** The two states differ in what is said of this token only. */
  ghost predicate OnlyToken(s: State, s': State, token: string) {
    && s'.answers - {token} == s.answers - {token}
    && (s'.golds == s.golds || (exists g :: s'.golds == s.golds + [g] && g.redemption.execution.token == token))
  }

  lemma OthersSay(s: State, s': State, token: string, core: Core, other: string)
    requires SaysAnswer(s.golds, s.answers, other, core) && other != token && OnlyToken(s, s', token)
    ensures SaysAnswer(s'.golds, s'.answers, other, core)
  {
    assert other in s.answers ==> other in s.answers - {token};
    assert other in s.answers - {token} ==> other in s'.answers - {token};
  }

  lemma OtherPhaseSays(s: State, s': State, token: string, ph: Phase)
    requires PhaseSays(s, ph) && OnlyToken(s, s', token)
    requires forall r | HoldsTicket(ph, r) :: r.execution.token != token
    ensures PhaseSays(s', ph)
  {
    hide SaysAnswer;
    if ph.Reporting? && ph.next.Settle? {
      assert HoldsTicket(ph, ph.next.redemption);
      OthersSay(s, s', token, ph.core, ph.next.redemption.execution.token);
    } else if ph.Awaiting? {
      var other := ph.redemption.execution.token;
      assert HoldsTicket(ph, ph.redemption);
      assert other !in s.answers - {token};
    }
  }

  lemma OtherEntrySays(s: State, s': State, token: string, i: nat)
    requires i < |s.history| && EntrySays(s, i) && OnlyToken(s, s', token) && s'.history == s.history
    requires s.history[i].cause.ForRedemption? ==> s.history[i].cause.redemption.execution.token != token
    ensures EntrySays(s', i)
  {
    hide SaysAnswer;
    if s.history[i].cause.ForRedemption? {
      OthersSay(s, s', token, s.history[i].receipt.core, s.history[i].cause.redemption.execution.token);
    }
  }

  /** A connection that calls Gold, or whose call ends, touches nothing that is said of other tokens. */
  lemma TokenStepKeeps(w: World, s: State, s': State, c: nat, r: Redemption)
    requires Invariant(w, s) && Answers(s) && At(s.places, r.execution.token, Held(c)) && c in s.conns
    requires s'.history == s.history && c in s'.conns && s'.conns == s.conns[c := s'.conns[c]]
    requires OnlyToken(s, s', r.execution.token) && PhaseSays(s', s'.conns[c])
    requires forall t | t in s'.answers :: !Uncalled(s'.golds, t)
    ensures Answers(s')
  {
    HeldIsAlone(w, s, c, r);
    hide *;
    OtherEntriesSay(s, s', r.execution.token);
    OtherPhasesSay(s, s', c, r.execution.token);
    AnswersOf(s');
  }

  lemma AnswersOf(s: State)
    requires forall i | 0 <= i < |s.history| :: EntrySays(s, i)
    requires forall c | c in s.conns :: PhaseSays(s, s.conns[c])
    requires forall t | t in s.answers :: !Uncalled(s.golds, t)
    ensures Answers(s)
  {
  }

  lemma OtherEntriesSay(s: State, s': State, token: string)
    requires Answers(s) && OnlyToken(s, s', token) && s'.history == s.history
    requires forall i | 0 <= i < |s.history| && s.history[i].cause.ForRedemption? ::
               s.history[i].cause.redemption.execution.token != token
    ensures forall i | 0 <= i < |s'.history| :: EntrySays(s', i)
  {
    hide EntrySays, PhaseSays, Uncalled, OnlyToken;
    forall i | 0 <= i < |s'.history|
      ensures EntrySays(s', i)
    {
      OtherEntrySays(s, s', token, i);
    }
  }

  lemma OtherPhasesSay(s: State, s': State, c: nat, token: string)
    requires Answers(s) && OnlyToken(s, s', token)
    requires c in s'.conns && s'.conns == s.conns[c := s'.conns[c]] && PhaseSays(s', s'.conns[c])
    requires forall c', r' | c' in s.conns && c' != c && HoldsTicket(s.conns[c'], r') :: r'.execution.token != token
    ensures forall c' | c' in s'.conns :: PhaseSays(s', s'.conns[c'])
  {
    hide EntrySays, PhaseSays, Uncalled, OnlyToken, HoldsTicket;
    forall c' | c' in s'.conns
      ensures PhaseSays(s', s'.conns[c'])
    {
      if c' != c {
        OtherPhaseSays(s, s', token, s.conns[c']);
      }
    }
  }

  lemma MoreGolds(golds: seq<GoldCall>, g: GoldCall, t: string)
    requires !Uncalled(golds, t)
    ensures !Uncalled(golds + [g], t)
  {
    var k :| 0 <= k < |golds| && golds[k].redemption.execution.token == t;
    assert (golds + [g])[k].redemption.execution.token == t;
  }

  lemma CallKeepsAnswers(w: World, s: State, c: nat, r: Redemption)
    requires Invariant(w, s) && Answers(s) && c in s.conns && s.conns[c] == Calling(r)
    ensures Answers(Called(s, c, r))
  {
    hide Invariant, RedemptionOk, ScopeField, Uncalled, Answers;
    PhaseIsOk(w, s, c);
    var s' := Called(s, c, r);
    forall t | t in s'.answers
      ensures !Uncalled(s'.golds, t)
    {
      AnsweredIsCalled(s, t);
      MoreGolds(s.golds, GoldCall(r, |s.history|), t);
    }
    if r.execution.token in s.answers {
      AnsweredIsCalled(s, r.execution.token);
    }
    TokenStepKeeps(w, s, s', c, r);
  }

  lemma AnsweredIsCalled(s: State, t: string)
    requires Answers(s) && t in s.answers
    ensures !Uncalled(s.golds, t)
  {
    hide Uncalled, EntrySays, PhaseSays;
  }

  lemma EndKeepsAnswers(w: World, s: State, c: nat, r: Redemption, answer: GoldAnswer, now: string)
    requires Invariant(w, s) && Answers(s) && c in s.conns && s.conns[c] == Awaiting(r)
    ensures Answers(Ended(w, s, c, r, answer, now))
  {
    hide Invariant, RedemptionOk, ScopeField, Answers, EffectiveMode;
    PhaseIsOk(w, s, c);
    var s' := Ended(w, s, c, r, answer, now);
    var g :| 0 <= g < |s.golds| && s.golds[g].redemption == r;
    assert !Uncalled(s.golds, r.execution.token);
    forall t | t in s'.answers
      ensures !Uncalled(s'.golds, t)
    {
      if t != r.execution.token {
        AnsweredIsCalled(s, t);
      }
    }
    TokenStepKeeps(w, s, s', c, r);
  }

  lemma StepKeepsAnswers(w: World, s: State, e: Event)
    requires Invariant(w, s) && Answers(s)
    ensures Answers(Step(w, s, e))
  {
    hide Invariant, Answers, ReceiveFirst, ReceiveNext, Reported, Stored, Called, Ended, PhaseSays, KillCore;
    match e
    case Receive(c, frame, x) =>
      if c in s.conns && s.conns[c].Fresh? {
        FirstFrameSays(w, s, c, frame, x);
        SaysAlike(s, ReceiveFirst(w, s, c, frame, x), c);
        PhaseKeepsAnswers(s, ReceiveFirst(w, s, c, frame, x), c);
      } else if c in s.conns && s.conns[c].Idle? {
        FrameSays(w, s, c, s.conns[c].client, s.conns[c].session, frame, x);
        SaysAlike(s, ReceiveNext(w, s, c, s.conns[c].client, s.conns[c].session, frame, x), c);
        PhaseKeepsAnswers(s, ReceiveNext(w, s, c, s.conns[c].client, s.conns[c].session, frame, x), c);
      }
    case MakeReceipt(c) =>
      if c in s.conns && s.conns[c].Reporting? {
        ReportKeepsAnswers(w, s, c);
      }
    case CallGold(c) =>
      if c in s.conns && s.conns[c].Calling? {
        CallKeepsAnswers(w, s, c, s.conns[c].redemption);
      }
    case GoldEnds(c, answer, now) =>
      if c in s.conns && s.conns[c].Awaiting? {
        EndKeepsAnswers(w, s, c, s.conns[c].redemption, answer, now);
      }
    case StoreTicket(c, token) =>
      if c in s.conns && s.conns[c].Granted? && token !in s.grants && s.conns[c].at < |s.history| {
        StoreKeepsAnswers(w, s, c, s.conns[c].admission, s.conns[c].at, token);
      }
    case _ => OtherStepKeepsAnswers(w, s, e);
  }

  lemma SaysAlike(s: State, s': State, c: nat)
    requires OnlyPhase(s, s', c)
    ensures forall ph :: PhaseSays(s, ph) <==> PhaseSays(s', ph)
  {
    hide Uncalled;
  }

  lemma StoreKeepsAnswers(w: World, s: State, c: nat, a: Admission, at: nat, token: string)
    requires Answers(s) && at < |s.history| && c in s.conns
    ensures Answers(Stored(w, s, c, a, at, token))
  {
    hide Answers, TicketOf;
    PhaseKeepsAnswers(s, Stored(w, s, c, a, at, token), c);
  }

  lemma OtherStepKeepsAnswers(w: World, s: State, e: Event)
    requires Answers(s)
    requires !e.Receive? && !e.MakeReceipt? && !e.CallGold? && !e.GoldEnds? && !e.StoreTicket?
    ensures Answers(Step(w, s, e))
  {
    hide Answers, KillCore, SaysAnswer, WithoutClient;
    var s' := Step(w, s, e);
    if e.PopRegistry? || e.Connect? || e.Break? {
      MovedSays(s, e.conn, Fresh, s.tables);
      MovedSays(s, e.conn, Closed, s.tables);
      PhaseIsSaid(s, e.conn);
      PhaseKeepsAnswers(s, s', e.conn);
    } else {
      assert s' == s.(tables := s'.tables);
      hide Step;
      PhaseIsSaid(s, 0);
      PhaseKeepsAnswers(s, s', 0);
    }
  }

  lemma PhaseIsSaid(s: State, c: nat)
    requires Answers(s)
    ensures c in s.conns ==> PhaseSays(s, s.conns[c])
  {
    hide PhaseSays, EntrySays, Uncalled;
  }

  lemma {:induction false} RunsKeepAnswers(w: World, registry: map<string, Slot>, head: string, es: seq<Event>)
    ensures Answers(Run(w, Start(registry, head), es))
  {
    hide Step, Invariant;
    if es != [] {
      RunsKeepAnswers(w, registry, head, es[..|es| - 1]);
      RunsKeep(w, registry, head, es[..|es| - 1]);
      StepKeepsAnswers(w, Run(w, Start(registry, head), es[..|es| - 1]), es[|es| - 1]);
    }
  }

  /**
   The answer to the Gold call made for the redemption behind outcome `i`, if there was a call and it was answered.
   */
  ghost predicate GoldSaid(s: State, token: string, ok: bool) {
    token in s.answers && s.answers[token] == Answered(ok)
  }

  /**
   Over every run, an outcome receipt is `executed` exactly when the Gold call for its ticket was answered with `ok`,
   and `rejected` exactly when that answer was not ok or Gold was never called; and the `ok` it carries is that answer.
   */
  lemma OutcomeIsGoldsAnswer(w: World, registry: map<string, Slot>, head: string, es: seq<Event>, i: nat)
    returns (token: string)
    requires i < |Run(w, Start(registry, head), es).history|
    requires IsOutcome(Run(w, Start(registry, head), es).history[i].receipt)
    ensures var s := Run(w, Start(registry, head), es);
            var core := s.history[i].receipt.core;
            && s.history[i].cause.ForRedemption? && token == s.history[i].cause.redemption.execution.token
            && (core.decision.Executed? <==> GoldSaid(s, token, true))
            && (core.decision.Rejected? <==> GoldSaid(s, token, false) || Uncalled(s.golds, token))
            && (core.extra.GoldOutcome? <==> WasCalled(s.golds, s.history[i].cause.redemption))
            && (core.extra.GoldOutcome? ==> GoldSaid(s, token, core.extra.ok))
  {
    hide Run, Invariant, RedemptionOk, SessionOk, ScopeField, EffectiveMode, AdmittedAt, PlainCore;
    RunsKeep(w, registry, head, es);
    RunsKeepAnswers(w, registry, head, es);
    var s := Run(w, Start(registry, head), es);
    OutcomeHasCause(w, s, i);
    EntryIsOk(w, s, i);
    token := s.history[i].cause.redemption.execution.token;
    assert EntrySays(s, i);
    if token in s.answers {
      AnsweredIsCalled(s, token);
    }
  }

  /** A call of Gold ends at most once: its answer never changes. */
  lemma AnswersStay(w: World, s: State, e: Event, token: string)
    requires Invariant(w, s) && Answers(s) && token in s.answers
    ensures token in Step(w, s, e).answers && Step(w, s, e).answers[token] == s.answers[token]
  {
    hide Invariant, ReceiveFirst, ReceiveNext, KillCore, OutcomeCore, TicketOf, Uncalled;
    if e.Receive? && e.conn in s.conns && s.conns[e.conn].Fresh? {
      FirstFrameSays(w, s, e.conn, e.frame, e.x);
    } else if e.Receive? && e.conn in s.conns && s.conns[e.conn].Idle? {
      FrameSays(w, s, e.conn, s.conns[e.conn].client, s.conns[e.conn].session, e.frame, e.x);
    } else if e.GoldEnds? && e.conn in s.conns {
      PhaseIsSaid(s, e.conn);
    }
  }
}
