/** Every session of the membrane, and every admission and Gold call under it, goes back to an accepted registration. */
module MembraneRegistrations {
  import opened Texts
  import opened MembraneRules
  import opened MembraneSteps
  import opened MembraneRuns

  /** A client id and the session it registered. */
  datatype Party = Party(client: string, session: Session)

  /** Whom the handler in this phase acts for. */
  function ActsFor(ph: Phase): Option<Party> {
    match ph
    case Idle(client, session) => Some(Party(client, session))
    case Reporting(_, Resume(client, session)) => Some(Party(client, session))
    case Reporting(_, Grant(a)) => Some(Party(a.client, a.session))
    case Reporting(_, Settle(r)) => Some(Party(r.client, r.session))
    case Granted(a, _) => Some(Party(a.client, a.session))
    case Calling(r) => Some(Party(r.client, r.session))
    case Awaiting(r) => Some(Party(r.client, r.session))
    case _ => None
  }

  /** The registration that this event completes, if it does. */
  ghost function Registering(w: World, s: State, e: Event): Option<Party> {
    if e.Receive? && e.frame.Message? && e.conn in s.conns && s.conns[e.conn].Fresh? then
      match RegisterFrame(w, s.tables.registry, e.frame.msg, e.x)
      case Accept(client, session) => Some(Party(client, session))
      case _ => None
    else None
  }

  // ------------------------------------------------------------------- single steps

  /** Only the phase of `c` differs, and it acts for nobody or for this party. */
  ghost predicate NowActsFor(s: State, s': State, c: nat, party: Option<Party>) {
    && s'.conns.Keys == s.conns.Keys + {c}
    && (forall c' | c' in s.conns && c' != c :: s'.conns[c'] == s.conns[c'])
    && (ActsFor(s'.conns[c]).None? || ActsFor(s'.conns[c]) == party)
  }

  lemma MovedActsFor(s: State, s': State, c: nat, ph: Phase, party: Option<Party>)
    requires s'.conns == s.conns[c := ph] && (ActsFor(ph).None? || ActsFor(ph) == party)
    ensures NowActsFor(s, s', c, party)
  {
    hide ActsFor;
  }

  lemma AdmitActsFor(w: World, s: State, c: nat, client: string, session: Session, msg: Dict, x: Outside)
    ensures NowActsFor(s, ReceiveAdmit(w, s, c, client, session, msg, x), c, Some(Party(client, session)))
  {
    AdmitFrameIsSound(w, client, session, msg, x);
    hide AdmitFrame, AdmittedCore, Admissible, NowActsFor;
    var s', party := ReceiveAdmit(w, s, c, client, session, msg, x), Some(Party(client, session));
    match AdmitFrame(w, client, session, msg, x)
    case KillAdmit(reason) => MovedActsFor(s, s', c, Doomed(client, reason, x), party);
    case Reject(core) => MovedActsFor(s, s', c, Reporting(core, Resume(client, session)), party);
    case Admit(a) => MovedActsFor(s, s', c, Reporting(AdmittedCore(w, a), Grant(a)), party);
  }

  lemma PhaseActsFor(w: World, r: Redemption, v: ExecuteVerdict, x: Outside)
    ensures var ph := PhaseAfter(w, r, v, x); ActsFor(ph).None? || ActsFor(ph) == Some(Party(r.client, r.session))
  {
    hide OutcomeCore;
  }

  lemma ExecuteActsFor(w: World, s: State, c: nat, client: string, session: Session, msg: Dict, x: Outside)
    ensures NowActsFor(s, ReceiveExecute(w, s, c, client, session, msg, x), c, Some(Party(client, session)))
  {
    hide ExecutionOf, ExecuteFrame, PhaseAfter, TicketUnder, WithoutTicket, NowActsFor;
    var s', party := ReceiveExecute(w, s, c, client, session, msg, x), Some(Party(client, session));
    var e := ExecutionOf(msg);
    if e.None? {
      MovedActsFor(s, s', c, Doomed(client, ExecuteMalformed, x), party);
    } else if TicketUnder(s.tables, e.value.token).None? {
      MovedActsFor(s, s', c, Doomed(client, NotAdmitted, x), party);
    } else {
      var ticket := TicketUnder(s.tables, e.value.token).value;
      var r, v := Redemption(client, session, ticket, e.value), ExecuteFrame(w, client, e.value, ticket);
      PhaseActsFor(w, r, v, x);
      hide ActsFor;
      MovedActsFor(s, s', c, PhaseAfter(w, r, v, x), party);
    }
  }

  lemma FrameActsFor(w: World, s: State, c: nat, client: string, session: Session, frame: Frame, x: Outside)
    ensures NowActsFor(s, ReceiveNext(w, s, c, client, session, frame, x), c, Some(Party(client, session)))
  {
    hide ReceiveAdmit, ReceiveExecute, WithoutClient, NowActsFor;
    if frame.Message? && Get(frame.msg, "op") == VStr("admit") {
      AdmitActsFor(w, s, c, client, session, frame.msg, x);
    } else if frame.Message? && Get(frame.msg, "op") == VStr("execute") {
      ExecuteActsFor(w, s, c, client, session, frame.msg, x);
    } else {
      OtherFrameActsFor(w, s, c, client, session, frame, x);
    }
  }

  lemma OtherFrameActsFor(w: World, s: State, c: nat, client: string, session: Session, frame: Frame, x: Outside)
    requires frame.Message? ==> Get(frame.msg, "op") != VStr("admit") && Get(frame.msg, "op") != VStr("execute")
    ensures NowActsFor(s, ReceiveNext(w, s, c, client, session, frame, x), c, Some(Party(client, session)))
  {
    hide ReceiveAdmit, ReceiveExecute, WithoutClient, NowActsFor;
    var s', party := ReceiveNext(w, s, c, client, session, frame, x), Some(Party(client, session));
    match frame
    case EndOfStream => MovedActsFor(s, s', c, Closed, party);
    case Malformed => MovedActsFor(s, s', c, Doomed(client, MalformedFrame, x), party);
    case NotObject => MovedActsFor(s, s', c, Doomed(client, NotAnObject, x), party);
    case Message(msg) =>
      var op := Get(msg, "op");
      MovedActsFor(s, s', c, Doomed(client, if op == VStr("invoke") then BareInvoke else UnknownOp(op), x), party);
  }

  lemma FirstFrameActsFor(w: World, s: State, c: nat, frame: Frame, x: Outside)
    requires c in s.conns && s.conns[c].Fresh?
    ensures NowActsFor(s, ReceiveFirst(w, s, c, frame, x), c, Registering(w, s, Receive(c, frame, x)))
  {
    hide RegisterFrame, NowActsFor;
    var s', party := ReceiveFirst(w, s, c, frame, x), Registering(w, s, Receive(c, frame, x));
    if !frame.Message? {
      MovedActsFor(s, s', c, Closed, party);
    } else {
      match RegisterFrame(w, s.tables.registry, frame.msg, x)
      case Drop => MovedActsFor(s, s', c, Closed, party);
      case Refuse(core) => MovedActsFor(s, s', c, Reporting(core, Hangup), party);
      case Accept(client, session) => MovedActsFor(s, s', c, Idle(client, session), party);
    }
  }

  /** After a step, a handler acts for nobody, for whom it acted before, or for the party that has just registered. */
  lemma StepActsFor(w: World, s: State, e: Event, c: nat)
    requires c in Step(w, s, e).conns
    ensures var now := ActsFor(Step(w, s, e).conns[c]);
            now.None? || (c in s.conns && ActsFor(s.conns[c]) == now) || Registering(w, s, e) == now
  {
    if e.Receive? {
      hide ReceiveNext, ReceiveFirst, Registering, ActsFor;
      if e.conn in s.conns && s.conns[e.conn].Fresh? {
        FirstFrameActsFor(w, s, e.conn, e.frame, e.x);
      }
      if e.conn in s.conns && s.conns[e.conn].Idle? {
        FrameActsFor(w, s, e.conn, s.conns[e.conn].client, s.conns[e.conn].session, e.frame, e.x);
      }
    } else {
      OtherStepActsFor(w, s, e, c);
    }
  }

  lemma OtherStepActsFor(w: World, s: State, e: Event, c: nat)
    requires !e.Receive? && c in Step(w, s, e).conns
    ensures var now := ActsFor(Step(w, s, e).conns[c]); now.None? || (c in s.conns && ActsFor(s.conns[c]) == now)
  {
    if (e.PopRegistry? || e.MakeReceipt? || e.StoreTicket? || e.CallGold? || e.GoldEnds?) && e.conn in s.conns {
      ConnActsFor(w, s, e);
    }
    hide ConnStep;
  }

  /** Only the phase of `c` differs, and it acts for nobody or for whom it acted before. */
  ghost predicate ActsOn(s: State, s': State, c: nat)
    requires c in s.conns
  {
    && s'.conns.Keys == s.conns.Keys && (forall c' | c' in s.conns && c' != c :: s'.conns[c'] == s.conns[c'])
    && (ActsFor(s'.conns[c]).None? || ActsFor(s'.conns[c]) == ActsFor(s.conns[c]))
  }

  lemma MoveActsOn(s: State, s': State, c: nat, ph: Phase)
    requires c in s.conns && s'.conns == s.conns[c := ph]
    requires ActsFor(ph).None? || ActsFor(ph) == ActsFor(s.conns[c])
    ensures ActsOn(s, s', c)
  {
  }

  lemma NothingActsOn(s: State, c: nat)
    requires c in s.conns
    ensures ActsOn(s, s, c)
  {
  }

  lemma ReportActsOn(w: World, s: State, c: nat)
    requires c in s.conns && s.conns[c].Reporting?
    ensures ActsOn(s, Reported(w, s, c, s.conns[c].core, s.conns[c].next), c)
  {
    hide ActsOn;
    var next := s.conns[c].next;
    var s' := Reported(w, s, c, s.conns[c].core, next);
    MoveActsOn(s, s', c, s'.conns[c]);
  }

  lemma ConnActsFor(w: World, s: State, e: Event)
    requires e.PopRegistry? || e.MakeReceipt? || e.StoreTicket? || e.CallGold? || e.GoldEnds?
    requires e.conn in s.conns
    ensures ActsOn(s, ConnStep(w, s, e), e.conn)
  {
    NothingActsOn(s, e.conn);
    if e.MakeReceipt? {
      hide ActsOn, Reported;
      if s.conns[e.conn].Reporting? {
        ReportActsOn(w, s, e.conn);
      }
    } else {
      hide ActsOn, KillCore, OutcomeCore, TicketOf, WithTicket, Reported;
      OtherConnActsFor(w, s, e);
    }
  }

  lemma OtherConnActsFor(w: World, s: State, e: Event)
    requires e.PopRegistry? || e.StoreTicket? || e.CallGold? || e.GoldEnds?
    requires e.conn in s.conns
    ensures ActsOn(s, ConnStep(w, s, e), e.conn)
  {
    hide ActsOn, KillCore, OutcomeCore, TicketOf, WithTicket, Reported;
    var s', ph := ConnStep(w, s, e), s.conns[e.conn];
    if s' == s {
      NothingActsOn(s, e.conn);
    } else {
      assert ph.Doomed? || ph.Granted? || ph.Calling? || ph.Awaiting?;
      MoveActsOn(s, s', e.conn, s'.conns[e.conn]);
    }
  }

  /** A step makes at most one receipt; the receipt of an admission is made by a handler that acts for its client. */
  lemma StepRecords(w: World, s: State, e: Event, at: nat)
    requires at < |Step(w, s, e).history| && Step(w, s, e).history[at].cause.ForAdmission?
    ensures s.history <= Step(w, s, e).history
    ensures at < |s.history|
            || (at == |s.history| && e.MakeReceipt? && e.conn in s.conns
                && var a := Step(w, s, e).history[at].cause.admission;
                   ActsFor(s.conns[e.conn]) == Some(Party(a.client, a.session)))
  {
    HistoryGrows(w, s, e);
    if e.MakeReceipt? && e.conn in s.conns && s.conns[e.conn].Reporting? {
      StepAppends(w, s, e);
    } else {
      StepLeavesChain(w, s, e);
    }
    hide Step;
  }

  lemma HistoryGrows(w: World, s: State, e: Event)
    ensures s.history <= Step(w, s, e).history
  {
    hide Step;
    if e.MakeReceipt? && e.conn in s.conns && s.conns[e.conn].Reporting? {
      StepAppends(w, s, e);
    } else {
      StepLeavesChain(w, s, e);
    }
  }

  // ---------------------------------------------------------------------- every run

  /** For each registered party, how many receipts there were when it first registered. */
  ghost function Registered(w: World, registry: map<string, Slot>, head: string, es: seq<Event>): map<Party, nat> {
    if es == [] then map[]
    else WithParty(Registered(w, registry, head, es[..|es| - 1]), w, Run(w, Start(registry, head), es[..|es| - 1]),
                   es[|es| - 1])
  }

  ghost function WithParty(known: map<Party, nat>, w: World, s: State, e: Event): map<Party, nat> {
    match Registering(w, s, e)
    case None => known
    case Some(p) => if p in known then known else known[p := |s.history|]
  }

  ghost predicate KnownBefore(known: map<Party, nat>, p: Party, at: nat) {
    p in known && known[p] <= at
  }

  /** Handlers act for registered parties, and admissions were granted to parties registered before. */
  ghost predicate AllRegistered(s: State, known: map<Party, nat>) {
    && (forall p | p in known :: known[p] <= |s.history|)
    && (forall c | c in s.conns && ActsFor(s.conns[c]).Some? ::
        KnownBefore(known, ActsFor(s.conns[c]).value, |s.history|))
    && (forall at | 0 <= at < |s.history| && s.history[at].cause.ForAdmission? ::
          KnownBefore(known, Party(s.history[at].cause.admission.client, s.history[at].cause.admission.session), at))
  }

  lemma StepKeepsRegistered(w: World, s: State, e: Event, known: map<Party, nat>)
    requires AllRegistered(s, known)
    ensures AllRegistered(Step(w, s, e), WithParty(known, w, s, e))
  {
    hide Step, Registering, ActsFor;
    var s', known' := Step(w, s, e), WithParty(known, w, s, e);
    HistoryGrows(w, s, e);
    forall c | c in s'.conns && ActsFor(s'.conns[c]).Some?
      ensures KnownBefore(known', ActsFor(s'.conns[c]).value, |s'.history|)
    {
      StepActsFor(w, s, e, c);
    }
    forall at | 0 <= at < |s'.history| && s'.history[at].cause.ForAdmission?
      ensures KnownBefore(known', Party(s'.history[at].cause.admission.client,
                                        s'.history[at].cause.admission.session), at)
    {
      StepRecords(w, s, e, at);
    }
  }

  lemma {:induction false} RunsKeepRegistered(w: World, registry: map<string, Slot>, head: string, es: seq<Event>)
    ensures AllRegistered(Run(w, Start(registry, head), es), Registered(w, registry, head, es))
  {
    hide Step;
    if es != [] {
      RunsKeepRegistered(w, registry, head, es[..|es| - 1]);
      hide AllRegistered, WithParty;
      StepKeepsRegistered(w, Run(w, Start(registry, head), es[..|es| - 1]), es[|es| - 1],
                          Registered(w, registry, head, es[..|es| - 1]));
    }
  }

  /** Event `i` is the first frame of a connection, and registers this client with this session. */
  ghost predicate RegistersAt(w: World, registry: map<string, Slot>, head: string, es: seq<Event>, i: nat, p: Party) {
    && i < |es| && es[i].Receive? && es[i].frame.Message?
    && var s := Run(w, Start(registry, head), es[..i]);
       && es[i].conn in s.conns && s.conns[es[i].conn].Fresh?
       && RegisterFrame(w, s.tables.registry, es[i].frame.msg, es[i].x) == Accept(p.client, p.session)
  }

  lemma {:induction false} RegisteredByEvent(w: World, registry: map<string, Slot>, head: string, es: seq<Event>,
                                             p: Party)
    returns (i: nat)
    requires p in Registered(w, registry, head, es)
    ensures RegistersAt(w, registry, head, es, i, p)
    ensures |Run(w, Start(registry, head), es[..i]).history| == Registered(w, registry, head, es)[p]
  {
    hide Run, RegisterFrame;
    var before := es[..|es| - 1];
    if p in Registered(w, registry, head, before) {
      i := RegisteredByEvent(w, registry, head, before, p);
      assert before[..i] == es[..i];
    } else {
      i := |es| - 1;
    }
  }

  /** Every admission was granted under a session that its client registered, by a frame accepted before. */
  lemma AdmissionsAreRegistered(w: World, registry: map<string, Slot>, head: string, es: seq<Event>, at: nat)
    returns (i: nat)
    requires at < |Run(w, Start(registry, head), es).history|
    requires Run(w, Start(registry, head), es).history[at].cause.ForAdmission?
    ensures var a := Run(w, Start(registry, head), es).history[at].cause.admission;
            RegistersAt(w, registry, head, es, i, Party(a.client, a.session))
    ensures |Run(w, Start(registry, head), es[..i]).history| <= at
  {
    hide Run, Registered, RegistersAt;
    RunsKeepRegistered(w, registry, head, es);
    var a := Run(w, Start(registry, head), es).history[at].cause.admission;
    i := RegisteredByEvent(w, registry, head, es, Party(a.client, a.session));
  }

  /**
   With an injective hash, what Gold is asked to execute is what was admitted: a capability that the client declared
   in a registration accepted before the admission, inside the plugin's scope, a listed version, a matching pin, an
   allowed edge, and an envelope with the intent and payload of the admitted proposal.
   */
  lemma GoldExecutesWhatWasAdmitted(w: World, registry: map<string, Slot>, head: string, es: seq<Event>, g: nat)
    returns (i: nat)
    requires HashIsInjective(w) && ComparesExactly(w)
    requires g < |Run(w, Start(registry, head), es).golds|
    ensures var s := Run(w, Start(registry, head), es);
            var e := s.golds[g].redemption.execution;
            && e.token in s.grants && AdmittedFor(s, g) < |s.history|
               && s.history[AdmittedFor(s, g)].cause.ForAdmission?
            && var a := s.history[AdmittedFor(s, g)].cause.admission;
               && RegistersAt(w, registry, head, es, i, Party(s.golds[g].redemption.client, a.session))
               && |Run(w, Start(registry, head), es[..i]).history| <= AdmittedFor(s, g)
               && e.proposal == a.proposal
               && SessionOk(w, a.session) && Admissible(w, a.session, e.proposal)
               && Get(e.envelope, "intentId") == e.proposal["intent_id"]
               && Get(e.envelope, "payload") == e.proposal["payload"]
  {
    hide Run, Invariant, SessionOk, Admissible, RegistersAt;
    RunsKeep(w, registry, head, es);
    GoldGetsTheProposal(w, Run(w, Start(registry, head), es), g);
    i := AdmissionsAreRegistered(w, registry, head, es, AdmittedFor(Run(w, Start(registry, head), es), g));
  }
}
