/** `KernelCallProxy` and the receipt chain as objects, proved against the steps of the membrane. */
module MembraneProxy {
  import opened Texts
  import opened MembraneRules
  import opened MembraneSteps

  /** The global chain head of `receipts.py`. */
  class ReceiptChain {
    var head: string

    constructor (start: string)
      ensures head == start
    {
      head := start;
    }

    method NextReceipt(w: World, core: Core) returns (r: Receipt)
      modifies this
      ensures r == Receipt(w.receiptId(old(head), core), old(head), core)
      ensures head == r.id
    {
      var parent := head;
      r := Receipt(w.receiptId(parent, core), parent, core);
      head := r.id;
    }
  }

  // ------------------------------------------------ one frame without interruption

  /** The steps of one frame of connection 0 after the frame has been read; impossible ones change nothing. */
  ghost function Rest(w: World, s: State, gold: GoldAnswer, goldNow: string, token: string): State {
    var s1 := Step(w, s, PopRegistry(0));
    var s2 := Step(w, Step(w, s1, CallGold(0)), GoldEnds(0, gold, goldNow));
    Step(w, Step(w, s2, MakeReceipt(0)), StoreTicket(0, token))
  }

  ghost function Alone(tb: Tables, head: string, ph: Phase): State {
    State(tb, head, map[0 := ph], [], [], map[], map[], map[], map[])
  }

  /** What one connection in phase `ph` does with one frame while no other step happens. */
  ghost function Handled(w: World, tb: Tables, head: string, ph: Phase, frame: Frame, x: Outside,
                         gold: GoldAnswer, goldNow: string, token: string): State {
    Rest(w, Step(w, Alone(tb, head, ph), Receive(0, frame, x)), gold, goldNow, token)
  }

  /** Handling a frame is a run of the membrane. */
  lemma HandlingIsARun(w: World, tb: Tables, head: string, ph: Phase, frame: Frame, x: Outside,
                       gold: GoldAnswer, goldNow: string, token: string)
    ensures Handled(w, tb, head, ph, frame, x, gold, goldNow, token)
            == Run(w, Alone(tb, head, ph),
                   [Receive(0, frame, x), PopRegistry(0), CallGold(0), GoldEnds(0, gold, goldNow), MakeReceipt(0),
                    StoreTicket(0, token)])
  {
    hide Step;
    var es := [Receive(0, frame, x), PopRegistry(0), CallGold(0), GoldEnds(0, gold, goldNow), MakeReceipt(0),
               StoreTicket(0, token)];
    var s := Alone(tb, head, ph);
    assert es[..5][..4] == es[..4] && es[..4][..3] == es[..3] && es[..3][..2] == es[..2] && es[..2][..1] == es[..1];
    assert es[..1][..0] == [];
    assert Run(w, s, es[..1]) == Step(w, s, es[0]);
    assert Run(w, s, es[..2]) == Step(w, Run(w, s, es[..1]), es[1]);
    assert Run(w, s, es[..3]) == Step(w, Run(w, s, es[..2]), es[2]);
    assert Run(w, s, es[..4]) == Step(w, Run(w, s, es[..3]), es[3]);
    assert Run(w, s, es[..5]) == Step(w, Run(w, s, es[..4]), es[4]);
  }

  ghost function ReceiptsOf(h: seq<Entry>): seq<Receipt> {
    seq(|h|, i requires 0 <= i < |h| => h[i].receipt)
  }

  /** The tables, the chain head, the phase of connection 0 and the receipts made are those of the state. */
  ghost predicate Is(s: State, tb: Tables, head: string, ph: Phase, made: seq<Receipt>) {
    s.tables == tb && s.head == head && 0 in s.conns && s.conns[0] == ph && ReceiptsOf(s.history) == made
  }

  lemma QuietRest(w: World, s: State, gold: GoldAnswer, goldNow: string, token: string)
    requires s.history == [] && 0 in s.conns && (s.conns[0].Fresh? || s.conns[0].Idle? || s.conns[0].Closed?)
    ensures Is(Rest(w, s, gold, goldNow, token), s.tables, s.head, s.conns[0], [])
  {
    hide ReceiveFirst, ReceiveNext, KillCore, OutcomeCore, TicketOf;
  }

  ghost function NextReceiptOf(w: World, head: string, core: Core): Receipt {
    Receipt(w.receiptId(head, core), head, core)
  }

  ghost function PhaseThen(next: Next): Phase {
    match next
    case Hangup => Closed
    case Resume(client, session) => Idle(client, session)
    case Grant(a) => Idle(a.client, a.session)
    case Settle(r) => Idle(r.client, r.session)
  }

  lemma SkipsWhenReporting(w: World, s: State, gold: GoldAnswer, goldNow: string)
    requires 0 in s.conns && s.conns[0].Reporting?
    ensures Step(w, s, PopRegistry(0)) == s && Step(w, s, CallGold(0)) == s
            && Step(w, s, GoldEnds(0, gold, goldNow)) == s
    ensures Step(w, s, MakeReceipt(0)) == Reported(w, s, 0, s.conns[0].core, s.conns[0].next)
  {
    hide Reported;
  }

  lemma SkipsUnlessGranted(w: World, s: State, token: string)
    requires 0 in s.conns && !s.conns[0].Granted?
    ensures Step(w, s, StoreTicket(0, token)) == s
  {
  }

  lemma StoresWhenGranted(w: World, s: State, a: Admission, token: string)
    requires 0 in s.conns && s.conns[0] == Granted(a, 0) && token !in s.grants && |s.history| > 0
    ensures Step(w, s, StoreTicket(0, token)) == Stored(w, s, 0, a, 0, token)
  {
    hide Stored;
  }

  lemma ReportedIs(w: World, s: State, core: Core, next: Next)
    requires s.history == [] && !next.Grant?
    ensures var r := NextReceiptOf(w, s.head, core);
            Is(Reported(w, s, 0, core, next), s.tables, r.id, PhaseThen(next), [r])
    ensures 0 in Reported(w, s, 0, core, next).conns && !Reported(w, s, 0, core, next).conns[0].Granted?
  {
  }

  lemma ReportingRest(w: World, s: State, gold: GoldAnswer, goldNow: string, token: string)
    requires s.history == [] && 0 in s.conns && s.conns[0].Reporting? && !s.conns[0].next.Grant?
    ensures var r := NextReceiptOf(w, s.head, s.conns[0].core);
            Is(Rest(w, s, gold, goldNow, token), s.tables, r.id, PhaseThen(s.conns[0].next), [r])
  {
    hide Step, Is, Reported;
    SkipsWhenReporting(w, s, gold, goldNow);
    var s' := Reported(w, s, 0, s.conns[0].core, s.conns[0].next);
    ReportedIs(w, s, s.conns[0].core, s.conns[0].next);
    SkipsUnlessGranted(w, s', token);
  }

  lemma GrantedIs(w: World, s: State, core: Core, a: Admission, token: string)
    requires s.history == []
    ensures var s' := Reported(w, s, 0, core, Grant(a));
            0 in s'.conns && s'.conns[0] == Granted(a, 0) && s'.grants == s.grants && |s'.history| == 1
    ensures var r := NextReceiptOf(w, s.head, core);
            Is(Stored(w, Reported(w, s, 0, core, Grant(a)), 0, a, 0, token),
               WithTicket(s.tables, token, TicketOf(w, a, r.id)), r.id, Idle(a.client, a.session), [r])
  {
  }

  lemma GrantingRest(w: World, s: State, gold: GoldAnswer, goldNow: string, token: string)
    requires s.history == [] && token !in s.grants && 0 in s.conns && s.conns[0].Reporting? && s.conns[0].next.Grant?
    ensures var r := NextReceiptOf(w, s.head, s.conns[0].core);
            var a := s.conns[0].next.admission;
            Is(Rest(w, s, gold, goldNow, token), WithTicket(s.tables, token, TicketOf(w, a, r.id)), r.id,
               Idle(a.client, a.session), [r])
  {
    hide Step, Is, Reported, Stored, TicketOf;
    SkipsWhenReporting(w, s, gold, goldNow);
    var a := s.conns[0].next.admission;
    GrantedIs(w, s, s.conns[0].core, a, token);
    StoresWhenGranted(w, Reported(w, s, 0, s.conns[0].core, s.conns[0].next), a, token);
  }

  lemma CallsAndEnds(w: World, s: State, gold: GoldAnswer, goldNow: string)
    requires 0 in s.conns && s.conns[0].Calling?
    ensures Step(w, s, PopRegistry(0)) == s && Step(w, s, CallGold(0)) == Called(s, 0, s.conns[0].redemption)
    ensures var s1 := Called(s, 0, s.conns[0].redemption);
            Step(w, s1, GoldEnds(0, gold, goldNow)) == Ended(w, s1, 0, s.conns[0].redemption, gold, goldNow)
  {
    hide Ended;
  }

  lemma PopsWhenDoomed(w: World, s: State)
    requires 0 in s.conns && s.conns[0].Doomed?
    ensures var ph := s.conns[0]; Step(w, s, PopRegistry(0)) == Unlisted(w, s, 0, ph.client, ph.reason, ph.x)
  {
    hide Unlisted;
  }

  lemma DoomedRest(w: World, s: State, gold: GoldAnswer, goldNow: string, token: string)
    requires s.history == [] && 0 in s.conns && s.conns[0].Doomed?
    ensures var ph := s.conns[0];
            var r := NextReceiptOf(w, s.head,
                                   KillCore(w, ph.client, SessionUnder(s.tables, ph.client), ph.reason, ph.x));
            Is(Rest(w, s, gold, goldNow, token), s.tables.(registry := s.tables.registry - {ph.client}), r.id,
               Closed, [r])
  {
    hide Step, Is, Reported, KillCore;
    var ph := s.conns[0];
    PopsWhenDoomed(w, s);
    var s1 := Unlisted(w, s, 0, ph.client, ph.reason, ph.x);
    SkipsWhenReporting(w, s1, gold, goldNow);
    ReportedIs(w, s1, s1.conns[0].core, Hangup);
    SkipsUnlessGranted(w, Reported(w, s1, 0, s1.conns[0].core, Hangup), token);
  }

  lemma AnsweredRest(w: World, s: State, ok: bool, goldNow: string, token: string)
    requires s.history == [] && 0 in s.conns && s.conns[0].Calling?
    ensures var c := s.conns[0].redemption;
            var core := OutcomeCore(w, c.client, c.session, c.ticket, c.execution.proposal, OutcomeExtra(c, ok),
                                    goldNow);
            var r := NextReceiptOf(w, s.head, core);
            Is(Rest(w, s, Answered(ok), goldNow, token), s.tables, r.id, Idle(c.client, c.session), [r])
  {
    hide Step, Is, Reported, OutcomeCore;
    var c := s.conns[0].redemption;
    CallsAndEnds(w, s, Answered(ok), goldNow);
    var s1 := Ended(w, Called(s, 0, c), 0, c, Answered(ok), goldNow);
    SkipsWhenReporting(w, s1, Answered(ok), goldNow);
    ReportedIs(w, s1, s1.conns[0].core, Settle(c));
    SkipsUnlessGranted(w, Reported(w, s1, 0, s1.conns[0].core, Settle(c)), token);
  }

  lemma RaisedRest(w: World, s: State, goldNow: string, token: string)
    requires s.history == [] && 0 in s.conns && s.conns[0].Calling?
    ensures Is(Rest(w, s, Raised, goldNow, token), s.tables, s.head, Closed, [])
  {
    hide Step, Is;
    var c := s.conns[0].redemption;
    CallsAndEnds(w, s, Raised, goldNow);
    ClosedStays(w, Ended(w, Called(s, 0, c), 0, c, Raised, goldNow), token);
    ClosedIs(Ended(w, Called(s, 0, c), 0, c, Raised, goldNow));
  }

  lemma ClosedStays(w: World, s: State, token: string)
    requires 0 in s.conns && s.conns[0].Closed?
    ensures Step(w, s, MakeReceipt(0)) == s && Step(w, s, StoreTicket(0, token)) == s
  {
  }

  lemma ClosedIs(s: State)
    requires s.history == [] && 0 in s.conns && s.conns[0].Closed?
    ensures Is(s, s.tables, s.head, Closed, [])
  {
  }

  lemma FirstFrame(w: World, tb: Tables, head: string, frame: Frame, x: Outside, gold: GoldAnswer, goldNow: string,
                   token: string)
    ensures Handled(w, tb, head, Fresh, frame, x, gold, goldNow, token)
            == Rest(w, ReceiveFirst(w, Alone(tb, head, Fresh), 0, frame, x), gold, goldNow, token)
  {
    hide Rest, ReceiveFirst, ReceiveNext;
  }

  lemma LaterFrame(w: World, tb: Tables, head: string, client: string, session: Session, frame: Frame, x: Outside,
                   gold: GoldAnswer, goldNow: string, token: string)
    ensures Handled(w, tb, head, Idle(client, session), frame, x, gold, goldNow, token)
            == Rest(w, ReceiveNext(w, Alone(tb, head, Idle(client, session)), 0, client, session, frame, x), gold,
                    goldNow, token)
  {
    hide Rest, ReceiveFirst, ReceiveNext;
  }

  // --------------------------------------------------------------------- the proxy

  class KernelCallProxy {
    var registry: map<string, Slot>
    var lastSessions: map<string, Session>
    var admitTickets: map<string, Ticket>
    var ticketsByClient: map<string, set<string>>
    const chain: ReceiptChain

    constructor (chain: ReceiptChain)
      ensures Tables() == MembraneSteps.Tables(map[], map[], map[], map[]) && this.chain == chain
    {
      registry, lastSessions, admitTickets, ticketsByClient := map[], map[], map[], map[];
      this.chain := chain;
    }

    ghost function Tables(): MembraneSteps.Tables
      reads this
    {
      MembraneSteps.Tables(registry, lastSessions, admitTickets, ticketsByClient)
    }

    method RegisterClient(client: string, slot: Slot)
      modifies this
      ensures Tables() == old(Tables()).(registry := old(registry)[client := slot])
    {
      registry := registry[client := slot];
    }

    method UnregisterClient(client: string)
      modifies this
      ensures Tables() == old(Tables()).(registry := old(registry) - {client})
    {
      registry := registry - {client};
    }

    method InvalidateAllAdmitTickets()
      modifies this
      ensures Tables() == old(Tables()).(tickets := map[], byClient := map[])
    {
      admitTickets := map[];
      ticketsByClient := map[];
    }

    method InvalidateClientAdmitTickets(client: string)
      modifies this
      ensures Tables() == WithoutClient(old(Tables()), client)
    {
      var keys := if client in ticketsByClient then ticketsByClient[client] else {};
      ticketsByClient := ticketsByClient - {client};
      ghost var all := keys;
      while keys != {}
        invariant keys <= all
        invariant registry == old(registry) && lastSessions == old(lastSessions)
        invariant ticketsByClient == old(ticketsByClient) - {client}
        invariant admitTickets == old(admitTickets) - (all - keys)
        decreases |keys|
      {
        var k :| k in keys;
        admitTickets := admitTickets - {k};
        keys := keys - {k};
      }
    }

    method PutTicket(token: string, ticket: Ticket)
      modifies this
      ensures Tables() == WithTicket(old(Tables()), token, ticket)
    {
      admitTickets := admitTickets[token := ticket];
      var listed := if ticket.client in ticketsByClient then ticketsByClient[ticket.client] else {};
      ticketsByClient := ticketsByClient[ticket.client := listed + {token}];
    }

    method PopTicket(token: string) returns (ticket: Option<Ticket>)
      modifies this
      ensures ticket == TicketUnder(old(Tables()), token)
      ensures Tables() == if ticket.None? then old(Tables()) else WithoutTicket(old(Tables()), token)
    {
      if token in admitTickets {
        ticket := Some(admitTickets[token]);
        admitTickets := admitTickets - {token};
      } else {
        ticket := None;
      }
    }

    method KillClientSubprocess(w: World, client: string, reason: KillReason, x: Outside) returns (r: Receipt)
      modifies this, chain
      ensures Tables() == old(Tables()).(registry := old(registry) - {client})
      ensures r.core == KillCore(w, client, SessionUnder(old(Tables()), client), reason, x)
      ensures r == Receipt(w.receiptId(old(chain.head), r.core), old(chain.head), r.core) && chain.head == r.id
    {
      registry := registry - {client};
      var session := if client in lastSessions then Some(lastSessions[client]) else None;
      r := chain.NextReceipt(w, KillCore(w, client, session, reason, x));
    }

    /** The first frame of a connection. */
    method HandleRegister(w: World, frame: Frame, x: Outside, ghost gold: GoldAnswer, ghost goldNow: string,
                          ghost token: string)
      returns (ph: Phase, made: seq<Receipt>)
      modifies this, chain
      ensures Is(Handled(w, old(Tables()), old(chain.head), Fresh, frame, x, gold, goldNow, token),
                 Tables(), chain.head, ph, made)
    {
      ghost var s1 := ReceiveFirst(w, Alone(Tables(), chain.head, Fresh), 0, frame, x);
      FirstFrame(w, Tables(), chain.head, frame, x, gold, goldNow, token);
      hide RegisterFrame, Rest, Is, Handled;
      made := [];
      if !frame.Message? {
        QuietRest(w, s1, gold, goldNow, token);
        return Closed, made;
      }
      match RegisterFrame(w, registry, frame.msg, x) {
        case Drop =>
          QuietRest(w, s1, gold, goldNow, token);
          ph := Closed;
        case Refuse(core) =>
          ReportingRest(w, s1, gold, goldNow, token);
          var r := chain.NextReceipt(w, core);
          ph, made := Closed, [r];
        case Accept(client, session) =>
          QuietRest(w, s1, gold, goldNow, token);
          lastSessions := lastSessions[client := session];
          ph := Idle(client, session);
      }
    }

    /** A kill ends the connection. */
    method Kill(w: World, client: string, reason: KillReason, x: Outside, ghost s1: State, ghost gold: GoldAnswer,
                ghost goldNow: string, ghost token: string)
      returns (ph: Phase, made: seq<Receipt>)
      requires s1.tables == Tables() && s1.head == chain.head && s1.history == []
      requires 0 in s1.conns && s1.conns[0] == Doomed(client, reason, x)
      modifies this, chain
      ensures Is(Rest(w, s1, gold, goldNow, token), Tables(), chain.head, ph, made)
    {
      DoomedRest(w, s1, gold, goldNow, token);
      hide Rest, KillCore, Is;
      var r := KillClientSubprocess(w, client, reason, x);
      ph, made := Closed, [r];
    }

    method HandleAdmit(w: World, client: string, session: Session, msg: Dict, x: Outside, token: string,
                       ghost gold: GoldAnswer, ghost goldNow: string)
      returns (ph: Phase, made: seq<Receipt>)
      modifies this, chain
      ensures var s1 := ReceiveAdmit(w, Alone(old(Tables()), old(chain.head), Idle(client, session)), 0, client,
                                     session, msg, x);
              Is(Rest(w, s1, gold, goldNow, token), Tables(), chain.head, ph, made)
    {
      ghost var s1 := ReceiveAdmit(w, Alone(Tables(), chain.head, Idle(client, session)), 0, client, session, msg, x);
      hide AdmitFrame, AdmittedCore, TicketOf, Rest, Is;
      match AdmitFrame(w, client, session, msg, x) {
        case KillAdmit(reason) =>
          ph, made := Kill(w, client, reason, x, s1, gold, goldNow, token);
        case Reject(core) =>
          ReportingRest(w, s1, gold, goldNow, token);
          var r := chain.NextReceipt(w, core);
          ph, made := Idle(client, session), [r];
        case Admit(a) =>
          GrantingRest(w, s1, gold, goldNow, token);
          var r := chain.NextReceipt(w, AdmittedCore(w, a));
          PutTicket(token, TicketOf(w, a, r.id));
          ph, made := Idle(a.client, a.session), [r];
      }
    }

    method HandleExecute(w: World, client: string, session: Session, msg: Dict, x: Outside, gold: GoldAnswer,
                         goldNow: string, ghost token: string)
      returns (ph: Phase, made: seq<Receipt>)
      modifies this, chain
      ensures var s1 := ReceiveExecute(w, Alone(old(Tables()), old(chain.head), Idle(client, session)), 0, client,
                                       session, msg, x);
              Is(Rest(w, s1, gold, goldNow, token), Tables(), chain.head, ph, made)
    {
      ghost var s1 := ReceiveExecute(w, Alone(Tables(), chain.head, Idle(client, session)), 0, client, session, msg, x);
      hide ExecutionOf, ExecuteFrame, PhaseAfter, Rest, Is;
      var e := ExecutionOf(msg);
      if e.None? {
        ph, made := Kill(w, client, ExecuteMalformed, x, s1, gold, goldNow, token);
        return;
      }
      var ticket := PopTicket(e.value.token);
      if ticket.None? {
        ph, made := Kill(w, client, NotAdmitted, x, s1, gold, goldNow, token);
        return;
      }
      ph, made := Settle(w, Redemption(client, session, ticket.value, e.value), x, gold, goldNow, s1, token);
    }

    /** The checks on a ticket that has just been taken, and what follows. */
    method Settle(w: World, r: Redemption, x: Outside, gold: GoldAnswer, goldNow: string, ghost s1: State,
                  ghost token: string)
      returns (ph: Phase, made: seq<Receipt>)
      requires s1.tables == Tables() && s1.head == chain.head && s1.history == []
      requires 0 in s1.conns
      requires s1.conns[0] == PhaseAfter(w, r, ExecuteFrame(w, r.client, r.execution, r.ticket), x)
      modifies this, chain
      ensures Is(Rest(w, s1, gold, goldNow, token), Tables(), chain.head, ph, made)
    {
      hide ExecuteFrame, OutcomeCore, Rest, Is;
      match ExecuteFrame(w, r.client, r.execution, r.ticket) {
        case KillExecute(reason) =>
          ph, made := Kill(w, r.client, reason, x, s1, gold, goldNow, token);
        case Fail =>
          QuietRest(w, s1, gold, goldNow, token);
          ph, made := Closed, [];
        case Unscoped(detail) =>
          ReportingRest(w, s1, gold, goldNow, token);
          var extra := ScopeOutcome(detail, r.ticket.admitReceiptId);
          var core := OutcomeCore(w, r.client, r.session, r.ticket, r.execution.proposal, extra, x.now);
          var receipt := chain.NextReceipt(w, core);
          ph, made := Idle(r.client, r.session), [receipt];
        case Invoke =>
          match gold {
            case Raised =>
              RaisedRest(w, s1, goldNow, token);
              ph, made := Closed, [];
            case Answered(ok) =>
              AnsweredRest(w, s1, ok, goldNow, token);
              var extra := OutcomeExtra(r, ok);
              var core := OutcomeCore(w, r.client, r.session, r.ticket, r.execution.proposal, extra, goldNow);
              var receipt := chain.NextReceipt(w, core);
              ph, made := Idle(r.client, r.session), [receipt];
          }
      }
    }

    /**
     One frame of the handler loop after registration, with no other connection interfering: tables, chain, phase
     and receipts are those of the steps of the transition system.
     */
    method HandleFrame(w: World, client: string, session: Session, frame: Frame, x: Outside, gold: GoldAnswer,
                       goldNow: string, token: string)
      returns (ph: Phase, made: seq<Receipt>)
      modifies this, chain
      ensures Is(Handled(w, old(Tables()), old(chain.head), Idle(client, session), frame, x, gold, goldNow, token),
                 Tables(), chain.head, ph, made)
    {
      ghost var s1 := ReceiveNext(w, Alone(Tables(), chain.head, Idle(client, session)), 0, client, session, frame, x);
      LaterFrame(w, Tables(), chain.head, client, session, frame, x, gold, goldNow, token);
      hide ReceiveAdmit, ReceiveExecute, Rest, Is, Handled;
      match frame {
        case EndOfStream =>
          QuietRest(w, s1, gold, goldNow, token);
          InvalidateClientAdmitTickets(client);
          ph, made := Closed, [];
        case Malformed =>
          ph, made := Kill(w, client, MalformedFrame, x, s1, gold, goldNow, token);
        case NotObject =>
          ph, made := Kill(w, client, NotAnObject, x, s1, gold, goldNow, token);
        case Message(msg) =>
          var op := Get(msg, "op");
          if op == VStr("invoke") {
            ph, made := Kill(w, client, BareInvoke, x, s1, gold, goldNow, token);
          } else if op == VStr("admit") {
            ph, made := HandleAdmit(w, client, session, msg, x, token, gold, goldNow);
          } else if op == VStr("execute") {
            ph, made := HandleExecute(w, client, session, msg, x, gold, goldNow, token);
          } else {
            ph, made := Kill(w, client, UnknownOp(op), x, s1, gold, goldNow, token);
          }
      }
    }
  }
}
