/** The membrane as a transition system: one step per frame, locked section, receipt or Gold call of a connection. */
module MembraneSteps {
  import opened Texts
  import opened MembraneRules

  /** The shared tables of `KernelCallProxy`. */
  datatype Tables = Tables(
    registry: map<string, Slot>,
    sessions: map<string, Session>,
    tickets: map<string, Ticket>,
    byClient: map<string, set<string>>)

  function ListedUnder(byClient: map<string, set<string>>, client: string): set<string> {
    if client in byClient then byClient[client] else {}
  }

  function WithTicket(tb: Tables, token: string, ticket: Ticket): Tables {
    tb.(tickets := tb.tickets[token := ticket],
        byClient := tb.byClient[ticket.client := ListedUnder(tb.byClient, ticket.client) + {token}])
  }

  /** `_admit_tickets.pop`: the per-client index keeps the token. */
  function WithoutTicket(tb: Tables, token: string): Tables {
    tb.(tickets := tb.tickets - {token})
  }

  /** `invalidate_client_admit_tickets` */
  function WithoutClient(tb: Tables, client: string): Tables {
    tb.(tickets := tb.tickets - ListedUnder(tb.byClient, client), byClient := tb.byClient - {client})
  }

  function TicketUnder(tb: Tables, token: string): Option<Ticket> {
    if token in tb.tickets then Some(tb.tickets[token]) else None
  }

  function SessionUnder(tb: Tables, client: string): Option<Session> {
    if client in tb.sessions then Some(tb.sessions[client]) else None
  }

  /** A ticket that has been taken out of the table and matches the frame that named it. */
  datatype Redemption = Redemption(client: string, session: Session, ticket: Ticket, execution: Execution)

  /** What a handler does once its receipt exists. */
  datatype Next =
    | Hangup
    | Resume(client: string, session: Session)
    | Grant(admission: Admission)
    | Settle(redemption: Redemption)

  /** Where the handler of a connection stands. */
  datatype Phase =
    | Fresh
    | Idle(client: string, session: Session)
    | Doomed(client: string, reason: KillReason, x: Outside)
    | Reporting(core: Core, next: Next)
    | Granted(admission: Admission, at: nat)
    | Calling(redemption: Redemption)
    | Awaiting(redemption: Redemption)
    | Closed

  /** Why a receipt was made. */
  datatype Cause = Plain | ForAdmission(admission: Admission) | ForRedemption(redemption: Redemption)

  datatype Entry = Entry(receipt: Receipt, cause: Cause)

  /** A call of Gold, whatever becomes of it, and how many receipts there were when it was made. */
  datatype GoldCall = GoldCall(redemption: Redemption, at: nat)

  /** How a call of Gold ends: with an answer, or with an exception such as a timeout or an answer that is no object. */
  datatype GoldAnswer = Answered(ok: bool) | Raised

  datatype Claim = Pending(conn: nat) | Issued(token: string)

  datatype Place = Live | Held(conn: nat) | Recorded(at: nat)

  /**
   The proxy and its history. `history`, `golds`, `answers`, `grants`, `claims` and `places` are for reasoning only:
   all receipts in the order of their making, all Gold calls, how the call for each token ended, the admission
   receipt behind each token, who may still turn an admission receipt into a token, and where each token has gone.
   */
  datatype State = State(
    tables: Tables,
    head: string,
    conns: map<nat, Phase>,
    history: seq<Entry>,
    golds: seq<GoldCall>,
    answers: map<string, GoldAnswer>,
    grants: map<string, nat>,
    claims: map<nat, Claim>,
    places: map<string, Place>)

  datatype Frame = EndOfStream | Malformed | NotObject | Message(msg: Dict)

  datatype Event =
    | HostRegister(client: string, slot: Slot)
    | HostUnregister(client: string)
    | InvalidateAll
    | InvalidateClient(client: string)
    | Connect(conn: nat)
    | Receive(conn: nat, frame: Frame, x: Outside)
    | PopRegistry(conn: nat)
    | MakeReceipt(conn: nat)
    | StoreTicket(conn: nat, token: string)
    | CallGold(conn: nat)
    | GoldEnds(conn: nat, answer: GoldAnswer, now: string)
    | Break(conn: nat)

  ghost function Moved(s: State, c: nat, ph: Phase): State {
    s.(conns := s.conns[c := ph])
  }

  function OutcomeExtra(r: Redemption, ok: bool): Extra {
    GoldOutcome(ok, r.ticket.admitReceiptId)
  }

  ghost function ReceiveFirst(w: World, s: State, c: nat, frame: Frame, x: Outside): State {
    if !frame.Message? then Moved(s, c, Closed)
    else
      match RegisterFrame(w, s.tables.registry, frame.msg, x)
      case Drop => Moved(s, c, Closed)
      case Refuse(core) => Moved(s, c, Reporting(core, Hangup))
      case Accept(client, session) =>
        Moved(s, c, Idle(client, session)).(tables := s.tables.(sessions := s.tables.sessions[client := session]))
  }

  ghost function ReceiveAdmit(w: World, s: State, c: nat, client: string, session: Session, msg: Dict,
                              x: Outside): State {
    match AdmitFrame(w, client, session, msg, x)
    case KillAdmit(reason) => Moved(s, c, Doomed(client, reason, x))
    case Reject(core) => Moved(s, c, Reporting(core, Resume(client, session)))
    case Admit(a) => Moved(s, c, Reporting(AdmittedCore(w, a), Grant(a)))
  }

  /** The handler of `c` has taken a live ticket out of the table. */
  ghost function Taken(s: State, c: nat, token: string): State {
    s.(tables := WithoutTicket(s.tables, token), places := s.places[token := Held(c)])
  }

  /** What follows from the checks on a redeemed ticket. */
  ghost function PhaseAfter(w: World, r: Redemption, v: ExecuteVerdict, x: Outside): Phase {
    match v
    case KillExecute(reason) => Doomed(r.client, reason, x)
    case Fail => Closed
    case Unscoped(detail) =>
      var extra := ScopeOutcome(detail, r.ticket.admitReceiptId);
      Reporting(OutcomeCore(w, r.client, r.session, r.ticket, r.execution.proposal, extra, x.now), Settle(r))
    case Invoke => Calling(r)
  }

  ghost function ReceiveExecute(w: World, s: State, c: nat, client: string, session: Session, msg: Dict,
                                x: Outside): State {
    match ExecutionOf(msg)
    case None => Moved(s, c, Doomed(client, ExecuteMalformed, x))
    case Some(e) =>
      match TicketUnder(s.tables, e.token)
      case None => Moved(s, c, Doomed(client, NotAdmitted, x))
      case Some(ticket) =>
        var v := ExecuteFrame(w, client, e, ticket);
        Moved(Taken(s, c, e.token), c, PhaseAfter(w, Redemption(client, session, ticket, e), v, x))
  }

  ghost function ReceiveNext(w: World, s: State, c: nat, client: string, session: Session, frame: Frame,
                             x: Outside): State {
    match frame
    case EndOfStream => Moved(s, c, Closed).(tables := WithoutClient(s.tables, client))
    case Malformed => Moved(s, c, Doomed(client, MalformedFrame, x))
    case NotObject => Moved(s, c, Doomed(client, NotAnObject, x))
    case Message(msg) =>
      var op := Get(msg, "op");
      if op == VStr("invoke") then Moved(s, c, Doomed(client, BareInvoke, x))
      else if op == VStr("admit") then ReceiveAdmit(w, s, c, client, session, msg, x)
      else if op == VStr("execute") then ReceiveExecute(w, s, c, client, session, msg, x)
      else Moved(s, c, Doomed(client, UnknownOp(op), x))
  }

  /** `_kill_client_subprocess` up to its receipt. */
  ghost function Unlisted(w: World, s: State, c: nat, client: string, reason: KillReason, x: Outside): State {
    Moved(s, c, Reporting(KillCore(w, client, SessionUnder(s.tables, client), reason, x), Hangup))
    .(tables := s.tables.(registry := s.tables.registry - {client}))
  }

  /** `next_receipt` */
  ghost function Appended(w: World, s: State, core: Core, cause: Cause): State {
    var r := Receipt(w.receiptId(s.head, core), s.head, core);
    s.(head := r.id, history := s.history + [Entry(r, cause)])
  }

  ghost function Reported(w: World, s: State, c: nat, core: Core, next: Next): State {
    match next
    case Hangup => Moved(Appended(w, s, core, Plain), c, Closed)
    case Resume(client, session) => Moved(Appended(w, s, core, Plain), c, Idle(client, session))
    case Grant(a) =>
      Moved(Appended(w, s, core, ForAdmission(a)), c, Granted(a, |s.history|))
      .(claims := s.claims[|s.history| := Pending(c)])
    case Settle(r) =>
      Moved(Appended(w, s, core, ForRedemption(r)), c, Idle(r.client, r.session))
      .(places := s.places[r.execution.token := Recorded(|s.history|)])
  }

  /** The ticket goes into both tables under a token never used before. */
  ghost function Stored(w: World, s: State, c: nat, a: Admission, at: nat, token: string): State
    requires at < |s.history|
  {
    Moved(s, c, Idle(a.client, a.session))
    .(tables := WithTicket(s.tables, token, TicketOf(w, a, s.history[at].receipt.id)),
      grants := s.grants[token := at],
      claims := s.claims[at := Issued(token)],
      places := s.places[token := Live])
  }

  /** `invoke_gold` is entered. From here on Gold may have acted, whether or not it answers. */
  ghost function Called(s: State, c: nat, r: Redemption): State {
    Moved(s, c, Awaiting(r)).(golds := s.golds + [GoldCall(r, |s.history|)])
  }

  ghost function Ended(w: World, s: State, c: nat, r: Redemption, answer: GoldAnswer, now: string): State {
    var s' := s.(answers := s.answers[r.execution.token := answer]);
    match answer
    case Raised => Moved(s', c, Closed)
    case Answered(ok) =>
      var core := OutcomeCore(w, r.client, r.session, r.ticket, r.execution.proposal, OutcomeExtra(r, ok), now);
      Moved(s', c, Reporting(core, Settle(r)))
  }

  /** A step of one connection, if its phase allows it. */
  ghost function ConnStep(w: World, s: State, e: Event): State
    requires e.Receive? || e.PopRegistry? || e.MakeReceipt? || e.StoreTicket? || e.CallGold? || e.GoldEnds?
    requires e.conn in s.conns
  {
    match (e, s.conns[e.conn])
    case (Receive(c, frame, x), Fresh) => ReceiveFirst(w, s, c, frame, x)
    case (Receive(c, frame, x), Idle(client, session)) => ReceiveNext(w, s, c, client, session, frame, x)
    case (PopRegistry(c), Doomed(client, reason, x)) => Unlisted(w, s, c, client, reason, x)
    case (MakeReceipt(c), Reporting(core, next)) => Reported(w, s, c, core, next)
    case (StoreTicket(c, token), Granted(a, at)) =>
      if token !in s.grants && at < |s.history| then Stored(w, s, c, a, at, token) else s
    case (CallGold(c), Calling(r)) => Called(s, c, r)
    case (GoldEnds(c, answer, now), Awaiting(r)) => Ended(w, s, c, r, answer, now)
    case _ => s
  }

  /** One step; an event that is not possible changes nothing. `Break` is a handler that ends by an exception. */
  ghost function Step(w: World, s: State, e: Event): State {
    match e
    case HostRegister(client, slot) => s.(tables := s.tables.(registry := s.tables.registry[client := slot]))
    case HostUnregister(client) => s.(tables := s.tables.(registry := s.tables.registry - {client}))
    case InvalidateAll => s.(tables := s.tables.(tickets := map[], byClient := map[]))
    case InvalidateClient(client) => s.(tables := WithoutClient(s.tables, client))
    case Connect(c) => if c in s.conns then s else Moved(s, c, Fresh)
    case Break(c) => if c in s.conns then Moved(s, c, Closed) else s
    case _ => if e.conn in s.conns then ConnStep(w, s, e) else s
  }

  ghost function Run(w: World, s: State, es: seq<Event>): State {
    if es == [] then s else Step(w, Run(w, s, es[..|es| - 1]), es[|es| - 1])
  }

  /** A proxy that has just been started on a chain head. */
  ghost function Start(registry: map<string, Slot>, head: string): State {
    State(Tables(registry, map[], map[], map[]), head, map[], [], [], map[], map[], map[], map[])
  }
}
