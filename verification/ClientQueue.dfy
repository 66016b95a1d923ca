/** Framing and the pending queue of `ProxyKernelClient.ts`. */
module ClientQueue {
  import opened Texts

  const NEWLINE: Unit := 10

  /** How a promise is settled. */
  datatype Outcome = Answered(line: Text) | BadJson | ConnectionLost | WriteError | SessionFailed | NoSocket

  datatype Settlement = Settlement(id: nat, outcome: Outcome)

  // ----------------------------------------------------------------------- lines

  function FirstNewline(t: Text): Option<nat> {
    IndexOf(NEWLINE, t)
  }

  /** The complete lines of a stream, without their newlines. */
  function Lines(t: Text): seq<Text> {
    if FirstNewline(t).None? then []
    else
      var i := FirstNewline(t).value;
      [t[..i]] + Lines(t[i + 1..])
  }

  /** What follows the last newline. */
  function Tail(t: Text): Text {
    if FirstNewline(t).None? then t
    else
      var i := FirstNewline(t).value;
      Tail(t[i + 1..])
  }

  // ------------------------------------------------------------------------ wire

  /** What has been received and not yet framed, who waits for an answer, and what has been settled. */
  datatype Wire = Wire(inbound: Text, pending: seq<nat>, settled: seq<Settlement>)

  /** `accepts` tells which lines `JSON.parse` takes. */
  function Answer(accepts: Text -> bool, line: Text): Outcome {
    if accepts(line) then Answered(line) else BadJson
  }

  /** The loop of `onData`: a line without a waiter is dropped and ends the loop. */
  function Drain(accepts: Text -> bool, w: Wire): Wire
    decreases |w.inbound|
  {
    match FirstNewline(w.inbound)
    case None => w
    case Some(i) =>
      var rest := w.inbound[i + 1..];
      if w.pending == [] then w.(inbound := rest)
      else
        Drain(accepts, Wire(rest, w.pending[1..],
                            w.settled + [Settlement(w.pending[0], Answer(accepts, w.inbound[..i]))]))
  }

  function Arrived(accepts: Text -> bool, w: Wire, chunk: Text): Wire {
    Drain(accepts, w.(inbound := w.inbound + chunk))
  }

  function Rejections(ids: seq<nat>, o: Outcome): seq<Settlement> {
    if ids == [] then [] else [Settlement(ids[0], o)] + Rejections(ids[1..], o)
  }

  // ---------------------------------------------------------------------- client

  datatype Opening = NotOpening | Connecting | Registering(id: nat)

  /**
   The client between two turns of the event loop. `waiting` holds the requests that await the session promise,
   `ready` those it has let through, `ops` those chained on `opTail`, `running` the operation whose frame has been
   written and whose promise is open, `written` and
   `registered` all request and registration frames written, `next` a number never used.
   */
  datatype Client = Client(
    poisoned: bool,
    session: bool,
    connected: bool,
    opening: Opening,
    wire: Wire,
    waiting: seq<nat>,
    ready: seq<nat>,
    ops: seq<nat>,
    running: Option<nat>,
    written: seq<nat>,
    registered: seq<nat>,
    next: nat)

  datatype Event =
    | Request
    | Connect(ok: bool)
    | Data(chunk: Text)
    | FinishOpening
    | Proceed
    | RunNext
    | Lost
    | WriteFailed(id: nat)
    | RegisterWriteFailed(id: nat)

  function Fresh(): Client {
    Client(false, false, false, NotOpening, Wire([], [], []), [], [], [], None, [], [], 0)
  }

  predicate IsSettled(w: Wire, id: nat) {
    exists i | 0 <= i < |w.settled| :: w.settled[i].id == id
  }

  function OutcomeOf(w: Wire, id: nat): Option<Outcome> {
    OutcomeIn(w.settled, id)
  }

  function OutcomeIn(log: seq<Settlement>, id: nat): (r: Option<Outcome>)
    ensures r.Some? <==> exists i | 0 <= i < |log| :: log[i].id == id
  {
    if log == [] then None
    else if log[|log| - 1].id == id then Some(log[|log| - 1].outcome)
    else OutcomeIn(log[..|log| - 1], id)
  }

  /** The client with new settlements; the running operation ends if it is among them. */
  function WithWire(c: Client, w: Wire): Client {
    c.(wire := w, running := if c.running.Some? && IsSettled(w, c.running.value) then None else c.running)
  }

  function Reject(c: Client, ids: seq<nat>, o: Outcome): Client {
    WithWire(c, c.wire.(settled := c.wire.settled + Rejections(ids, o)))
  }

  /** `request` up to its first await. */
  function Requested(c: Client): Client {
    var id := c.next;
    var c' := c.(next := id + 1);
    if c.poisoned then Reject(c', [id], ConnectionLost)
    else if c.opening.NotOpening? && c.session then c'.(ready := c.ready + [id])
    else c'.(session := true, opening := if c.session then c.opening else Connecting, waiting := c.waiting + [id])
  }

  /** The promise of `openAndRegister` is rejected. */
  function SessionLost(c: Client): Client {
    var c1 := c.(session := false, opening := NotOpening, waiting := []);
    var c2 := if c.poisoned then c1
              else Reject(c1.(connected := false, wire := c1.wire.(inbound := [], pending := [])), c.wire.pending,
                          SessionFailed);
    Reject(c2, c.waiting, SessionFailed)
  }

  /**
   The connection is made: the registration frame is written, whether or not the client has been poisoned meanwhile.
   */
  function Registered(c: Client): Client {
    c.(connected := true, opening := Registering(c.next), registered := c.registered + [c.next], next := c.next + 1,
       wire := c.wire.(pending := c.wire.pending + [c.next]))
  }

  /** `openAndRegister` continues once its registration is settled. `agrees` tells which answers have `ok: true`. */
  function Finished(agrees: Text -> bool, c: Client): Client
    requires c.opening.Registering?
  {
    match OutcomeOf(c.wire, c.opening.id)
    case Some(Answered(line)) =>
      if agrees(line) then c.(opening := NotOpening, ready := c.ready + c.waiting, waiting := []) else SessionLost(c)
    case Some(_) => SessionLost(c)
    case None => c
  }

  /** `poisonFromTransportLoss` */
  function Poisoned(c: Client): Client {
    if c.poisoned then c
    else
      Reject(c.(poisoned := true, session := false, connected := false, wire := c.wire.(inbound := [], pending := [])),
             c.wire.pending, ConnectionLost)
  }

  /** The next operation on `opTail` runs once the one before is settled. */
  function Ran(c: Client): Client
    requires c.ops != []
  {
    var id := c.ops[0];
    var c' := c.(ops := c.ops[1..]);
    if c.poisoned then Reject(c', [id], ConnectionLost)
    else c'.(running := Some(id), written := c.written + [id], wire := c.wire.(pending := c.wire.pending + [id]))
  }

  /** The write callback of frame `id` reports an error: the last waiter is rejected, or the frame's own promise. */
  function FailedWrite(c: Client, id: nat): Client {
    var p := c.wire.pending;
    if p != [] then Reject(c.(wire := c.wire.(pending := p[..|p| - 1])), [p[|p| - 1]], WriteError)
    else if IsSettled(c.wire, id) then c
    else Reject(c, [id], WriteError)
  }

  function FailedRegisterWrite(c: Client, id: nat): Client {
    var p := c.wire.pending;
    var c' := if p == [] then c else c.(wire := c.wire.(pending := p[..|p| - 1]));
    if IsSettled(c.wire, id) then c' else Reject(c', [id], WriteError)
  }

  /** One turn; an event that is not possible changes nothing. */
  function Step(accepts: Text -> bool, agrees: Text -> bool, c: Client, e: Event): Client {
    match e
    case Request => Requested(c)
    case Connect(ok) =>
      if !c.opening.Connecting? then c else if ok then Registered(c) else SessionLost(c)
    case Data(chunk) => WithWire(c, Arrived(accepts, c.wire, chunk))
    case FinishOpening => if c.opening.Registering? then Finished(agrees, c) else c
    case Proceed =>
      if c.ready == [] then c
      else
        var c' := c.(ready := c.ready[1..]);
        if c.connected then c'.(ops := c.ops + [c.ready[0]]) else Reject(c', [c.ready[0]], NoSocket)
    case RunNext => if c.ops != [] && c.running.None? then Ran(c) else c
    case Lost => Poisoned(c)
    case WriteFailed(id) => if id in c.written then FailedWrite(c, id) else c
    case RegisterWriteFailed(id) => if id in c.registered then FailedRegisterWrite(c, id) else c
  }

  function Run(accepts: Text -> bool, agrees: Text -> bool, c: Client, es: seq<Event>): Client {
    if es == [] then c else Step(accepts, agrees, Run(accepts, agrees, c, es[..|es| - 1]), es[|es| - 1])
  }

  // ------------------------------------------------------------------ the object

  lemma {:induction false} RejectionsStep(id: nat, ids: seq<nat>, o: Outcome)
    ensures Rejections([id] + ids, o) == [Settlement(id, o)] + Rejections(ids, o)
  {
    assert ([id] + ids)[1..] == ids;
  }

  lemma EndIsLate(c: Client, w: Wire)
    ensures WithWire(c.(wire := w), w) == WithWire(c, w)
  {
  }

  /** `ProxyKernelClient`. The queues `waiting`, `ready` and `ops` stand for its promise chains. */
  class ProxyKernelClient {
    var poisoned: bool
    var session: bool
    var connected: bool
    var opening: Opening
    var inbound: Text
    var pending: seq<nat>
    var settled: seq<Settlement>
    var waiting: seq<nat>
    var ready: seq<nat>
    var ops: seq<nat>
    var running: Option<nat>
    var written: seq<nat>
    var registered: seq<nat>
    var next: nat
    const accepts: Text -> bool
    const agrees: Text -> bool

    constructor (accepts: Text -> bool, agrees: Text -> bool)
      ensures View() == Fresh() && this.accepts == accepts && this.agrees == agrees
    {
      poisoned, session, connected, opening := false, false, false, NotOpening;
      inbound, pending, settled := [], [], [];
      waiting, ready, ops, running := [], [], [], None;
      written, registered, next := [], [], 0;
      this.accepts, this.agrees := accepts, agrees;
    }

    function View(): Client
      reads this
    {
      Client(poisoned, session, connected, opening, Wire(inbound, pending, settled), waiting, ready, ops, running,
             written, registered, next)
    }

    /** A running operation ends when its promise is settled. */
    method EndRunning()
      modifies this`running
      ensures View() == WithWire(old(View()), old(View()).wire)
    {
      if running.Some? && exists i | 0 <= i < |settled| :: settled[i].id == running.value {
        running := None;
      }
    }

    method OnData(chunk: Text)
      modifies this`inbound, this`pending, this`settled, this`running
      ensures View() == WithWire(old(View()), Arrived(accepts, old(View()).wire, chunk))
    {
      hide WithWire;
      EndIsLate(View(), Arrived(accepts, View().wire, chunk));
      inbound := inbound + chunk;
      ghost var start := Wire(inbound, pending, settled);
      while true
        invariant Drain(accepts, Wire(inbound, pending, settled)) == Drain(accepts, start)
        invariant running == old(running)
        decreases |inbound|
      {
        var i := FirstNewline(inbound);
        if i.None? {
          break;
        }
        var line := inbound[..i.value];
        inbound := inbound[i.value + 1..];
        if pending == [] {
          break;
        }
        var next := pending[0];
        pending := pending[1..];
        settled := settled + [Settlement(next, Answer(accepts, line))];
      }
      EndRunning();
    }

    /** The promises of `ids` are rejected, in order. */
    method RejectEach(ids: seq<nat>, o: Outcome)
      modifies this`settled, this`running
      ensures View() == Reject(old(View()), ids, o)
    {
      var left := ids;
      while left != []
        invariant settled + Rejections(left, o) == old(settled) + Rejections(ids, o)
        invariant running == old(running)
        decreases |left|
      {
        RejectionsStep(left[0], left[1..], o);
        assert left == [left[0]] + left[1..];
        assert settled + [Settlement(left[0], o)] + Rejections(left[1..], o)
            == settled + ([Settlement(left[0], o)] + Rejections(left[1..], o));
        settled := settled + [Settlement(left[0], o)];
        left := left[1..];
      }
      assert settled + [] == settled;
      EndRunning();
    }

    method PoisonFromTransportLoss()
      modifies this
      ensures View() == Poisoned(old(View()))
    {
      hide Reject;
      if poisoned {
        return;
      }
      poisoned := true;
      var lost := pending;
      pending, connected, session, inbound := [], false, false, [];
      RejectEach(lost, ConnectionLost);
    }

    method Request() returns (id: nat)
      modifies this
      ensures View() == Requested(old(View())) && id == old(next)
    {
      id := next;
      next := next + 1;
      if poisoned {
        RejectEach([id], ConnectionLost);
        return;
      }
      if session && opening.NotOpening? {
        ready := ready + [id];
        return;
      }
      if !session {
        session, opening := true, Connecting;
      }
      waiting := waiting + [id];
    }

    /** What a client that has not been poisoned gives up with its session. */
    method DropTransport()
      modifies this
      ensures View() == Reject(old(View()).(connected := false,
                                            wire := old(View()).wire.(inbound := [], pending := [])), old(pending),
                                            SessionFailed)
    {
      hide Reject;
      var lost := pending;
      connected, inbound, pending := false, [], [];
      RejectEach(lost, SessionFailed);
    }

    /** The handler of a rejected session promise. */
    method OnSessionFailed()
      modifies this
      ensures View() == SessionLost(old(View()))
    {
      hide Reject;
      session, opening := false, NotOpening;
      var awaiting := waiting;
      waiting := [];
      if !poisoned {
        DropTransport();
      }
      hide View;
      RejectEach(awaiting, SessionFailed);
    }

    method OnConnected(ok: bool)
      requires opening.Connecting?
      modifies this
      ensures View() == if ok then Registered(old(View())) else SessionLost(old(View()))
    {
      if !ok {
        OnSessionFailed();
        return;
      }
      connected := true;
      opening := Registering(next);
      registered := registered + [next];
      pending := pending + [next];
      next := next + 1;
    }

    method FinishOpening()
      requires opening.Registering?
      modifies this
      ensures View() == Finished(agrees, old(View()))
    {
      var answer := OutcomeIn(settled, opening.id);
      if answer.None? {
        return;
      }
      if answer.value.Answered? && agrees(answer.value.line) {
        opening := NotOpening;
        ready := ready + waiting;
        waiting := [];
      } else {
        OnSessionFailed();
      }
    }

    /** A request goes on once the session promise has let it through. */
    method Proceed()
      modifies this
      ensures View() == Step(accepts, agrees, old(View()), Event.Proceed)
    {
      if ready == [] {
        return;
      }
      var id := ready[0];
      ready := ready[1..];
      if connected {
        ops := ops + [id];
      } else {
        RejectEach([id], NoSocket);
      }
    }

    method RunNext()
      modifies this
      ensures View() == Step(accepts, agrees, old(View()), Event.RunNext)
    {
      if ops == [] || running.Some? {
        return;
      }
      var id := ops[0];
      ops := ops[1..];
      if poisoned {
        RejectEach([id], ConnectionLost);
      } else {
        pending := pending + [id];
        written := written + [id];
        running := Some(id);
      }
    }

    method OnWriteError(id: nat)
      modifies this
      ensures View() == FailedWrite(old(View()), id)
    {
      if pending != [] {
        var last := pending[|pending| - 1];
        pending := pending[..|pending| - 1];
        RejectEach([last], WriteError);
      } else if !IsSettled(View().wire, id) {
        RejectEach([id], WriteError);
      }
    }

    method OnRegisterWriteError(id: nat)
      modifies this
      ensures View() == FailedRegisterWrite(old(View()), id)
    {
      if pending != [] {
        pending := pending[..|pending| - 1];
      }
      if !IsSettled(View().wire, id) {
        RejectEach([id], WriteError);
      }
    }
  }
}
