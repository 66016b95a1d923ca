/** How the lines of a stream are cut, what each turn settles, and that no request is lost or overtaken. */
module ClientVerdicts {
  import opened Texts
  import opened ClientQueue
  import opened ClientRuns

  // ---------------------------------------------------------------------------- lines

  /** The lines, each followed by its newline. */
  function Ended(lines: seq<Text>): Text {
    if lines == [] then [] else lines[0] + [NEWLINE] + Ended(lines[1..])
  }

  /** The lines and the tail make up the stream, and none of them holds a newline. */
  lemma {:induction false} LinesAreCut(t: Text)
    ensures t == Ended(Lines(t)) + Tail(t)
    ensures NEWLINE !in Tail(t) && forall i | 0 <= i < |Lines(t)| :: NEWLINE !in Lines(t)[i]
    decreases |t|
  {
    LinesUnfold(t);
    hide Lines, Tail;
    if FirstNewline(t).Some? {
      var i := FirstNewline(t).value;
      LinesAreCut(t[i + 1..]);
      assert Lines(t)[1..] == Lines(t[i + 1..]);
      assert t == t[..i] + [NEWLINE] + t[i + 1..];
    }
  }

  // ---------------------------------------------------------------------- settlements

  /** The first settlement of an id is its outcome, where no id is settled twice. */
  lemma {:induction false} OutcomeIsRecorded(log: seq<Settlement>, i: nat)
    requires i < |log| && Distinct(Ids(log))
    ensures OutcomeIn(log, log[i].id) == Some(log[i].outcome)
  {
    var n := |log| - 1;
    if i < n {
      assert Ids(log)[i] != Ids(log)[n];
      assert forall k | 0 <= k < n :: Ids(log[..n])[k] == Ids(log)[k];
      OutcomeIsRecorded(log[..n], i);
    }
  }

  /** These ids are settled in this way, in this order, and no others. */
  ghost predicate Adds(c: Client, c': Client, ids: seq<nat>, o: Outcome) {
    && |c'.wire.settled| == |c.wire.settled| + |ids| && c.wire.settled == c'.wire.settled[..|c.wire.settled|]
    && forall k | 0 <= k < |ids| :: c'.wire.settled[|c.wire.settled| + k] == Settlement(ids[k], o)
  }

  lemma {:induction false} RejectionsAre(ids: seq<nat>, o: Outcome)
    ensures |Rejections(ids, o)| == |ids|
    ensures forall k | 0 <= k < |ids| :: Rejections(ids, o)[k] == Settlement(ids[k], o)
  {
    if ids != [] {
      RejectionsAre(ids[1..], o);
    }
  }

  lemma RejectAdds(c: Client, ids: seq<nat>, o: Outcome)
    ensures Adds(c, Reject(c, ids, o), ids, o)
  {
    RejectionsAre(ids, o);
    hide IsSettled;
  }

  /** The session promise is rejected by this turn. */
  predicate LosesSession(agrees: Text -> bool, c: Client, e: Event) {
    || (e.Connect? && !e.ok && c.opening.Connecting?)
    || (e.FinishOpening? && c.opening.Registering? && OutcomeOf(c.wire, c.opening.id).Some?
        && var o := OutcomeOf(c.wire, c.opening.id).value;
           !(o.Answered? && agrees(o.line)))
  }

  /**
   The requests that a failed session takes with it: what is pending, unless the client was poisoned, and who waits.
   */
  function LostWithSession(c: Client): seq<nat> {
    (if c.poisoned then [] else c.wire.pending) + c.waiting
  }

  lemma SessionLossAdds(c: Client)
    ensures Adds(c, SessionLost(c), LostWithSession(c), SessionFailed)
  {
    var c1 := c.(session := false, opening := NotOpening, waiting := []);
    if c.poisoned {
      RejectAdds(c1, c.waiting, SessionFailed);
      assert [] + c.waiting == c.waiting;
    } else {
      var c2 := c1.(connected := false, wire := c1.wire.(inbound := [], pending := []));
      RejectAdds(c2, c.wire.pending, SessionFailed);
      RejectAdds(Reject(c2, c.wire.pending, SessionFailed), c.waiting, SessionFailed);
    }
    hide Reject;
  }

  /** Which requests a turn settles, and how. Arriving data settle by `LinesSettle`. */
  lemma TurnSettles(accepts: Text -> bool, agrees: Text -> bool, c: Client, e: Event)
    requires !e.Data?
    ensures var c' := Step(accepts, agrees, c, e);
            var p := c.wire.pending;
            if e.Request? && c.poisoned then Adds(c, c', [c.next], ConnectionLost)
            else if LosesSession(agrees, c, e) then Adds(c, c', LostWithSession(c), SessionFailed)
            else if e.Proceed? && c.ready != [] && !c.connected then Adds(c, c', [c.ready[0]], NoSocket)
            else if e.RunNext? && c.ops != [] && c.running.None? && c.poisoned then
              Adds(c, c', [c.ops[0]], ConnectionLost)
            else if e.Lost? && !c.poisoned then Adds(c, c', p, ConnectionLost)
            else if e.WriteFailed? && e.id in c.written && p != [] then Adds(c, c', [p[|p| - 1]], WriteError)
            else if e.WriteFailed? && e.id in c.written && !IsSettled(c.wire, e.id) then Adds(c, c', [e.id], WriteError)
            else if e.RegisterWriteFailed? && e.id in c.registered && !IsSettled(c.wire, e.id) then
              Adds(c, c', [e.id], WriteError)
            else c'.wire.settled == c.wire.settled
  {
    hide Reject, SessionLost, OutcomeIn, IsSettled, LostWithSession;
    match e
    case Request => RejectAdds(c.(next := c.next + 1), [c.next], ConnectionLost);
    case Connect(ok) => SessionLossAdds(c);
    case FinishOpening => SessionLossAdds(c);
    case Proceed =>
      if c.ready != [] {
        RejectAdds(c.(ready := c.ready[1..]), [c.ready[0]], NoSocket);
      }
    case RunNext =>
      if c.ops != [] {
        RejectAdds(c.(ops := c.ops[1..]), [c.ops[0]], ConnectionLost);
      }
    case Lost =>
      RejectAdds(c.(poisoned := true, session := false, connected := false,
                    wire := c.wire.(inbound := [], pending := [])), c.wire.pending, ConnectionLost);
    case WriteFailed(id) =>
      var p := c.wire.pending;
      if p != [] {
        RejectAdds(c.(wire := c.wire.(pending := p[..|p| - 1])), [p[|p| - 1]], WriteError);
      }
      RejectAdds(c, [id], WriteError);
    case RegisterWriteFailed(id) =>
      var p := c.wire.pending;
      RejectAdds(if p == [] then c else c.(wire := c.wire.(pending := p[..|p| - 1])), [id], WriteError);
    case _ =>
  }

  /** The frame of the next operation goes out in this turn. */
  predicate WritesFrame(c: Client, e: Event) {
    e.RunNext? && c.ops != [] && c.running.None? && !c.poisoned
  }

  /** The registration frame goes out in this turn. */
  predicate WritesRegistration(c: Client, e: Event) {
    e == Connect(true) && c.opening.Connecting?
  }

  /** What a turn does to the client's flags, its frames and what is pending. */
  ghost predicate TurnIs(agrees: Text -> bool, c: Client, e: Event, c': Client) {
    var resets := !c.poisoned && (e.Lost? || LosesSession(agrees, c, e));
    && (c'.poisoned <==> c.poisoned || e.Lost?)
    && (c'.connected <==> WritesRegistration(c, e) || (c.connected && !resets))
    && (c'.session <==> (e.Request? && !c.poisoned) || (c.session && !resets && !LosesSession(agrees, c, e)))
    && (c'.opening.Connecting? <==>
          || (e.Request? && !c.poisoned && !c.session) || (c.opening.Connecting? && !e.Connect?))
    && (WritesRegistration(c, e) ==> c'.opening == Registering(c.next))
    && (c'.opening.Registering? ==> WritesRegistration(c, e) || c'.opening == c.opening)
    && c'.written == (if WritesFrame(c, e) then c.written + [c.ops[0]] else c.written)
    && c'.registered == (if WritesRegistration(c, e) then c.registered + [c.next] else c.registered)
    && (WritesFrame(c, e) ==> c'.wire.pending == c.wire.pending + [c.ops[0]] && c'.running == Some(c.ops[0]))
    && (WritesRegistration(c, e) ==> c'.wire.pending == c.wire.pending + [c.next])
    && (resets ==> c'.wire.pending == [] && c'.wire.inbound == [])
  }

  lemma SessionLossTells(c: Client)
    ensures var c' := SessionLost(c);
            && c' == c.(session := false, opening := NotOpening, waiting := [], connected := c.poisoned && c.connected,
                        wire := c'.wire, running := c'.running)
            && (!c.poisoned ==> c'.wire.pending == [] && c'.wire.inbound == [])
  {
    hide IsSettled, Rejections;
  }

  /** A rejection leaves everything but the settlements and the running operation as it is. */
  lemma RejectKeepsRest(c: Client, ids: seq<nat>, o: Outcome)
    ensures var c' := Reject(c, ids, o);
            && c' == c.(wire := c'.wire, running := c'.running)
            && c'.wire.pending == c.wire.pending && c'.wire.inbound == c.wire.inbound
  {
    hide IsSettled, Rejections;
  }

  lemma PlainTurnTells(accepts: Text -> bool, agrees: Text -> bool, c: Client, e: Event)
    requires e.Request? || e.Proceed? || e.RunNext? || e.Data?
    ensures TurnIs(agrees, c, e, Step(accepts, agrees, c, e))
  {
    RejectKeepsRest(c.(next := c.next + 1), [c.next], ConnectionLost);
    if c.ready != [] {
      RejectKeepsRest(c.(ready := c.ready[1..]), [c.ready[0]], NoSocket);
    }
    if c.ops != [] {
      RejectKeepsRest(c.(ops := c.ops[1..]), [c.ops[0]], ConnectionLost);
    }
    hide Drain, Reject, IsSettled;
  }

  lemma SessionTurnTells(accepts: Text -> bool, agrees: Text -> bool, c: Client, e: Event)
    requires e.Connect? || e.FinishOpening?
    ensures TurnIs(agrees, c, e, Step(accepts, agrees, c, e))
  {
    SessionLossTells(c);
    hide OutcomeIn, SessionLost;
  }

  lemma LossTurnTells(accepts: Text -> bool, agrees: Text -> bool, c: Client)
    ensures TurnIs(agrees, c, Lost, Step(accepts, agrees, c, Lost))
  {
    RejectKeepsRest(c.(poisoned := true, session := false, connected := false,
                       wire := c.wire.(inbound := [], pending := [])), c.wire.pending, ConnectionLost);
    hide Reject;
  }

  lemma WriteTurnTells(accepts: Text -> bool, agrees: Text -> bool, c: Client, e: Event)
    requires e.WriteFailed? || e.RegisterWriteFailed?
    ensures TurnIs(agrees, c, e, Step(accepts, agrees, c, e))
  {
    var p := c.wire.pending;
    RejectKeepsRest(c, [e.id], WriteError);
    if p != [] {
      var c1 := c.(wire := c.wire.(pending := p[..|p| - 1]));
      RejectKeepsRest(c1, [p[|p| - 1]], WriteError);
      RejectKeepsRest(c1, [e.id], WriteError);
    }
    hide Reject, IsSettled;
  }

  /** When a client is poisoned, connected and in a session, when it opens one, and when a frame goes out. */
  lemma TurnTells(accepts: Text -> bool, agrees: Text -> bool, c: Client, e: Event)
    ensures TurnIs(agrees, c, e, Step(accepts, agrees, c, e))
  {
    hide Step, TurnIs;
    if e.Request? || e.Proceed? || e.RunNext? || e.Data? {
      PlainTurnTells(accepts, agrees, c, e);
    } else if e.Connect? || e.FinishOpening? {
      SessionTurnTells(accepts, agrees, c, e);
    } else if e.Lost? {
      LossTurnTells(accepts, agrees, c);
    } else {
      WriteTurnTells(accepts, agrees, c, e);
    }
  }

  // ------------------------------------------------------------------------- sessions

  /**
   A line that answers the registration: if it parses and agrees, the session opens and every request that waits is
   let through, in order; otherwise the session is lost.
   */
  lemma RegistrationIsAnswered(accepts: Text -> bool, agrees: Text -> bool, c: Client, line: Text)
    requires Invariant(c) && c.opening.Registering? && c.wire.pending == [c.opening.id] && c.wire.inbound == []
    requires NEWLINE !in line
    ensures var c1 := Step(accepts, agrees, c, Data(line + [NEWLINE]));
            var c2 := Step(accepts, agrees, c1, FinishOpening);
            && c1.opening == c.opening && c2.opening.NotOpening? && c2.waiting == []
            && c1.wire.settled
               == c.wire.settled + [Settlement(c.opening.id, if accepts(line) then Answered(line) else BadJson)]
            && (accepts(line) && agrees(line) ==>
                  && c2.ready == c.ready + c.waiting
                  && c2 == c1.(opening := NotOpening, waiting := [], ready := c2.ready))
            && (!(accepts(line) && agrees(line)) ==> !c2.session && c2.ready == c.ready
                                                     && Adds(c1, c2, LostWithSession(c1), SessionFailed))
  {
    var id := c.opening.id;
    var c1 := Step(accepts, agrees, c, Data(line + [NEWLINE]));
    LineSettles(accepts, c.wire, id, line);
    OutcomeIsLast(c.wire.settled, Settlement(id, if accepts(line) then Answered(line) else BadJson));
    assert c1.wire.settled == c.wire.settled + [Settlement(id, if accepts(line) then Answered(line) else BadJson)];
    SessionLossAdds(c1);
    hide Drain, Reject, OutcomeIn, Invariant, IsSettled;
  }

  lemma OutcomeIsLast(log: seq<Settlement>, last: Settlement)
    ensures OutcomeIn(log + [last], last.id) == Some(last.outcome)
  {
  }

  lemma LineSettles(accepts: Text -> bool, w: Wire, id: nat, line: Text)
    requires w.pending == [id] && w.inbound == [] && NEWLINE !in line
    ensures Arrived(accepts, w, line + [NEWLINE])
            == Wire([], [], w.settled + [Settlement(id, if accepts(line) then Answered(line) else BadJson)])
  {
    OneLine(line);
    var t := line + [NEWLINE];
    assert [] + t == t;
    DrainUnfold(accepts, w.(inbound := t));
    DrainUnfold(accepts, Wire([], [], w.settled + [Settlement(id, if accepts(line) then Answered(line) else BadJson)]));
    hide Drain;
  }

  // -------------------------------------------------------------- nothing is forgotten

  /** The number is queued, running, settled, or that of a registration. */
  ghost predicate Found(c: Client, id: nat) {
    id in Queued(c) || c.running == Some(id) || id in Ids(c.wire.settled) || id in c.registered
  }

  /** Every number given out is accounted for. */
  ghost predicate NothingLost(c: Client) {
    forall id | 0 <= id < c.next :: Found(c, id)
  }

  lemma SettledStay(c: Client, c': Client, ids: seq<nat>, o: Outcome)
    requires Adds(c, c', ids, o)
    ensures forall id | id in Ids(c.wire.settled) || id in ids :: id in Ids(c'.wire.settled)
  {
    var n := |c.wire.settled|;
    forall id | id in Ids(c.wire.settled)
      ensures id in Ids(c'.wire.settled)
    {
      var k :| 0 <= k < n && Ids(c.wire.settled)[k] == id;
      assert Ids(c'.wire.settled)[k] == c'.wire.settled[..n][k].id;
    }
    forall id | id in ids
      ensures id in Ids(c'.wire.settled)
    {
      var k :| 0 <= k < |ids| && ids[k] == id;
      assert Ids(c'.wire.settled)[n + k] == id;
    }
  }

  /** Whatever was accounted for still is, and so is the one number that may be new. */
  lemma StillFound(c: Client, c': Client)
    requires NothingLost(c) && c.next <= c'.next <= c.next + 1
    requires c'.next == c.next + 1 ==> Found(c', c.next)
    requires forall id | id in Queued(c) :: Found(c', id)
    requires forall id | id in Ids(c.wire.settled) :: id in Ids(c'.wire.settled)
    requires forall id | id in c.registered :: id in c'.registered
    requires c.running.Some? ==> Found(c', c.running.value)
    ensures NothingLost(c')
  {
    hide Ids, Queued;
    forall id | 0 <= id < c'.next
      ensures Found(c', id)
    {
      assert id < c.next ==> Found(c, id);
    }
  }

  /** Rejecting some promises keeps everything else in its place. */
  lemma RejectKeepsFound(c: Client, ids: seq<nat>, o: Outcome)
    ensures var c' := Reject(c, ids, o);
            && (forall id | Found(c, id) || id in ids :: Found(c', id))
            && (forall id | id in Ids(c.wire.settled) :: id in Ids(c'.wire.settled))
            && c' == c.(wire := c'.wire, running := c'.running)
  {
    RejectAdds(c, ids, o);
    RejectMovesNothing(c, ids, o);
    var c' := Reject(c, ids, o);
    SettledStay(c, c', ids, o);
    if c.running.Some? {
      SettledMeans(c'.wire, c.running.value);
    }
    hide Reject, Ids, IsSettled, Adds;
  }

  lemma DataKeepsFound(accepts: Text -> bool, c: Client, chunk: Text)
    requires Invariant(c) && NothingLost(c)
    ensures NothingLost(WithWire(c, Arrived(accepts, c.wire, chunk)))
  {
    var w := Arrived(accepts, c.wire, chunk);
    DrainOne(accepts, c.wire.(inbound := c.wire.inbound + chunk));
    RunningIs(c, w);
    hide Drain, Ids, IsSettled;
    StillFound(c, WithWire(c, w));
  }

  lemma SessionLossKeepsFound(c: Client)
    requires NothingLost(c)
    ensures NothingLost(SessionLost(c))
  {
    SessionLossAdds(c);
    SettledStay(c, SessionLost(c), LostWithSession(c), SessionFailed);
    SessionLossRuns(c);
    SessionLossMoves(c);
    if c.running.Some? {
      SettledMeans(SessionLost(c).wire, c.running.value);
    }
    hide SessionLost, Ids, Adds, IsSettled;
    StillFound(c, SessionLost(c));
  }

  lemma SessionLossRuns(c: Client)
    ensures var c' := SessionLost(c);
            c'.running == c.running || (c.running.Some? && IsSettled(c'.wire, c.running.value))
  {
    var c1 := c.(session := false, opening := NotOpening, waiting := []);
    var c2 := c1.(connected := false, wire := c1.wire.(inbound := [], pending := []));
    if c.poisoned {
      RejectMovesNothing(c1, c.waiting, SessionFailed);
    } else {
      var c3 := Reject(c2, c.wire.pending, SessionFailed);
      RejectMovesNothing(c2, c.wire.pending, SessionFailed);
      RejectMovesNothing(c3, c.waiting, SessionFailed);
      if c.running.Some? && IsSettled(c3.wire, c.running.value) {
        RejectKeepsFound(c3, c.waiting, SessionFailed);
        SettledMeans(c3.wire, c.running.value);
        SettledMeans(SessionLost(c).wire, c.running.value);
      }
    }
    hide Reject, IsSettled;
  }

  lemma RequestKeepsFound(c: Client)
    requires NothingLost(c)
    ensures NothingLost(Requested(c))
  {
    var c1 := c.(next := c.next + 1);
    RejectKeepsFound(c1, [c.next], ConnectionLost);
    hide Reject, Ids;
    forall id | Found(c, id)
      ensures Found(Requested(c), id)
    {
      assert Found(c1, id);
    }
    StillFound(c, Requested(c));
  }

  lemma ProceedKeepsFound(accepts: Text -> bool, agrees: Text -> bool, c: Client)
    requires NothingLost(c)
    ensures NothingLost(Step(accepts, agrees, c, Proceed))
  {
    if c.ready != [] {
      var id, rest := c.ready[0], c.ready[1..];
      assert c.ready == [id] + rest;
      var c1 := c.(ready := rest);
      RejectKeepsFound(c1, [id], NoSocket);
      hide Reject, Ids;
      forall x | Found(c, x)
        ensures Found(Step(accepts, agrees, c, Proceed), x)
      {
        assert x == id || Found(c1, x);
      }
      StillFound(c, Step(accepts, agrees, c, Proceed));
    }
  }

  lemma RunNextKeepsFound(c: Client)
    requires NothingLost(c) && c.ops != [] && c.running.None?
    ensures NothingLost(Ran(c))
  {
    var id, rest := c.ops[0], c.ops[1..];
    assert c.ops == [id] + rest;
    var c1 := c.(ops := rest);
    RejectKeepsFound(c1, [id], ConnectionLost);
    hide Reject, Ids;
    forall x | Found(c, x)
      ensures Found(Ran(c), x)
    {
      assert x == id || Found(c1, x);
    }
    StillFound(c, Ran(c));
  }

  lemma FinishKeepsFound(agrees: Text -> bool, c: Client)
    requires NothingLost(c) && c.opening.Registering?
    ensures NothingLost(Finished(agrees, c))
  {
    SessionLossKeepsFound(c);
    hide SessionLost, Ids, OutcomeIn;
    if Finished(agrees, c) != SessionLost(c) {
      StillFound(c, Finished(agrees, c));
    }
  }

  /** A loss or a failed write settles numbers and moves none. */
  lemma LossKeepsFound(c: Client, id: nat)
    requires NothingLost(c)
    ensures NothingLost(Poisoned(c)) && NothingLost(FailedWrite(c, id)) && NothingLost(FailedRegisterWrite(c, id))
  {
    var p := c.wire.pending;
    PromisesKeepFound(c, c.(poisoned := true, session := false, connected := false,
                            wire := c.wire.(inbound := [], pending := [])), p, ConnectionLost);
    PromisesKeepFound(c, c, [id], WriteError);
    if p != [] {
      var shorter := c.(wire := c.wire.(pending := p[..|p| - 1]));
      PromisesKeepFound(c, shorter, [p[|p| - 1]], WriteError);
      PromisesKeepFound(c, shorter, [id], WriteError);
    }
    hide Reject, IsSettled;
  }

  lemma PromisesKeepFound(c: Client, c1: Client, ids: seq<nat>, o: Outcome)
    requires NothingLost(c)
    requires c1 == c.(poisoned := c1.poisoned, session := c1.session, connected := c1.connected, wire := c1.wire)
    requires c1.wire.settled == c.wire.settled
    ensures NothingLost(Reject(c1, ids, o)) && NothingLost(c1)
  {
    RejectKeepsFound(c1, ids, o);
    hide Reject;
    assert forall id | 0 <= id < c.next :: Found(c, id) ==> Found(c1, id);
  }

  lemma TurnLosesNothing(accepts: Text -> bool, agrees: Text -> bool, c: Client, e: Event)
    requires Invariant(c) && NothingLost(c)
    ensures NothingLost(Step(accepts, agrees, c, e))
  {
    hide Requested, SessionLost, Finished, Poisoned, Ran, FailedWrite, FailedRegisterWrite, Drain, NothingLost,
         Invariant;
    match e
    case Request => RequestKeepsFound(c);
    case Connect(ok) =>
      if c.opening.Connecting? && ok {
        RegisteredKeepsFound(c);
      } else {
        SessionLossKeepsFound(c);
      }
    case Data(chunk) => DataKeepsFound(accepts, c, chunk);
    case FinishOpening =>
      if c.opening.Registering? {
        FinishKeepsFound(agrees, c);
      }
    case Proceed => ProceedKeepsFound(accepts, agrees, c);
    case RunNext =>
      if c.ops != [] && c.running.None? {
        RunNextKeepsFound(c);
      }
    case Lost => LossKeepsFound(c, 0);
    case WriteFailed(id) => LossKeepsFound(c, id);
    case RegisterWriteFailed(id) => LossKeepsFound(c, id);
  }

  lemma RegisteredKeepsFound(c: Client)
    requires NothingLost(c)
    ensures NothingLost(Registered(c))
  {
    hide Ids;
    StillFound(c, Registered(c));
  }

  /** Over every run, every request made is queued, is running or has been settled: none is forgotten. */
  lemma {:induction false} NoRequestIsForgotten(accepts: Text -> bool, agrees: Text -> bool, es: seq<Event>)
    ensures NothingLost(Run(accepts, agrees, Fresh(), es))
  {
    hide Step, Invariant, NothingLost;
    if es != [] {
      var init := es[..|es| - 1];
      NoRequestIsForgotten(accepts, agrees, init);
      RunsKeep(accepts, agrees, init);
      TurnLosesNothing(accepts, agrees, Run(accepts, agrees, Fresh(), init), es[|es| - 1]);
    } else {
      FreshIsInOrder();
    }
  }

  /** Numbers in the order in which they have gone out and will go out. */
  function Line(c: Client): seq<nat> {
    c.written + Queued(c)
  }

  /** Written and queued numbers, in the order in which they go out, ascend: no request overtakes another. */
  ghost predicate InOrder(c: Client) {
    Ascend(Line(c)) && forall id | id in Line(c) :: id < c.next
  }

  ghost predicate Ascend(ids: seq<nat>) {
    forall i, k | 0 <= i < k < |ids| :: ids[i] < ids[k]
  }

  lemma AscendWithout(before: seq<nat>, id: nat, after: seq<nat>)
    requires Ascend(before + [id] + after)
    ensures Ascend(before + after)
    ensures forall x | x in before + after :: x in before + [id] + after
  {
    var all, rest := before + [id] + after, before + after;
    forall i | 0 <= i < |rest|
      ensures rest[i] == all[if i < |before| then i else i + 1]
    {
    }
  }

  lemma SameLine(c: Client, c': Client)
    requires InOrder(c) && Line(c') == Line(c) && c.next <= c'.next
    ensures InOrder(c')
  {
  }

  lemma LongerLine(c: Client, c': Client)
    requires InOrder(c) && Line(c') == Line(c) + [c.next] && c.next < c'.next
    ensures InOrder(c')
  {
    var ids := Line(c);
    hide Line;
    assert forall i | 0 <= i < |ids| :: Line(c')[i] == ids[i] && ids[i] in ids;
  }

  lemma ShorterLine(c: Client, c': Client, before: seq<nat>, id: nat, after: seq<nat>)
    requires InOrder(c) && Line(c) == before + [id] + after && Line(c') == before + after && c.next <= c'.next
    ensures InOrder(c')
  {
    AscendWithout(before, id, after);
  }

  lemma CutLine(c: Client, c': Client, lost: seq<nat>)
    requires InOrder(c) && Line(c) == Line(c') + lost && c.next <= c'.next
    ensures InOrder(c')
  {
    hide Line;
    assert forall i | 0 <= i < |Line(c')| :: Line(c')[i] == Line(c)[i] && Line(c)[i] in Line(c);
  }

  lemma RejectMovesNothing(c: Client, ids: seq<nat>, o: Outcome)
    ensures var c' := Reject(c, ids, o); c' == c.(wire := c'.wire, running := c'.running)
    ensures var c' := Reject(c, ids, o);
            c'.running == c.running || (c.running.Some? && IsSettled(c'.wire, c.running.value) && c'.running.None?)
  {
  }

  lemma RequestKeepsOrder(c: Client)
    requires InOrder(c) && (!c.opening.NotOpening? || c.waiting == [])
    ensures InOrder(Requested(c))
  {
    hide InOrder, Reject;
    if c.poisoned {
      RejectMovesNothing(c.(next := c.next + 1), [c.next], ConnectionLost);
      SameLine(c, Requested(c));
    } else {
      QueueEnds(c);
      assert c.written + (Queued(c) + [c.next]) == Line(c) + [c.next];
      LongerLine(c, Requested(c));
    }
  }

  lemma ProceedKeepsOrder(accepts: Text -> bool, agrees: Text -> bool, c: Client)
    requires InOrder(c)
    ensures InOrder(Step(accepts, agrees, c, Proceed))
  {
    hide InOrder, Reject;
    var c' := Step(accepts, agrees, c, Proceed);
    if c.ready != [] {
      var id, rest := c.ready[0], c.ready[1..];
      assert c.ready == [id] + rest;
      if c.connected {
        assert Line(c') == Line(c);
        SameLine(c, c');
      } else {
        RejectMovesNothing(c.(ready := rest), [id], NoSocket);
        assert Line(c) == (c.written + c.ops) + [id] + (rest + c.waiting);
        assert Line(c') == (c.written + c.ops) + (rest + c.waiting);
        ShorterLine(c, c', c.written + c.ops, id, rest + c.waiting);
      }
    }
  }

  lemma RunNextKeepsOrder(c: Client)
    requires InOrder(c) && c.ops != []
    ensures InOrder(Ran(c))
  {
    hide InOrder, Reject;
    var id, rest := c.ops[0], c.ops[1..];
    if c.poisoned {
      RejectMovesNothing(c.(ops := rest), [id], ConnectionLost);
      LineStartsWith(c);
      ShorterLine(c, Ran(c), c.written, id, rest + c.ready + c.waiting);
    } else {
      LineStartsWith(c);
      SameLine(c, Ran(c));
    }
  }

  lemma LineStartsWith(c: Client)
    requires c.ops != []
    ensures var id, rest := c.ops[0], c.ops[1..];
            && Line(c) == c.written + [id] + (rest + c.ready + c.waiting)
            && Line(c.(ops := rest)) == c.written + (rest + c.ready + c.waiting)
            && Line(c.(ops := rest, written := c.written + [id])) == Line(c)
  {
    var id, rest := c.ops[0], c.ops[1..];
    assert c.ops == [id] + rest;
  }

  lemma SessionLossMoves(c: Client)
    ensures var c' := SessionLost(c);
            && c'.written == c.written && c'.ops == c.ops && c'.ready == c.ready && c'.waiting == []
            && c'.next == c.next && c'.registered == c.registered
            && (c.running.None? ==> c'.running.None?)
  {
  }

  lemma SessionLossKeepsOrder(c: Client)
    requires InOrder(c) && c.ops == [] && c.ready == []
    ensures InOrder(SessionLost(c))
  {
    SessionLossMoves(c);
    hide InOrder, SessionLost;
    assert Line(c) == Line(SessionLost(c)) + c.waiting;
    CutLine(c, SessionLost(c), c.waiting);
  }

  lemma FinishKeepsOrder(agrees: Text -> bool, c: Client)
    requires InOrder(c) && c.opening.Registering? && c.ops == [] && c.ready == []
    ensures InOrder(Finished(agrees, c))
  {
    SessionLossKeepsOrder(c);
    hide InOrder, SessionLost, OutcomeIn;
    if Finished(agrees, c) != SessionLost(c) {
      assert Line(Finished(agrees, c)) == Line(c);
      SameLine(c, Finished(agrees, c));
    }
  }

  lemma TurnKeepsOrder(accepts: Text -> bool, agrees: Text -> bool, c: Client, e: Event)
    requires SessionOk(c) && InOrder(c)
    ensures InOrder(Step(accepts, agrees, c, e))
  {
    hide InOrder, Drain, IsSettled, Requested, SessionLost, Finished, Ran, Rejections;
    match e
    case Request => RequestKeepsOrder(c);
    case Proceed => ProceedKeepsOrder(accepts, agrees, c);
    case RunNext =>
      if c.ops != [] {
        RunNextKeepsOrder(c);
      }
    case FinishOpening =>
      if c.opening.Registering? {
        FinishKeepsOrder(agrees, c);
      }
    case Connect(ok) =>
      if c.opening.Connecting? && !ok {
        SessionLossKeepsOrder(c);
      } else {
        SameLine(c, Step(accepts, agrees, c, e));
      }
    case _ => SameLine(c, Step(accepts, agrees, c, e));
  }

  lemma {:induction false} RunsKeepOrder(accepts: Text -> bool, agrees: Text -> bool, es: seq<Event>)
    ensures InOrder(Run(accepts, agrees, Fresh(), es))
  {
    hide Step, InOrder, NumbersOk, PendingOk, SessionOk, WrittenOk;
    if es != [] {
      var init := es[..|es| - 1];
      var c := Run(accepts, agrees, Fresh(), init);
      RunsKeepOrder(accepts, agrees, init);
      RunsKeep(accepts, agrees, init);
      TurnKeepsOrder(accepts, agrees, c, es[|es| - 1]);
    } else {
      FreshIsInOrder();
    }
  }

  lemma FreshIsInOrder()
    ensures InOrder(Fresh()) && NothingLost(Fresh())
  {
  }

  /**
   Over every run the frames go out in the order of their requests, and no queued request was made before a written
   one.
   */
  lemma FramesGoOutInOrder(accepts: Text -> bool, agrees: Text -> bool, es: seq<Event>, i: nat)
    requires i < |Run(accepts, agrees, Fresh(), es).written|
    ensures var c := Run(accepts, agrees, Fresh(), es);
            && (forall k | i < k < |c.written| :: c.written[i] < c.written[k])
            && (forall id | id in Queued(c) :: c.written[i] < id)
  {
    RunsKeepOrder(accepts, agrees, es);
    var c := Run(accepts, agrees, Fresh(), es);
    hide Run, Queued;
    var all := c.written + Queued(c);
    assert all[i] == c.written[i];
    forall k | i < k < |c.written|
      ensures c.written[i] < c.written[k]
    {
      assert all[k] == c.written[k];
    }
    forall id | id in Queued(c)
      ensures c.written[i] < id
    {
      var k :| 0 <= k < |Queued(c)| && Queued(c)[k] == id;
      assert all[|c.written| + k] == id;
    }
  }
}
