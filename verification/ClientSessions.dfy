/**
 On one undisturbed session the client's own steps make exactly the traffic whose lines settle its frames in order.
 */
module ClientSessions {
  import opened Texts
  import opened ClientQueue
  import opened ClientRuns

  /** What one turn of the client puts on the wire or takes from it. */
  function TrafficOf(c: Client, e: Event): seq<Traffic> {
    if e.Connect? && e.ok && c.opening.Connecting? then [Sent(c.next)]
    else if e.Data? then [Received(e.chunk)]
    else if e.RunNext? && c.ops != [] && c.running.None? && !c.poisoned then [Sent(c.ops[0])]
    else []
  }

  function TrafficIn(accepts: Text -> bool, agrees: Text -> bool, es: seq<Event>): seq<Traffic> {
    if es == [] then []
    else
      var init := es[..|es| - 1];
      TrafficIn(accepts, agrees, init) + TrafficOf(Run(accepts, agrees, Fresh(), init), es[|es| - 1])
  }

  /** Nothing is lost, no write fails, and the registration, once answered, is accepted. */
  predicate Undisturbed(agrees: Text -> bool, c: Client, e: Event) {
    && !e.Lost? && !e.WriteFailed? && !e.RegisterWriteFailed? && (e.Connect? ==> e.ok)
    && (e.FinishOpening? && c.opening.Registering? && OutcomeOf(c.wire, c.opening.id).Some? ==>
          var outcome := OutcomeOf(c.wire, c.opening.id).value;
          outcome.Answered? && agrees(outcome.line))
  }

  predicate Calm(accepts: Text -> bool, agrees: Text -> bool, es: seq<Event>) {
    es != [] ==>
      && Calm(accepts, agrees, es[..|es| - 1])
      && Undisturbed(agrees, Run(accepts, agrees, Fresh(), es[..|es| - 1]), es[|es| - 1])
  }

  /** There is at most one registration, and nothing is let through before it. */
  predicate OneSession(c: Client) {
    && !c.poisoned && |c.registered| <= 1 && (c.opening.Connecting? ==> c.session)
    && (c.connected <==> c.registered != [])
    && (c.registered != [] ==> c.session && !c.opening.Connecting?)
    && (c.registered == [] ==> c.ready == [] && c.ops == [] && c.written == [] && !c.opening.Registering?
                               && (c.session ==> c.opening.Connecting?))
  }

  lemma FlowOfOne(accepts: Text -> bool, w: Wire, ts: seq<Traffic>, t: Traffic)
    ensures t.Sent? ==> var before := Flow(accepts, w, ts);
            Flow(accepts, w, ts + [t]) == before.(pending := before.pending + [t.id])
    ensures t.Received? ==> Flow(accepts, w, ts + [t]) == Arrived(accepts, Flow(accepts, w, ts), t.chunk)
    ensures Frames(ts + [t]) == if t.Sent? then Frames(ts) + [t.id] else Frames(ts)
  {
    assert (ts + [t])[..|ts|] == ts;
  }

  /** Turns that put nothing on the wire and take nothing from it leave the wire and the frames as they are. */
  lemma QuietTurn(accepts: Text -> bool, agrees: Text -> bool, c: Client, e: Event)
    requires OneSession(c) && Undisturbed(agrees, c, e) && TrafficOf(c, e) == []
    ensures var c' := Step(accepts, agrees, c, e);
            OneSession(c') && c'.wire == c.wire && c'.registered == c.registered && c'.written == c.written
  {
    hide Arrived, OutcomeIn;
  }

  lemma BusyTurn(accepts: Text -> bool, agrees: Text -> bool, c: Client, e: Event)
    requires OneSession(c) && Undisturbed(agrees, c, e) && TrafficOf(c, e) != []
    ensures var c', t := Step(accepts, agrees, c, e), TrafficOf(c, e)[0];
            && OneSession(c') && TrafficOf(c, e) == [t]
            && (t.Sent? ==> c'.wire == c.wire.(pending := c.wire.pending + [t.id])
                            && c'.registered + c'.written == c.registered + c.written + [t.id])
            && (t.Received? ==> c'.wire == Arrived(accepts, c.wire, t.chunk)
                                && c'.registered == c.registered && c'.written == c.written)
  {
    hide Arrived, OutcomeIn;
    if e.RunNext? {
      assert c.registered + (c.written + [c.ops[0]]) == c.registered + c.written + [c.ops[0]];
    }
    assert e.Connect? ==> c.registered == [] && c.written == [];
  }

  lemma StepOfSession(accepts: Text -> bool, agrees: Text -> bool, c: Client, e: Event, ts: seq<Traffic>)
    requires OneSession(c) && Undisturbed(agrees, c, e)
    requires c.wire == Flow(accepts, Wire([], [], []), ts) && c.registered + c.written == Frames(ts)
    ensures var c' := Step(accepts, agrees, c, e);
            var ts' := ts + TrafficOf(c, e);
            && OneSession(c') && c'.wire == Flow(accepts, Wire([], [], []), ts')
               && c'.registered + c'.written == Frames(ts')
  {
    hide Flow, Arrived, Frames, Step, TrafficOf, OneSession, Undisturbed;
    if TrafficOf(c, e) == [] {
      QuietTurn(accepts, agrees, c, e);
      assert ts + [] == ts;
    } else {
      BusyTurn(accepts, agrees, c, e);
      FlowOfOne(accepts, Wire([], [], []), ts, TrafficOf(c, e)[0]);
    }
  }

  lemma {:induction false} RunOfSession(accepts: Text -> bool, agrees: Text -> bool, es: seq<Event>)
    requires Calm(accepts, agrees, es)
    ensures var c, ts := Run(accepts, agrees, Fresh(), es), TrafficIn(accepts, agrees, es);
            OneSession(c) && c.wire == Flow(accepts, Wire([], [], []), ts) && c.registered + c.written == Frames(ts)
  {
    if es != [] {
      var init := es[..|es| - 1];
      RunOfSession(accepts, agrees, init);
      hide Step, TrafficOf, OneSession, Flow, Frames, Undisturbed;
      StepOfSession(accepts, agrees, Run(accepts, agrees, Fresh(), init), es[|es| - 1],
                    TrafficIn(accepts, agrees, init));
    }
  }

  /**
   In every run of the client without losses, failed writes and refused registrations, against a server that sends one
   line per frame: the first line settles the registration and the k-th line after it the k-th request written, in
   this order, whatever the cut into chunks; what is not settled is still pending.
   */
  lemma SessionSettlesInOrder(accepts: Text -> bool, agrees: Text -> bool, es: seq<Event>)
    requires Calm(accepts, agrees, es) && AnswersFrames(TrafficIn(accepts, agrees, es))
    ensures var c, lines := Run(accepts, agrees, Fresh(), es), Lines(Stream(TrafficIn(accepts, agrees, es)));
            var frames := c.registered + c.written;
            && |lines| <= |frames| && |c.registered| <= 1
            && c.wire.settled == Answers(accepts, frames[..|lines|], lines)
            && LinesSettle(accepts, c.wire.settled, frames, lines)
            && c.wire.pending == frames[|lines|..]
            && c.wire.inbound == Tail(Stream(TrafficIn(accepts, agrees, es)))
  {
    hide Lines, Tail, Answers, Flow, Run, Calm, AnswersFrames, LinesSettle;
    RunOfSession(accepts, agrees, es);
    LinesSettleFrames(accepts, TrafficIn(accepts, agrees, es));
  }
}
