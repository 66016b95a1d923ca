/** Which answer settles which request, and what every run of the client keeps. */
module ClientRuns {
  import opened Texts
  import opened ClientQueue

  // -------------------------------------------------------------- cutting a stream

  lemma {:induction false} FirstOfConcat(t: Text, u: Text)
    ensures FirstNewline(t).Some? ==> FirstNewline(t + u) == FirstNewline(t)
    ensures FirstNewline(t).None? ==>
              FirstNewline(t + u) == (if FirstNewline(u).None? then None else Some(|t| + FirstNewline(u).value))
  {
    if t == [] {
      assert t + u == u;
    } else if t[0] != NEWLINE {
      assert (t + u)[1..] == t[1..] + u;
      FirstOfConcat(t[1..], u);
    }
  }

  lemma {:induction false} LinesStep(t: Text)
    requires FirstNewline(t).Some?
    ensures var i := FirstNewline(t).value; Lines(t) == [t[..i]] + Lines(t[i + 1..])
  {
  }

  lemma {:induction false} TailStep(t: Text)
    requires FirstNewline(t).Some?
    ensures var i := FirstNewline(t).value; Tail(t) == Tail(t[i + 1..])
  {
  }

  lemma {:induction false} LinesUnfold(t: Text)
    ensures FirstNewline(t).None? ==> Lines(t) == [] && Tail(t) == t
    ensures FirstNewline(t).Some? ==>
              var i := FirstNewline(t).value;
              Lines(t) == [t[..i]] + Lines(t[i + 1..]) && Tail(t) == Tail(t[i + 1..])
  {
    if FirstNewline(t).Some? {
      hide Lines, Tail;
      LinesStep(t);
      TailStep(t);
    }
  }

  /** Lines and tail of a stream that goes on. */
  lemma {:induction false} LinesOfConcat(t: Text, u: Text)
    ensures Lines(t + u) == Lines(t) + Lines(Tail(t) + u)
    ensures Tail(t + u) == Tail(Tail(t) + u)
    decreases |t|
  {
    FirstOfConcat(t, u);
    LinesUnfold(t);
    LinesUnfold(t + u);
    hide Lines, Tail;
    if FirstNewline(t).Some? {
      var i := FirstNewline(t).value;
      assert (t + u)[..i] == t[..i] && (t + u)[i + 1..] == t[i + 1..] + u;
      LinesOfConcat(t[i + 1..], u);
    }
  }

  function Answers(accepts: Text -> bool, ids: seq<nat>, lines: seq<Text>): (r: seq<Settlement>)
    requires |ids| == |lines|
    ensures |r| == |ids|
  {
    seq(|ids|, i requires 0 <= i < |ids| => Settlement(ids[i], Answer(accepts, lines[i])))
  }

  /** The k-th settlement is that of the k-th id: answered by the k-th line, or rejected because it does not parse. */
  ghost predicate LinesSettle(accepts: Text -> bool, log: seq<Settlement>, ids: seq<nat>, lines: seq<Text>) {
    && |log| == |lines| <= |ids|
    && forall k | 0 <= k < |lines| ::
         && log[k].id == ids[k]
         && (log[k].outcome == Answered(lines[k]) <==> accepts(lines[k]))
         && (log[k].outcome == BadJson <==> !accepts(lines[k]))
  }

  lemma AnswersSettle(accepts: Text -> bool, ids: seq<nat>, lines: seq<Text>)
    requires |lines| <= |ids|
    ensures LinesSettle(accepts, Answers(accepts, ids[..|lines|], lines), ids, lines)
  {
  }

  lemma AnswersOfConcat(accepts: Text -> bool, ids: seq<nat>, more: seq<nat>, lines: seq<Text>, moreLines: seq<Text>)
    requires |ids| == |lines| && |more| == |moreLines|
    ensures Answers(accepts, ids + more, lines + moreLines) == Answers(accepts, ids, lines)
            + Answers(accepts, more, moreLines)
  {
  }

  lemma OneAnswer(accepts: Text -> bool, id: nat, line: Text)
    ensures Answers(accepts, [id], [line]) == [Settlement(id, Answer(accepts, line))]
  {
  }

  function Min(a: nat, b: nat): nat {
    if a < b then a else b
  }

  lemma {:induction false} DrainUnfold(accepts: Text -> bool, w: Wire)
    ensures FirstNewline(w.inbound).None? ==> Drain(accepts, w) == w
    ensures FirstNewline(w.inbound).Some? ==>
              var i := FirstNewline(w.inbound).value;
              var rest := w.inbound[i + 1..];
              Drain(accepts, w)
              == if w.pending == [] then w.(inbound := rest)
                 else Drain(accepts, Wire(rest, w.pending[1..],
                                          w.settled + [Settlement(w.pending[0], Answer(accepts, w.inbound[..i]))]))
  {
  }

  /** With at most one line too many, the loop answers the waiters in order and keeps the unfinished line. */
  lemma {:induction false} DrainAnswers(accepts: Text -> bool, w: Wire)
    requires |Lines(w.inbound)| <= |w.pending| + 1
    ensures var lines := Lines(w.inbound);
            var n := Min(|lines|, |w.pending|);
            Drain(accepts, w)
            == Wire(Tail(w.inbound), w.pending[n..], w.settled + Answers(accepts, w.pending[..n], lines[..n]))
    decreases |w.inbound|
  {
    NothingYet(accepts);
    LinesUnfold(w.inbound);
    DrainUnfold(accepts, w);
    hide Lines, Tail, Answers, Drain;
    var lines := Lines(w.inbound);
    if FirstNewline(w.inbound).None? || w.pending == [] {
      assert w.settled + [] == w.settled && w.pending[0..] == w.pending && lines[..0] == [];
      if FirstNewline(w.inbound).Some? {
        NoLineLeft(w.inbound[FirstNewline(w.inbound).value + 1..]);
      }
    } else {
      var i := FirstNewline(w.inbound).value;
      var line, rest := w.inbound[..i], w.inbound[i + 1..];
      var id, more := w.pending[0], w.pending[1..];
      var n := Min(|lines|, |w.pending|);
      assert lines[1..] == Lines(rest);
      DrainAnswers(accepts, Wire(rest, more, w.settled + [Settlement(id, Answer(accepts, line))]));
      OneAnswer(accepts, id, line);
      AnswersOfConcat(accepts, [id], more[..n - 1], [line], Lines(rest)[..n - 1]);
      assert w.pending[..n] == [id] + more[..n - 1] && lines[..n] == [line] + Lines(rest)[..n - 1];
      assert more[n - 1..] == w.pending[n..];
    }
  }

  lemma NothingYet(accepts: Text -> bool)
    ensures Lines([]) == [] && Tail([]) == [] && Answers(accepts, [], []) == []
  {
  }

  lemma NoLineLeft(t: Text)
    requires Lines(t) == []
    ensures FirstNewline(t).None? && Tail(t) == t
  {
  }

  /** With two lines too many, the second one stays in the buffer. */
  lemma {:induction false} DrainStops(accepts: Text -> bool, w: Wire)
    requires |Lines(w.inbound)| >= |w.pending| + 2
    ensures |Lines(Drain(accepts, w).inbound)| == |Lines(w.inbound)| - |w.pending| - 1
    ensures Drain(accepts, w).pending == []
    decreases |w.inbound|
  {
    LinesUnfold(w.inbound);
    DrainUnfold(accepts, w);
    hide Lines, Tail, Drain;
    var i := FirstNewline(w.inbound).value;
    if w.pending != [] {
      var answered := w.settled + [Settlement(w.pending[0], Answer(accepts, w.inbound[..i]))];
      DrainStops(accepts, Wire(w.inbound[i + 1..], w.pending[1..], answered));
    }
  }

  /** The text of the first `n` lines, with their newlines. */
  lemma {:induction false} CutAfterLines(t: Text, n: nat) returns (a: Text, b: Text)
    requires n <= |Lines(t)|
    ensures t == a + b && |Lines(a)| == n && Tail(a) == []
  {
    LinesUnfold(t);
    hide Lines, Tail;
    if n == 0 {
      a, b := [], t;
      LinesUnfold([]);
    } else {
      var i := FirstNewline(t).value;
      var a', b' := CutAfterLines(t[i + 1..], n - 1);
      a, b := t[..i + 1] + a', b';
      FirstIsLast(t, i);
      FirstOfConcat(t[..i + 1], a');
      LinesUnfold(a);
      assert a[i + 1..] == a';
    }
  }

  lemma FirstIsLast(t: Text, i: nat)
    requires FirstNewline(t) == Some(i)
    ensures FirstNewline(t[..i + 1]) == Some(i)
  {
    assert t[..i + 1][i] == NEWLINE && t[..i + 1][..i] == t[..i];
    assert t == t[..i + 1] + t[i + 1..];
    FirstOfConcat(t[..i + 1], t[i + 1..]);
  }

  /** Two chunks do what one does, as long as at most one line is without a waiter. */
  lemma CutsAgree(accepts: Text -> bool, w: Wire, a: Text, b: Text)
    requires Lines(w.inbound) == [] && |Lines(w.inbound + (a + b))| <= |w.pending| + 1
    ensures Arrived(accepts, Arrived(accepts, w, a), b) == Arrived(accepts, w, a + b)
  {
    hide Lines, Tail, Answers, Drain;
    var whole := w.inbound + (a + b);
    assert whole == (w.inbound + a) + b;
    LinesOfConcat(w.inbound + a, b);
    var l1 := Lines(w.inbound + a);
    var l2 := Lines(Tail(w.inbound + a) + b);
    DrainAnswers(accepts, w.(inbound := w.inbound + a));
    var w1 := Arrived(accepts, w, a);
    DrainAnswers(accepts, w1.(inbound := w1.inbound + b));
    DrainAnswers(accepts, w.(inbound := whole));
    SettledAlike(accepts, w.settled, w.pending, l1, l2);
  }

  /** Answering some lines and then more is answering all of them. */
  lemma SettledAlike(accepts: Text -> bool, settled: seq<Settlement>, pending: seq<nat>, l1: seq<Text>, l2: seq<Text>)
    ensures var k1 := Min(|l1|, |pending|);
            var left := pending[k1..];
            var k2 := Min(|l2|, |left|);
            var k := Min(|l1 + l2|, |pending|);
            && left[k2..] == pending[k..]
            && settled + Answers(accepts, pending[..k1], l1[..k1]) + Answers(accepts, left[..k2], l2[..k2])
               == settled + Answers(accepts, pending[..k], (l1 + l2)[..k])
  {
    hide Answers;
    var k1 := Min(|l1|, |pending|);
    var left := pending[k1..];
    var k2 := Min(|l2|, |left|);
    var k := k1 + k2;
    AnswersOfConcat(accepts, pending[..k1], left[..k2], l1[..k1], l2[..k2]);
    assert pending[..k] == pending[..k1] + left[..k2];
    assert (l1 + l2)[..k] == l1[..k1] + l2[..k2];
  }

  ghost predicate CutsDoNotMatter(accepts: Text -> bool, w: Wire, t: Text) {
    forall a: Text, b: Text | a + b == t :: Arrived(accepts, Arrived(accepts, w, a), b) == Arrived(accepts, w, t)
  }

  /**
   How the stream is cut into chunks makes no difference if and only if it holds at most one line more than there
   are waiters.
   */
  lemma CutsDoNotMatterIffWaiters(accepts: Text -> bool, w: Wire, t: Text)
    requires Lines(w.inbound) == []
    ensures CutsDoNotMatter(accepts, w, t) <==> |Lines(w.inbound + t)| <= |w.pending| + 1
  {
    hide Lines, Tail, Answers, Drain, Arrived;
    if |Lines(w.inbound + t)| <= |w.pending| + 1 {
      forall a: Text, b: Text | a + b == t
        ensures Arrived(accepts, Arrived(accepts, w, a), b) == Arrived(accepts, w, t)
      {
        CutsAgree(accepts, w, a, b);
      }
    } else {
      var a, b := CutTooFar(accepts, w, t);
    }
  }

  /** A cut after the first line without a waiter loses one line more than no cut. */
  lemma CutTooFar(accepts: Text -> bool, w: Wire, t: Text) returns (a: Text, b: Text)
    requires Lines(w.inbound) == [] && |Lines(w.inbound + t)| >= |w.pending| + 2
    ensures a + b == t && Arrived(accepts, Arrived(accepts, w, a), b) != Arrived(accepts, w, t)
  {
    hide Lines, Tail, Answers, Drain;
    var p, whole := |w.pending|, w.inbound + t;
    var first, rest := CutAfterLines(whole, p + 1);
    LongerThan(w.inbound, first, whole);
    a, b := first[|w.inbound|..], rest;
    assert first == w.inbound + a;
    assert w.inbound + (a + b) == whole;
    assert whole[|w.inbound|..] == t && (w.inbound + (a + b))[|w.inbound|..] == a + b;
    LinesOfConcat(first, b);
    assert [] + b == b;
    DrainAnswers(accepts, w.(inbound := first));
    var w1 := Arrived(accepts, w, a);
    assert w1.inbound == [] && w1.pending == [];
    DrainStops(accepts, w.(inbound := whole));
    DropOne(accepts, w1, b);
  }

  lemma DropOne(accepts: Text -> bool, w: Wire, b: Text)
    requires w.inbound == [] && w.pending == [] && |Lines(b)| >= 1
    ensures |Lines(Arrived(accepts, w, b).inbound)| == |Lines(b)| - 1
  {
    hide Lines, Drain;
    assert w.inbound + b == b;
    LinesUnfold(b);
    DrainUnfold(accepts, w.(inbound := b));
  }

  lemma LongerThan(inbound: Text, first: Text, whole: Text)
    requires inbound <= whole && first <= whole && Lines(inbound) == [] && |Lines(first)| >= 1
    ensures |inbound| <= |first| && first[..|inbound|] == inbound
  {
    NoLineLeft(inbound);
    LinesUnfold(first);
    var i := FirstNewline(first).value;
    assert first[i] == whole[i];
    assert forall j | 0 <= j < |inbound| :: whole[j] == inbound[j] && inbound[j] in inbound;
  }

  // --------------------------------------------------------------- one live session

  /** A frame is written, or a chunk arrives. */
  datatype Traffic = Sent(id: nat) | Received(chunk: Text)

  function Flow(accepts: Text -> bool, w: Wire, es: seq<Traffic>): Wire {
    if es == [] then w
    else
      var w' := Flow(accepts, w, es[..|es| - 1]);
      match es[|es| - 1]
      case Sent(id) => w'.(pending := w'.pending + [id])
      case Received(chunk) => Arrived(accepts, w', chunk)
  }

  /** All frames written, in order. */
  function Frames(es: seq<Traffic>): seq<nat> {
    if es == [] then []
    else Frames(es[..|es| - 1]) + (match es[|es| - 1] case Sent(id) => [id] case _ => [])
  }

  /** All that has been received, in order. */
  function Stream(es: seq<Traffic>): Text {
    if es == [] then []
    else Stream(es[..|es| - 1]) + (match es[|es| - 1] case Received(chunk) => chunk case _ => [])
  }

  /** The server answers each frame with at most one line, and never before the frame. */
  ghost predicate AnswersFrames(es: seq<Traffic>) {
    forall i | 0 <= i <= |es| :: |Lines(Stream(es[..i]))| <= |Frames(es[..i])|
  }

  /**
   On one session whose server sends one line per frame, the k-th line settles the k-th frame, however the stream
   is cut into chunks and however chunks and frames interleave.
   */
  lemma {:induction false} LinesSettleFrames(accepts: Text -> bool, es: seq<Traffic>)
    requires AnswersFrames(es)
    ensures var lines, frames := Lines(Stream(es)), Frames(es);
            && |lines| <= |frames|
            && Flow(accepts, Wire([], [], []), es)
               == Wire(Tail(Stream(es)), frames[|lines|..], Answers(accepts, frames[..|lines|], lines))
            && LinesSettle(accepts, Flow(accepts, Wire([], [], []), es).settled, frames, lines)
  {
    if |Lines(Stream(es))| <= |Frames(es)| {
      AnswersSettle(accepts, Frames(es), Lines(Stream(es)));
    }
    hide LinesSettle, Arrived, Answers, Lines, Tail;
    assert es[..|es|] == es;
    if es == [] {
      NothingYet(accepts);
    } else {
      var before := es[..|es| - 1];
      assert forall i | 0 <= i <= |before| :: before[..i] == es[..i];
      LinesSettleFrames(accepts, before);
      var n := |Lines(Stream(before))|;
      match es[|es| - 1]
      case Sent(id) =>
        assert Stream(es) == Stream(before);
        assert Frames(es)[n..] == Frames(before)[n..] + [id] && Frames(es)[..n] == Frames(before)[..n];
      case Received(chunk) =>
        assert Frames(es) == Frames(before);
        ReceivedStep(accepts, Stream(before), chunk, Frames(before));
    }
  }

  lemma ReceivedStep(accepts: Text -> bool, stream: Text, chunk: Text, frames: seq<nat>)
    requires |Lines(stream)| <= |frames| && |Lines(stream + chunk)| <= |frames|
    ensures var n, m := |Lines(stream)|, |Lines(stream + chunk)|;
            Arrived(accepts, Wire(Tail(stream), frames[n..], Answers(accepts, frames[..n], Lines(stream))), chunk)
            == Wire(Tail(stream + chunk), frames[m..], Answers(accepts, frames[..m], Lines(stream + chunk)))
  {
    hide Answers, Lines, Tail, Drain;
    var n := |Lines(stream)|;
    var w := Wire(Tail(stream) + chunk, frames[n..], Answers(accepts, frames[..n], Lines(stream)));
    LinesOfConcat(stream, chunk);
    var more := Lines(w.inbound);
    var m := n + |more|;
    DrainAnswers(accepts, w);
    assert more[..|more|] == more;
    assert frames[n..][|more|..] == frames[m..] && frames[n..][..|more|] == frames[n..m];
    assert frames[..m] == frames[..n] + frames[n..m];
    AnswersOfConcat(accepts, frames[..n], frames[n..m], Lines(stream), more);
  }

  // -------------------------------------------------------- every run of the client

  ghost predicate Distinct(ids: seq<nat>) {
    forall i, k | 0 <= i < k < |ids| :: ids[i] != ids[k]
  }

  function Ids(log: seq<Settlement>): (ids: seq<nat>)
    ensures |ids| == |log| && forall i | 0 <= i < |log| :: ids[i] == log[i].id
  {
    seq(|log|, i requires 0 <= i < |log| => log[i].id)
  }

  /** Requests that have not been written: chained, let through, or awaiting the session. */
  function Queued(c: Client): seq<nat> {
    c.ops + c.ready + c.waiting
  }

  /** Every number in use is below `next`; nothing is settled twice; a queued request is nowhere else. */
  ghost predicate NumbersOk(c: Client) {
    && Distinct(Ids(c.wire.settled)) && Distinct(Queued(c))
    && (forall id | id in Ids(c.wire.settled) :: id < c.next)
    && (forall id | id in Queued(c) :: id < c.next && id !in Ids(c.wire.settled) && c.running != Some(id)
                                       && c.opening != Registering(id))
    && (c.running.Some? ==> c.running.value < c.next && c.running.value !in Ids(c.wire.settled))
    && (c.opening.Registering? ==> c.opening.id < c.next)
  }

  /** At most one frame waits for an answer: the running operation or the registration. */
  ghost predicate PendingOk(c: Client) {
    c.wire.pending != [] ==>
      && |c.wire.pending| == 1 && c.wire.pending[0] !in Ids(c.wire.settled)
      && (c.running == Some(c.wire.pending[0]) || c.opening == Registering(c.wire.pending[0]))
  }

  ghost predicate SessionOk(c: Client) {
    && (c.opening.NotOpening? ==> c.waiting == [])
    && (!c.opening.NotOpening? ==> c.ops == [] && c.ready == [] && c.running.None?)
    && (!c.session && !c.poisoned ==> c.opening.NotOpening? && c.ops == [] && c.ready == [] && c.running.None?)
    && (c.poisoned ==> !c.session && (c.wire.pending != [] ==> c.opening.Registering?))
  }

  /** Every written frame is settled, running, or the open registration. */
  ghost predicate WrittenOk(c: Client) {
    && (forall id | id in c.written :: id in Ids(c.wire.settled) || c.running == Some(id))
    && (forall id | id in c.registered :: id < c.next && (id in Ids(c.wire.settled) || c.opening == Registering(id)))
  }

  ghost predicate Invariant(c: Client) {
    NumbersOk(c) && PendingOk(c) && SessionOk(c) && WrittenOk(c)
  }

  lemma {:induction false} RejectionIds(ids: seq<nat>, o: Outcome)
    ensures Ids(Rejections(ids, o)) == ids
  {
    if ids != [] {
      RejectionIds(ids[1..], o);
    }
  }

  lemma SettledIds(log: seq<Settlement>, more: seq<Settlement>)
    ensures Ids(log + more) == Ids(log) + Ids(more)
  {
    forall i | 0 <= i < |log + more|
      ensures Ids(log + more)[i] == (Ids(log) + Ids(more))[i]
    {
    }
  }

  lemma AddedStayDistinct(a: seq<nat>, b: seq<nat>)
    requires Distinct(a) && Distinct(b) && forall id | id in b :: id !in a
    ensures Distinct(a + b)
  {
    forall i, k | 0 <= i < k < |a + b|
      ensures (a + b)[i] != (a + b)[k]
    {
      if i < |a| <= k {
        assert b[k - |a|] in b;
      }
    }
  }

  lemma OneLess(before: seq<nat>, id: nat, after: seq<nat>)
    requires Distinct(before + [id] + after)
    ensures Distinct(before + after) && id !in before + after
    ensures forall x | x in before + after :: x in before + [id] + after
  {
    var all, rest := before + [id] + after, before + after;
    assert all[|before|] == id;
    forall i | 0 <= i < |rest|
      ensures rest[i] == all[if i < |before| then i else i + 1]
    {
    }
  }

  /** What a rejection changes. */
  lemma RejectIs(c: Client, ids: seq<nat>, o: Outcome)
    ensures var c' := Reject(c, ids, o);
            && Ids(c'.wire.settled) == Ids(c.wire.settled) + ids
            && c' == c.(wire := c'.wire, running := c'.running)
            && c'.wire.pending == c.wire.pending && c'.wire.inbound == c.wire.inbound
            && (c.running.None? ==> c'.running.None?)
            && (Distinct(Ids(c.wire.settled)) && Distinct(ids)
                && (forall id | id in ids :: id !in Ids(c.wire.settled)) ==>
                  Distinct(Ids(c'.wire.settled)))
            && (c.running.Some? && c.running.value !in Ids(c.wire.settled) ==>
                  c'.running == if c.running.value in ids then None else c.running)
  {
    RejectionIds(ids, o);
    SettledIds(c.wire.settled, Rejections(ids, o));
    RunningIs(c, Reject(c, ids, o).wire);
    if Distinct(Ids(c.wire.settled)) && Distinct(ids) && forall id | id in ids :: id !in Ids(c.wire.settled) {
      AddedStayDistinct(Ids(c.wire.settled), ids);
    }
  }

  lemma RunningIs(c: Client, w: Wire)
    ensures c.running.Some? ==> WithWire(c, w).running == if c.running.value in Ids(w.settled) then None else c.running
  {
    if c.running.Some? {
      var id := c.running.value;
      if id in Ids(w.settled) {
        var i :| 0 <= i < |w.settled| && Ids(w.settled)[i] == id;
        assert w.settled[i].id == id;
      }
      if IsSettled(w, id) {
        var i :| 0 <= i < |w.settled| && w.settled[i].id == id;
        assert Ids(w.settled)[i] == id;
      }
    }
  }

  /** One more request waits, under a number never used. */
  lemma NewcomerKeeps(c: Client, c': Client)
    requires Invariant(c) && Queued(c') == Queued(c) + [c.next]
    requires c' == c.(next := c.next + 1, session := c'.session, opening := c'.opening, waiting := c'.waiting,
                      ready := c'.ready)
    requires c'.opening.Registering? ==> c'.opening == c.opening
    requires c.opening.Registering? ==> c'.opening == c.opening
    requires SessionOk(c')
    ensures Invariant(c')
  {
    hide Ids;
    AddedStayDistinct(Queued(c), [c.next]);
    assert NumbersOk(c');
  }

  lemma QueueEnds(c: Client)
    ensures c.ops + c.ready + (c.waiting + [c.next]) == Queued(c) + [c.next]
    ensures c.waiting == [] ==> c.ops + (c.ready + [c.next]) + c.waiting == Queued(c) + [c.next]
  {
  }

  lemma RequestKeeps(c: Client)
    requires Invariant(c)
    ensures Invariant(Requested(c))
  {
    if c.poisoned {
      RequestWhenPoisoned(c);
    } else {
      hide Reject, Ids, NumbersOk, WrittenOk;
      QueueEnds(c);
      NewcomerKeeps(c, Requested(c));
    }
  }

  lemma RequestWhenPoisoned(c: Client)
    requires Invariant(c) && c.poisoned
    ensures Invariant(Requested(c))
  {
    hide Reject, Ids;
    RejectIs(c.(next := c.next + 1), [c.next], ConnectionLost);
    var c' := Requested(c);
    assert Queued(c') == Queued(c);
    assert NumbersOk(c') && WrittenOk(c');
  }

  lemma SessionLostKeeps(c: Client)
    requires Invariant(c) && !c.opening.NotOpening?
    requires c.opening.Registering? ==> c.opening.id in Ids(c.wire.settled)
    ensures Invariant(SessionLost(c))
  {
    hide Reject;
    var c1 := c.(session := false, opening := NotOpening, waiting := []);
    assert c.wire.pending == [];
    assert Queued(c) == c.waiting;
    RejectIs(c1.(connected := false, wire := c1.wire.(inbound := [], pending := [])), c.wire.pending, SessionFailed);
    var c2 := if c.poisoned then c1
              else Reject(c1.(connected := false, wire := c1.wire.(inbound := [], pending := [])), c.wire.pending,
                          SessionFailed);
    RejectIs(c2, c.waiting, SessionFailed);
    assert Queued(c) == c.waiting && Queued(SessionLost(c)) == [];
  }

  lemma FinishKeeps(agrees: Text -> bool, c: Client)
    requires Invariant(c) && c.opening.Registering?
    ensures Invariant(Finished(agrees, c))
  {
    var o := OutcomeOf(c.wire, c.opening.id);
    if o.Some? {
      var i :| 0 <= i < |c.wire.settled| && c.wire.settled[i].id == c.opening.id;
      assert Ids(c.wire.settled)[i] == c.opening.id;
      if o.value.Answered? && agrees(o.value.line) {
        var c' := c.(opening := NotOpening, ready := c.ready + c.waiting, waiting := []);
        assert Queued(c') == Queued(c);
      } else {
        SessionLostKeeps(c);
      }
    }
  }

  lemma PoisonKeeps(c: Client)
    requires Invariant(c)
    ensures Invariant(Poisoned(c)) && (!c.poisoned ==> Poisoned(c).wire.pending == [])
  {
    RejectIs(c.(poisoned := true, session := false, connected := false, wire := c.wire.(inbound := [], pending := [])),
             c.wire.pending, ConnectionLost);
    assert Queued(Poisoned(c)) == Queued(c);
  }

  lemma ProceedKeeps(accepts: Text -> bool, agrees: Text -> bool, c: Client)
    requires Invariant(c)
    ensures Invariant(Step(accepts, agrees, c, Proceed))
  {
    if c.ready != [] {
      hide Reject;
      var id := c.ready[0];
      var c1 := c.(ready := c.ready[1..]);
      var after := c1.ready + c.waiting;
      assert Queued(c) == c.ops + [id] + after && Queued(c1) == c.ops + after;
      assert Queued(c)[|c.ops|] == id;
      OneLess(c.ops, id, after);
      RejectIs(c1, [id], NoSocket);
      assert Queued(c1.(ops := c.ops + [id])) == Queued(c);
      assert Queued(Reject(c1, [id], NoSocket)) == Queued(c1);
      var c' := Step(accepts, agrees, c, Proceed);
      assert id in Queued(c);
      assert NumbersOk(c') && PendingOk(c') && WrittenOk(c');
    }
  }

  lemma RunNextKeeps(c: Client)
    requires Invariant(c) && c.ops != [] && c.running.None?
    ensures Invariant(Ran(c))
  {
    hide Reject, Ids;
    var id := c.ops[0];
    var c1 := c.(ops := c.ops[1..]);
    assert Queued(c) == [] + [id] + Queued(c1) && [] + Queued(c1) == Queued(c1);
    assert Queued(c)[0] == id && id in Queued(c);
    OneLess([], id, Queued(c1));
    assert c.wire.pending == [];
    var c' := Ran(c);
    if c.poisoned {
      RejectIs(c1, [id], ConnectionLost);
    }
    assert Queued(c') == Queued(c1);
    assert NumbersOk(c') && PendingOk(c') && WrittenOk(c');
  }

  lemma FailedWriteKeeps(c: Client, id: nat)
    requires Invariant(c) && id in c.written
    ensures Invariant(FailedWrite(c, id))
  {
    var p := c.wire.pending;
    RejectIs(c, [id], WriteError);
    RunningIs(c, c.wire);
    if p != [] {
      RejectIs(c.(wire := c.wire.(pending := p[..|p| - 1])), [p[|p| - 1]], WriteError);
    } else {
      SettledMeans(c.wire, id);
    }
    assert Queued(FailedWrite(c, id)) == Queued(c);
  }

  lemma SettledMeans(w: Wire, id: nat)
    ensures IsSettled(w, id) <==> id in Ids(w.settled)
  {
    if id in Ids(w.settled) {
      var i :| 0 <= i < |w.settled| && Ids(w.settled)[i] == id;
      assert w.settled[i].id == id;
    }
    if IsSettled(w, id) {
      var i :| 0 <= i < |w.settled| && w.settled[i].id == id;
      assert Ids(w.settled)[i] == id;
    }
  }

  lemma FailedRegisterWriteKeeps(c: Client, id: nat)
    requires Invariant(c) && id in c.registered
    ensures Invariant(FailedRegisterWrite(c, id))
  {
    var p := c.wire.pending;
    var c1 := if p == [] then c else c.(wire := c.wire.(pending := p[..|p| - 1]));
    SettledMeans(c.wire, id);
    RejectIs(c1, [id], WriteError);
    assert Queued(FailedRegisterWrite(c, id)) == Queued(c);
  }

  /** With at most one waiter, the loop settles at most that one. */
  lemma DrainOne(accepts: Text -> bool, w: Wire)
    requires |w.pending| <= 1
    ensures var w' := Drain(accepts, w);
            || (w'.pending == w.pending && Ids(w'.settled) == Ids(w.settled))
            || (w.pending != [] && w'.pending == [] && Ids(w'.settled) == Ids(w.settled) + [w.pending[0]])
  {
    DrainUnfold(accepts, w);
    if w.pending != [] && FirstNewline(w.inbound).Some? {
      var i := FirstNewline(w.inbound).value;
      var a := Settlement(w.pending[0], Answer(accepts, w.inbound[..i]));
      SettledIds(w.settled, [a]);
      DrainUnfold(accepts, Wire(w.inbound[i + 1..], w.pending[1..], w.settled + [a]));
    }
  }

  lemma DataKeeps(accepts: Text -> bool, c: Client, chunk: Text)
    requires Invariant(c)
    ensures Invariant(WithWire(c, Arrived(accepts, c.wire, chunk)))
  {
    hide Drain, Ids;
    var w := Arrived(accepts, c.wire, chunk);
    DrainOne(accepts, c.wire.(inbound := c.wire.inbound + chunk));
    RunningIs(c, w);
    var c' := WithWire(c, w);
    assert Queued(c') == Queued(c);
    if w.pending != c.wire.pending {
      AddedStayDistinct(Ids(c.wire.settled), [c.wire.pending[0]]);
    }
    assert NumbersOk(c') && PendingOk(c') && WrittenOk(c');
  }

  lemma StepKeeps(accepts: Text -> bool, agrees: Text -> bool, c: Client, e: Event)
    requires Invariant(c)
    ensures Invariant(Step(accepts, agrees, c, e))
  {
    hide Requested, SessionLost, Finished, Poisoned, Ran, FailedWrite, FailedRegisterWrite, Drain;
    match e
    case Request => RequestKeeps(c);
    case Connect(ok) =>
      if c.opening.Connecting? {
        ConnectKeeps(c);
      }
    case Data(chunk) => DataKeeps(accepts, c, chunk);
    case FinishOpening =>
      if c.opening.Registering? {
        FinishKeeps(agrees, c);
      }
    case Proceed => ProceedKeeps(accepts, agrees, c);
    case RunNext =>
      if c.ops != [] && c.running.None? {
        RunNextKeeps(c);
      }
    case Lost => PoisonKeeps(c);
    case WriteFailed(id) =>
      if id in c.written {
        FailedWriteKeeps(c, id);
      }
    case RegisterWriteFailed(id) =>
      if id in c.registered {
        FailedRegisterWriteKeeps(c, id);
      }
  }

  lemma ConnectKeeps(c: Client)
    requires Invariant(c) && c.opening.Connecting?
    ensures Invariant(Registered(c)) && Invariant(SessionLost(c))
  {
    SessionLostKeeps(c);
    assert Queued(Registered(c)) == Queued(c);
  }

  lemma {:induction false} RunsKeep(accepts: Text -> bool, agrees: Text -> bool, es: seq<Event>)
    ensures Invariant(Run(accepts, agrees, Fresh(), es))
  {
    hide Step;
    if es != [] {
      RunsKeep(accepts, agrees, es[..|es| - 1]);
      StepKeeps(accepts, agrees, Run(accepts, agrees, Fresh(), es[..|es| - 1]), es[|es| - 1]);
    }
  }

  /** In every reachable state at most one frame is outstanding. */
  lemma AtMostOneOutstanding(accepts: Text -> bool, agrees: Text -> bool, es: seq<Event>)
    ensures var c := Run(accepts, agrees, Fresh(), es);
            && |c.wire.pending| <= 1
            && forall i, k | 0 <= i < |c.written| && 0 <= k < |c.written| && !IsSettled(c.wire, c.written[i])
                             && !IsSettled(c.wire, c.written[k]) :: c.written[i] == c.written[k]
  {
    hide Run;
    RunsKeep(accepts, agrees, es);
    var c := Run(accepts, agrees, Fresh(), es);
    forall id | id in c.written && !IsSettled(c.wire, id)
      ensures c.running == Some(id)
    {
      SettledMeans(c.wire, id);
    }
  }

  /** Every request is settled at most once. */
  lemma SettledAtMostOnce(accepts: Text -> bool, agrees: Text -> bool, es: seq<Event>, i: nat, k: nat)
    requires i < k < |Run(accepts, agrees, Fresh(), es).wire.settled|
    ensures var log := Run(accepts, agrees, Fresh(), es).wire.settled; log[i].id != log[k].id
  {
    hide Run;
    RunsKeep(accepts, agrees, es);
    var log := Run(accepts, agrees, Fresh(), es).wire.settled;
    assert Ids(log)[i] != Ids(log)[k];
  }

  // ------------------------------------------------------------------------ poison

  lemma StepAfterPoison(accepts: Text -> bool, agrees: Text -> bool, c: Client, e: Event)
    requires c.poisoned
    ensures var c' := Step(accepts, agrees, c, e);
            c'.poisoned && c'.written == c.written
  {
    hide Drain;
  }

  /** Poisoning is permanent, and a poisoned client writes no request frame. */
  lemma {:induction false} PoisonIsPermanent(accepts: Text -> bool, agrees: Text -> bool, c: Client, es: seq<Event>)
    requires c.poisoned
    ensures Run(accepts, agrees, c, es).poisoned && Run(accepts, agrees, c, es).written == c.written
  {
    hide Step;
    if es != [] {
      PoisonIsPermanent(accepts, agrees, c, es[..|es| - 1]);
      StepAfterPoison(accepts, agrees, Run(accepts, agrees, c, es[..|es| - 1]), es[|es| - 1]);
    }
  }

  ghost predicate StaysEmpty(accepts: Text -> bool, agrees: Text -> bool, c: Client) {
    forall es: seq<Event> :: Run(accepts, agrees, c, es).wire.pending == []
  }

  lemma StepKeepsEmpty(accepts: Text -> bool, agrees: Text -> bool, c: Client, e: Event)
    requires c.poisoned && !c.opening.Connecting? && c.wire.pending == []
    ensures var c' := Step(accepts, agrees, c, e);
            c'.poisoned && !c'.opening.Connecting? && c'.wire.pending == []
  {
    DrainUnfold(accepts, c.wire.(inbound := c.wire.inbound + if e.Data? then e.chunk else []));
    hide Drain;
  }

  lemma {:induction false} RunKeepsEmpty(accepts: Text -> bool, agrees: Text -> bool, c: Client, es: seq<Event>)
    requires c.poisoned && !c.opening.Connecting? && c.wire.pending == []
    ensures var c' := Run(accepts, agrees, c, es);
            c'.poisoned && !c'.opening.Connecting? && c'.wire.pending == []
  {
    hide Step;
    if es != [] {
      RunKeepsEmpty(accepts, agrees, c, es[..|es| - 1]);
      StepKeepsEmpty(accepts, agrees, Run(accepts, agrees, c, es[..|es| - 1]), es[|es| - 1]);
    }
  }

  /**
   Losing the transport leaves nothing pending; nothing becomes pending later if and only if no connection was being
   made: a connection that completes afterwards still writes its registration and waits for the answer.
   */
  lemma NothingPendingIffNotConnecting(accepts: Text -> bool, agrees: Text -> bool, es: seq<Event>)
    requires !Run(accepts, agrees, Fresh(), es).poisoned
    ensures var c := Run(accepts, agrees, Fresh(), es);
            && Poisoned(c).wire.pending == []
            && (StaysEmpty(accepts, agrees, Poisoned(c)) <==> !c.opening.Connecting?)
  {
    var c := Run(accepts, agrees, Fresh(), es);
    RunsKeep(accepts, agrees, es);
    hide Run;
    PoisonKeeps(c);
    if c.opening.Connecting? {
      RegistersAfterPoison(accepts, agrees, Poisoned(c));
    } else {
      forall fs: seq<Event>
        ensures Run(accepts, agrees, Poisoned(c), fs).wire.pending == []
      {
        RunKeepsEmpty(accepts, agrees, Poisoned(c), fs);
      }
    }
  }

  lemma RegistersAfterPoison(accepts: Text -> bool, agrees: Text -> bool, c: Client)
    requires c.opening.Connecting?
    ensures Run(accepts, agrees, c, [Connect(true)]).wire.pending != []
  {
    assert Run(accepts, agrees, c, []) == c;
    assert [Connect(true)][..0] == [];
  }

  lemma RunSnoc(accepts: Text -> bool, agrees: Text -> bool, c: Client, es: seq<Event>, e: Event)
    ensures Run(accepts, agrees, c, es + [e]) == Step(accepts, agrees, Run(accepts, agrees, c, es), e)
  {
    hide Step;
    assert (es + [e])[..|es|] == es;
  }

  /** The client after its registration has been rejected. */
  lemma RejectedRegistration(accepts: Text -> bool, agrees: Text -> bool, line: Text)
    requires NEWLINE !in line && accepts(line) && !agrees(line)
    ensures var c2 := Registered(Requested(Fresh()));
            var c3 := WithWire(c2, Arrived(accepts, c2.wire, line + [NEWLINE]));
            && c2.opening == c3.opening == Registering(1)
            && var c4 := Finished(agrees, c3);
               !c4.poisoned && !c4.session && c4.opening.NotOpening?
  {
    var c2 := Registered(Requested(Fresh()));
    var t := [] + (line + [NEWLINE]);
    assert t == line + [NEWLINE];
    assert c2.wire == Wire([], [1], []);
    OneLine(line);
    DrainUnfold(accepts, c2.wire.(inbound := t));
    DrainUnfold(accepts, Wire([], [], [Settlement(1, Answered(line))]));
    hide Drain;
    assert Arrived(accepts, c2.wire, line + [NEWLINE]).settled == [Settlement(1, Answered(line))];
    assert OutcomeIn([Settlement(1, Answered(line))], 1) == Some(Answered(line));
  }

  /**
   The case is reachable: a rejected registration leaves its socket attached, a second request starts a second
   connection, and the first socket closes before that connection is made.
   */
  lemma PoisonWhileConnecting(accepts: Text -> bool, agrees: Text -> bool, line: Text)
    requires NEWLINE !in line && accepts(line) && !agrees(line)
    ensures var es := [] + [Request] + [Connect(true)] + [Data(line + [NEWLINE])] + [FinishOpening] + [Request];
            var c := Run(accepts, agrees, Fresh(), es);
            !c.poisoned && c.opening.Connecting?
  {
    hide Requested, Registered, Finished, Drain, Arrived, WithWire, Run, Step;
    RejectedRegistration(accepts, agrees, line);
    RequestConnects(Fresh());
    RunOfNothing(accepts, agrees, Fresh());
    var es1: seq<Event> := [] + [Request];
    RunSnoc(accepts, agrees, Fresh(), [], Request);
    var es2 := es1 + [Connect(true)];
    RunSnoc(accepts, agrees, Fresh(), es1, Connect(true));
    var es3 := es2 + [Data(line + [NEWLINE])];
    RunSnoc(accepts, agrees, Fresh(), es2, Data(line + [NEWLINE]));
    var es4 := es3 + [FinishOpening];
    RunSnoc(accepts, agrees, Fresh(), es3, FinishOpening);
    RunSnoc(accepts, agrees, Fresh(), es4, Request);
    var c1 := Run(accepts, agrees, Fresh(), es1);
    StepIs(accepts, agrees, Fresh(), line);
    StepIs(accepts, agrees, c1, line);
    StepIs(accepts, agrees, Registered(c1), line);
    StepIs(accepts, agrees, Run(accepts, agrees, Fresh(), es3), line);
    StepIs(accepts, agrees, Run(accepts, agrees, Fresh(), es4), line);
    RequestConnects(Run(accepts, agrees, Fresh(), es4));
  }

  lemma RunOfNothing(accepts: Text -> bool, agrees: Text -> bool, c: Client)
    ensures Run(accepts, agrees, c, []) == c
  {
  }

  lemma StepIs(accepts: Text -> bool, agrees: Text -> bool, c: Client, line: Text)
    ensures Step(accepts, agrees, c, Request) == Requested(c)
    ensures c.opening.Connecting? ==> Step(accepts, agrees, c, Connect(true)) == Registered(c)
    ensures Step(accepts, agrees, c, Data(line + [NEWLINE])) == WithWire(c, Arrived(accepts, c.wire, line + [NEWLINE]))
    ensures c.opening.Registering? ==> Step(accepts, agrees, c, FinishOpening) == Finished(agrees, c)
  {
    hide Requested, Registered, Finished, Arrived, WithWire;
  }

  lemma RequestConnects(c: Client)
    requires !c.poisoned && !c.session
    ensures !Requested(c).poisoned && Requested(c).opening.Connecting?
  {
  }

  lemma OneLine(line: Text)
    requires NEWLINE !in line
    ensures FirstNewline(line + [NEWLINE]) == Some(|line|)
    ensures (line + [NEWLINE])[..|line|] == line && (line + [NEWLINE])[|line| + 1..] == []
  {
    FirstOfConcat(line, [NEWLINE]);
  }
}
