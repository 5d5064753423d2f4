/** What is on record about a sender, when: every state and error a send records is shown
    by the sender at that moment, and a probe answers for a moment of its own run. */
module SenderRecord {
  import opened Errors
  import opened ConnectionStates
  import opened SenderPool
  import opened SenderProtocol
  import opened SenderInvariants
  import opened SenderOutlook
  import opened Runs

  predicate Shows(g: Shared, m: Mark) {
    g.core.state == m.state && g.core.lastErr == m.err
  }

  predicate SameRecord(g: Shared, g': Shared) {
    g'.core.state == g.core.state && g'.core.lastErr == g.core.lastErr
  }

  /** A step of a send either leaves the record alone, or adds one mark to the send's
      history and shows it. */
  predicate RecordsIt(g: Shared, h: History, m: Move) {
    m.To? ==>
      && m.l.Send?
      && var marks := m.l.h.marks;
         if marks == h.marks then SameRecord(g, m.g)
         else |marks| == |h.marks| + 1 && h.marks <= marks && Shows(m.g, marks[|h.marks|])
  }

  lemma DeliverRecords(g: Shared, t: Tid, pc: SendPc, h: History, ch: Choice)
    ensures RecordsIt(g, h, DeliverStep(g, t, pc, h, ch))
  {
    match pc
    case Acquired(_) =>
    case Putting(_) =>
    case MarkingLost(_, _) =>
    case RedialCheck(_) =>
    case Redialling(_) =>
    case Discarding(_, _, _) =>
    case MarkingReconnected(_) =>
    case Reputting(_) =>
    case MarkingSent(_) =>
    case Releasing(_, _) =>
    case _ =>
  }

  lemma SendRecords(g: Shared, t: Tid, pc: SendPc, h: History, ch: Choice)
    ensures RecordsIt(g, h, SendStep(g, t, pc, h, ch))
  {
    if Held(Send(pc, h)).Some? {
      DeliverRecords(g, t, pc, h, ch);
    } else if Acquiring(pc) {
    } else {
    }
  }

  /** Nobody but a send changes the record, except the `close` that finds the sender open:
      it leaves it Stopped and without an error. */
  lemma OthersRecord(g: Shared, t: Tid, l: Local, ch: Choice)
    requires !l.Send? && LocalStep(g, t, l, ch).To?
    ensures var g' := LocalStep(g, t, l, ch).g;
      if l == Close(Beginning) && !g.core.closed then g'.core.closed && Shows(g', Mark(Stopped, None))
      else SameRecord(g, g')
  {
  }

  // --------------------------------------------------------------------- runs

  ghost predicate Sends(s: State, t: Tid) {
    t in s.threads && s.threads[t].Send?
  }

  lemma MarksGrow(s: State, t: Tid, step: Step)
    requires Sends(s, t) && Next(s, step).Some?
    ensures Sends(Next(s, step).value, t)
    ensures var s' := Next(s, step).value; var marks, marks' := s.threads[t].h.marks, s'.threads[t].h.marks;
      marks' == marks || (|marks'| == |marks| + 1 && marks <= marks' && Shows(s'.g, marks'[|marks|]))
  {
    if step.Run? && step.t == t {
      SendRecords(s.g, t, s.threads[t].pc, s.threads[t].h, step.ch);
    }
  }

  /** Every mark a send adds on a run is shown by the sender in some state of that run. */
  lemma {:induction false} MarksAreShown(s: State, t: Tid, steps: seq<Step>, k: nat) returns (j: nat)
    requires Sends(s, t) && Exec(Next, s, steps).Some? && |s.threads[t].h.marks| <= k
    ensures Sends(Exec(Next, s, steps).value, t)
    ensures s.threads[t].h.marks <= Exec(Next, s, steps).value.threads[t].h.marks
    ensures j <= |steps|
    ensures k < |Exec(Next, s, steps).value.threads[t].h.marks| ==>
      && Exec(Next, s, steps[..j]).Some?
      && Shows(Exec(Next, s, steps[..j]).value.g, Exec(Next, s, steps).value.threads[t].h.marks[k])
    decreases |steps|
  {
    j := 0;
    if steps != [] {
      var s1 := Next(s, steps[0]).value;
      MarksGrow(s, t, steps[0]);
      OneStep(Next, s, steps[0]);
      if |s1.threads[t].h.marks| > k {
        var last := MarksAreShown(s1, t, steps[1..], k + 1);
        j := 1;
        assert steps[..1] == [steps[0]];
      } else {
        j := MarksAreShown(s1, t, steps[1..], k);
        assert steps[..j + 1][0] == steps[0] && steps[..j + 1][1..] == steps[1..][..j];
        j := j + 1;
      }
    }
  }

  // ----------------------------------------------------------------- results

  /** The result an answer settles. `over` says that the context of the send has ended. */
  datatype Verdict = Open | Result(r: Option<Error>)

  function Settles(pc: SendPc, ch: Choice, over: bool): Verdict {
    match pc
    case CheckingCtx => if over then Result(Some(Plain(Context))) else Open
    case Waiting(_) => if ch == GiveUp then Result(Some(Plain(Context))) else Open
    case DialCheck => if over then Result(Some(Plain(Context))) else Open
    case Dialling => if ch.DialErr? then Result(Some(ch.err)) else Open
    case Putting(_) =>
      if ch.PutAck? then Result(None)
      else if ch.PutErr? && !IsConnectionError(ch.err) then Result(Some(ch.err))
      else Open
    case RedialCheck(_) => if over then Result(Some(Plain(Context))) else Open
    case Redialling(_) => if ch.RedialErr? then Result(Some(ch.err)) else Open
    case Reputting(_) =>
      if ch.PutAck? then Result(None) else if ch.PutErr? || ch.PutLost? then Result(Some(ch.err)) else Open
    case _ => Open
  }

  /** The send is on its way out with this result. */
  predicate Settled(l: Local, r: Option<Error>) {
    && l.Send?
    && match l.pc
       case Unreserving(e) => r == Some(e)
       case CheckingDialCtx(e) => r == Some(e)
       case MarkingFailed(e) => r == Some(e)
       case Discarding(_, e, _) => r == Some(e)
       case Uncounting(e, _) => r == Some(e)
       case MarkingSent(_) => r.None?
       case Releasing(_, r') => r' == r
       case Leaving(r') => r' == r
       case Returned(r') => r' == r
       case _ => false
  }

  lemma SettlesIt(g: Shared, t: Tid, pc: SendPc, h: History, ch: Choice)
    requires SendStep(g, t, pc, h, ch).To? && Settles(pc, ch, t in g.cancelled).Result?
    ensures Settled(SendStep(g, t, pc, h, ch).l, Settles(pc, ch, t in g.cancelled).r)
  {
    match pc
    case CheckingCtx =>
    case Waiting(_) =>
    case DialCheck =>
    case Dialling =>
    case Putting(_) =>
    case RedialCheck(_) =>
    case Redialling(_) =>
    case Reputting(_) =>
    case _ =>
  }

  lemma SettledStep(g: Shared, t: Tid, l: Local, ch: Choice, r: Option<Error>)
    requires Settled(l, r) && LocalStep(g, t, l, ch).To?
    ensures Settled(LocalStep(g, t, l, ch).l, r)
  {
    match l.pc
    case Unreserving(_) =>
    case CheckingDialCtx(_) =>
    case MarkingFailed(_) =>
    case Discarding(_, _, _) =>
    case Uncounting(_, _) =>
    case MarkingSent(_) =>
    case Releasing(_, _) =>
    case Leaving(_) =>
    case _ =>
  }

  lemma {:induction false} SettledStays(s: State, t: Tid, steps: seq<Step>, r: Option<Error>)
    requires t in s.threads && Settled(s.threads[t], r) && Exec(Next, s, steps).Some?
    ensures var s' := Exec(Next, s, steps).value; t in s'.threads && Settled(s'.threads[t], r)
    decreases |steps|
  {
    if steps != [] {
      if steps[0].Run? && steps[0].t == t {
        SettledStep(s.g, t, s.threads[t], steps[0].ch, r);
      }
      SettledStays(Next(s, steps[0]).value, t, steps[1..], r);
    }
  }

  ghost predicate HasReturned(s: State, t: Tid) {
    Sends(s, t) && s.threads[t].pc.Returned?
  }

  /** What a send is told is what it returns, on every run: the error of a failed dial, of a
      failed Reconnect, of a second put, or of a first put that did not lose the connection;
      nil for an acknowledged put; and the context's error where it found that ended. */
  lemma AnswerIsReturned(s: State, t: Tid, ch: Choice, steps: seq<Step>)
    requires Sends(s, t) && Settles(s.threads[t].pc, ch, t in s.g.cancelled).Result? && Next(s, Run(t, ch)).Some?
    requires Exec(Next, Next(s, Run(t, ch)).value, steps).Some?
    ensures var s' := Exec(Next, Next(s, Run(t, ch)).value, steps).value;
      HasReturned(s', t) ==> s'.threads[t].pc.result == Settles(s.threads[t].pc, ch, t in s.g.cancelled).r
  {
    SettlesIt(s.g, t, s.threads[t].pc, s.threads[t].h, ch);
    SettledStays(Next(s, Run(t, ch)).value, t, steps, Settles(s.threads[t].pc, ch, t in s.g.cancelled).r);
  }

  /** A retry loop is about to find that its context has ended, or has found it. */
  predicate Stopping(l: Local) {
    l.Send? && (l.pc.DialCheck? || l.pc.RedialCheck? || Settled(l, Some(Plain(Context))))
  }

  lemma StoppingStep(g: Shared, t: Tid, l: Local, ch: Choice)
    requires Stopping(l) && t in g.cancelled && LocalStep(g, t, l, ch).To?
    ensures Stopping(LocalStep(g, t, l, ch).l)
  {
    if Settled(l, Some(Plain(Context))) {
      SettledStep(g, t, l, ch, Some(Plain(Context)));
    }
  }

  lemma {:induction false} StoppingStays(s: State, t: Tid, steps: seq<Step>)
    requires t in s.threads && Stopping(s.threads[t]) && t in s.g.cancelled && Exec(Next, s, steps).Some?
    ensures t in Exec(Next, s, steps).value.threads && Stopping(Exec(Next, s, steps).value.threads[t])
    decreases |steps|
  {
    if steps != [] {
      if steps[0].Run? {
        CancelledStays(s.g, steps[0].t, s.threads[steps[0].t], steps[0].ch);
        if steps[0].t == t {
          StoppingStep(s.g, t, s.threads[t], steps[0].ch);
        }
      }
      StoppingStays(Next(s, steps[0]).value, t, steps[1..]);
    }
  }

  /** Once the context has ended, the attempt under way is the last one: if it fails, the
      send dials no more and puts no more, and returns the context's error, on every run. */
  lemma LastAttempt(s: State, t: Tid, ch: Choice, steps: seq<Step>)
    requires Sends(s, t) && t in s.g.cancelled && Next(s, Run(t, ch)).Some?
    requires (s.threads[t].pc.Dialling? && ch.DialAgain?) || (s.threads[t].pc.Redialling? && ch.RedialAgain?)
    requires Exec(Next, Next(s, Run(t, ch)).value, steps).Some?
    ensures var s' := Exec(Next, Next(s, Run(t, ch)).value, steps).value;
      && Sends(s', t) && !s'.threads[t].pc.Dialling? && !s'.threads[t].pc.Redialling?
      && !s'.threads[t].pc.Putting? && !s'.threads[t].pc.Reputting?
      && (HasReturned(s', t) ==> s'.threads[t].pc.result == Some(Plain(Context)))
  {
    CancelledStays(s.g, t, s.threads[t], ch);
    StoppingStays(Next(s, Run(t, ch)).value, t, steps);
  }

  // ----------------------------------------------------------------- failures

  /** The answer has to be put on record: Failed for a connection lost to the second put and
      for a Reconnect that fails, Reconnecting for one lost to the first put. */
  function Demands(pc: SendPc, ch: Choice): Option<Mark> {
    match pc
    case Putting(_) =>
      if (ch.PutErr? || ch.PutLost?) && IsConnectionError(ch.err) then Some(Mark(Reconnecting, Some(ch.err))) else None
    case Reputting(_) =>
      if (ch.PutErr? || ch.PutLost?) && IsConnectionError(ch.err) then Some(Mark(Failed, Some(ch.err))) else None
    case Redialling(_) => if ch.RedialErr? then Some(Mark(Failed, Some(ch.err))) else None
    case _ => None
  }

  /** The send is bound to add this mark as its k-th, or has added it. */
  predicate Bound(l: Local, m: Mark, k: nat) {
    && l.Send?
    && (|l.h.marks| > k ==> l.h.marks[k] == m)
    && (|l.h.marks| == k ==>
          match l.pc
          case MarkingLost(_, e) => m == Mark(Reconnecting, Some(e))
          case Discarding(_, e, mark) => mark && m == Mark(Failed, Some(e))
          case Uncounting(e, mark) => mark && m == Mark(Failed, Some(e))
          case MarkingFailed(e) => m == Mark(Failed, Some(e))
          case _ => false)
    && |l.h.marks| >= k
  }

  lemma BoundStep(g: Shared, t: Tid, pc: SendPc, h: History, ch: Choice, m: Mark, k: nat)
    requires Bound(Send(pc, h), m, k) && SendStep(g, t, pc, h, ch).To?
    ensures Bound(SendStep(g, t, pc, h, ch).l, m, k)
  {
    SendRecords(g, t, pc, h, ch);
    if |h.marks| == k {
      match pc
      case MarkingLost(_, _) =>
      case Discarding(_, _, _) =>
      case Uncounting(_, _) =>
      case MarkingFailed(_) =>
    }
  }

  lemma {:induction false} BoundStays(s: State, t: Tid, steps: seq<Step>, m: Mark, k: nat)
    requires t in s.threads && Bound(s.threads[t], m, k) && Exec(Next, s, steps).Some?
    ensures var s' := Exec(Next, s, steps).value; t in s'.threads && Bound(s'.threads[t], m, k)
    decreases |steps|
  {
    if steps != [] {
      if steps[0].Run? && steps[0].t == t {
        BoundStep(s.g, t, s.threads[t].pc, s.threads[t].h, steps[0].ch, m, k);
      }
      BoundStays(Next(s, steps[0]).value, t, steps[1..], m, k);
    }
  }

  lemma DemandBinds(g: Shared, t: Tid, pc: SendPc, h: History, ch: Choice)
    requires Demands(pc, ch).Some? && SendStep(g, t, pc, h, ch).To?
    ensures Bound(SendStep(g, t, pc, h, ch).l, Demands(pc, ch).value, |h.marks|)
  {
    match pc
    case Putting(_) =>
    case Reputting(_) =>
    case Redialling(_) =>
    case _ =>
  }

  /** A send that loses its connection, or fails to get it back, says so before it returns:
      on every run there is a state, between that answer and its return, in which the
      sender shows Reconnecting or Failed with that very error. */
  lemma FailureIsShown(s: State, t: Tid, ch: Choice, steps: seq<Step>) returns (j: nat)
    requires Sends(s, t) && Demands(s.threads[t].pc, ch).Some? && Next(s, Run(t, ch)).Some?
    requires Exec(Next, Next(s, Run(t, ch)).value, steps).Some?
    requires HasReturned(Exec(Next, Next(s, Run(t, ch)).value, steps).value, t)
    ensures var s1 := Next(s, Run(t, ch)).value;
      && j <= |steps| && Exec(Next, s1, steps[..j]).Some?
      && Shows(Exec(Next, s1, steps[..j]).value.g, Demands(s.threads[t].pc, ch).value)
  {
    var s1 := Next(s, Run(t, ch)).value;
    var k := |s.threads[t].h.marks|;
    DemandBinds(s.g, t, s.threads[t].pc, s.threads[t].h, ch);
    BoundStays(s1, t, steps, Demands(s.threads[t].pc, ch).value, k);
    j := MarksAreShown(s1, t, steps, k);
  }

  // ------------------------------------------------------------ a cancelled dial

  /** A send whose dial is given up because its context has ended. */
  predicate Abandoned(l: Local) {
    && l.Send? && l.h.marks == [] && l.h.puts == []
    && (l.pc.DialCheck? || l.pc.Unreserving? || l.pc.CheckingDialCtx? || l.pc.Leaving? || l.pc.Returned?)
  }

  /** It never puts a failure on record, on any run: a caller that gave up says nothing
      about the queue manager. */
  lemma {:induction false} AbandonedDialIsNoFailure(s: State, t: Tid, steps: seq<Step>)
    requires t in s.threads && Abandoned(s.threads[t]) && t in s.g.cancelled && Exec(Next, s, steps).Some?
    ensures var s' := Exec(Next, s, steps).value; t in s'.threads && Abandoned(s'.threads[t])
    decreases |steps|
  {
    if steps != [] {
      AbandonedStep(s, t, steps[0]);
      AbandonedDialIsNoFailure(Next(s, steps[0]).value, t, steps[1..]);
    }
  }

  lemma AbandonedStep(s: State, t: Tid, step: Step)
    requires t in s.threads && Abandoned(s.threads[t]) && t in s.g.cancelled && Next(s, step).Some?
    ensures var s' := Next(s, step).value; t in s'.threads && Abandoned(s'.threads[t]) && t in s'.g.cancelled
  {
    if step.Run? {
      CancelledStays(s.g, step.t, s.threads[step.t], step.ch);
    }
  }

  /** A send whose dial failed, whose context has not ended so far. */
  predicate DialLost(l: Local, e: Error) {
    && l.Send?
    && (l.h.marks == [] ==> l.pc == Unreserving(e) || l.pc == CheckingDialCtx(e) || l.pc == MarkingFailed(e))
    && (l.h.marks != [] ==> l.h.marks[0] == Mark(Failed, Some(e)))
  }

  lemma DialLostStep(g: Shared, t: Tid, pc: SendPc, h: History, ch: Choice, e: Error)
    requires DialLost(Send(pc, h), e) && t !in g.cancelled && SendStep(g, t, pc, h, ch).To?
    ensures DialLost(SendStep(g, t, pc, h, ch).l, e)
  {
    SendRecords(g, t, pc, h, ch);
    if h.marks == [] {
      match pc
      case Unreserving(_) =>
      case CheckingDialCtx(_) =>
      case MarkingFailed(_) =>
    }
  }

  lemma {:induction false} DialLostStays(s: State, t: Tid, steps: seq<Step>, e: Error)
    requires t in s.threads && DialLost(s.threads[t], e) && Exec(Next, s, steps).Some?
    requires t !in Exec(Next, s, steps).value.g.cancelled
    ensures t in Exec(Next, s, steps).value.threads && DialLost(Exec(Next, s, steps).value.threads[t], e)
    ensures t !in s.g.cancelled
    decreases |steps|
  {
    if t in s.g.cancelled {
      EndedStays(s, t, steps);
    } else if steps != [] {
      var s1 := Next(s, steps[0]).value;
      if steps[0].Run? {
        CancelledStays(s.g, steps[0].t, s.threads[steps[0].t], steps[0].ch);
        if steps[0].t == t {
          DialLostStep(s.g, t, s.threads[t].pc, s.threads[t].h, steps[0].ch, e);
        }
      }
      DialLostStays(s1, t, steps[1..], e);
    }
  }

  lemma {:induction false} EndedStays(s: State, t: Tid, steps: seq<Step>)
    requires Exec(Next, s, steps).Some? && t in s.g.cancelled
    ensures t in Exec(Next, s, steps).value.g.cancelled
    decreases |steps|
  {
    if steps != [] {
      if steps[0].Run? {
        CancelledStays(s.g, steps[0].t, s.threads[steps[0].t], steps[0].ch);
      }
      EndedStays(Next(s, steps[0]).value, t, steps[1..]);
    }
  }

  /** A dial that fails with e while the context lives is shown as Failed with e before the
      send returns, on every run. */
  lemma DialFailureIsShown(s: State, t: Tid, e: Error, steps: seq<Step>) returns (j: nat)
    requires Sends(s, t) && s.threads[t].pc.Dialling? && s.threads[t].h.marks == []
    requires Exec(Next, Next(s, Run(t, DialErr(e))).value, steps).Some?
    requires HasReturned(Exec(Next, Next(s, Run(t, DialErr(e))).value, steps).value, t)
    requires t !in Exec(Next, Next(s, Run(t, DialErr(e))).value, steps).value.g.cancelled
    ensures var s1 := Next(s, Run(t, DialErr(e))).value;
      && j <= |steps| && Exec(Next, s1, steps[..j]).Some?
      && Shows(Exec(Next, s1, steps[..j]).value.g, Mark(Failed, Some(e)))
  {
    var s1 := Next(s, Run(t, DialErr(e))).value;
    DialLostStays(s1, t, steps, e);
    j := MarksAreShown(s1, t, steps, 0);
  }

  // ------------------------------------------------------------------- probes

  /** The sender is as the snapshot says. */
  predicate AsSeen(g: Shared, snap: Snapshot) {
    && g.core.created == snap.created && g.core.closed == snap.closed
    && g.core.state == snap.state && g.core.lastErr == snap.lastErr
  }

  predicate HasSnapshot(l: Local, snap: Snapshot) {
    l.Probe? && !l.pp.Snapping? && l.pp.snap == snap
  }

  lemma SnapshotKept(g: Shared, t: Tid, l: Local, ch: Choice, snap: Snapshot)
    requires HasSnapshot(l, snap) && LocalStep(g, t, l, ch).To?
    ensures HasSnapshot(LocalStep(g, t, l, ch).l, snap)
  {
  }

  lemma {:induction false} SnapshotStays(s: State, t: Tid, steps: seq<Step>, snap: Snapshot)
    requires t in s.threads && HasSnapshot(s.threads[t], snap) && Exec(Next, s, steps).Some?
    ensures t in Exec(Next, s, steps).value.threads && HasSnapshot(Exec(Next, s, steps).value.threads[t], snap)
    decreases |steps|
  {
    if steps != [] {
      if steps[0].Run? && steps[0].t == t {
        SnapshotKept(s.g, t, s.threads[t], steps[0].ch, snap);
      }
      SnapshotStays(Next(s, steps[0]).value, t, steps[1..], snap);
    }
  }

  lemma SnapshotTaken(g: Shared, t: Tid, ch: Choice)
    requires LocalStep(g, t, Probe(Snapping), ch).To?
    ensures var l := LocalStep(g, t, Probe(Snapping), ch).l; l.Probe? && !l.pp.Snapping? && AsSeen(g, l.pp.snap)
  {
  }

  /** An answered probe speaks for a moment of its own run: between its call and its answer
      there is a state in which the sender was as its snapshot says. */
  lemma {:induction false} ProbeSeesAMoment(s: State, t: Tid, steps: seq<Step>) returns (j: nat)
    requires t in s.threads && s.threads[t] == Probe(Snapping) && Exec(Next, s, steps).Some?
    requires t in Exec(Next, s, steps).value.threads
    requires var l := Exec(Next, s, steps).value.threads[t]; l.Probe? && l.pp.Answered?
    ensures j <= |steps| && Exec(Next, s, steps[..j]).Some?
    ensures AsSeen(Exec(Next, s, steps[..j]).value.g, Exec(Next, s, steps).value.threads[t].pp.snap)
    decreases |steps|
  {
    var s1 := Next(s, steps[0]).value;
    if steps[0].Run? && steps[0].t == t {
      j := 0;
      SnapshotTaken(s.g, t, steps[0].ch);
      SnapshotStays(s1, t, steps[1..], s1.threads[t].pp.snap);
    } else {
      j := ProbeSeesAMoment(s1, t, steps[1..]);
      assert steps[..j + 1][0] == steps[0] && steps[..j + 1][1..] == steps[1..][..j];
      j := j + 1;
    }
  }
}
