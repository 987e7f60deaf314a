/** What every step of the URB handlers, and of the calls that start and kill a
    session around them, keeps of the URB queues. */
module SessionUrbs {
  import opened Arith
  import opened Geometry
  import opened Session
  import opened SessionControl
  import opened SessionGeometry

  // The start of this session has submitted URB k.
  predicate Submitted(g: Geo, h: Holder, k: nat) {
    k < 2 * g.active && (h.At? && h.pc.StartSubmit? ==> k < h.pc.k)
  }

  // The kill loop has not come past URB k.
  predicate ToKill(h: Holder, k: nat) {
    h.At? && (h.pc.KillNext? || h.pc.KillWait?) && h.pc.k <= k
  }

  // --------------------------------------------- URBs belong to a session

  predicate InSession(g: Geo, f: Flags, b: Bus, u: UrbState, k: nat) {
    !u.Idle? ==>
      && u.session == b.session
      && Submitted(g, f.holder, k)
      && (f.streaming || ToKill(f.holder, k))
      && b.urbLen == g.frames
  }

  predicate AllInSession(g: Geo, f: Flags, b: Bus) {
    forall k :: 0 <= k < |b.urbs| ==> InSession(g, f, b, b.urbs[k], k)
  }

  // ------------------------------------------ a missing URB stops the session

  // A start has failed after setting streaming, and takes its session down.
  predicate FailedStart(h: Holder) { h.At? && h.prog.Prepare? && h.prog.late }

  predicate Watched(f: Flags, b: Bus) {
    f.streaming && !b.gone && !FailedStart(f.holder)
  }

  // stream_work is queued, or runs and is still to act on urb_err.
  predicate WorkPending(h: Holder, b: Bus) {
    || b.queued
    || b.work.Waiting?
    || (h.At? && h.prog.StreamWork? && (h.pc.Entry? || h.pc.TestErr? || h.pc.Clear?))
  }

  predicate Left(u: UrbState) { u.Idle? || (u.Handler? && u.at.ErrLost?) }

  predicate ErrOk(g: Geo, f: Flags, b: Bus, u: UrbState, k: nat) {
    Watched(f, b) ==>
      && (Submitted(g, f.holder, k) && Left(u) ==>
            b.urbErr >= URB_ERR_STOP && (f.shutdown || WorkPending(f.holder, b)))
      && (u.Handler? && (u.at.ErrQueue? || u.at.FailQueue?) ==> b.urbErr >= URB_ERR_STOP)
      && (u.Handler? ==> u.at != Completed(Gone))
  }

  predicate AllErrOk(g: Geo, f: Flags, b: Bus) {
    forall k :: 0 <= k < |b.urbs| ==> ErrOk(g, f, b, b.urbs[k], k)
  }

  // The error count holds no more than this session's own errors.
  predicate OwnErrors(b: Bus) { b.urbErr <= b.bad || b.failed }

  // -------------------------------------------------- the OUT URBs in flight

  // bf_out_lost has been run for the URB.
  predicate PastLost(u: UrbState) { u.Handler? && (u.at.FailSet? || u.at.FailQueue?) }

  predicate LostOk(g: Geo, f: Flags, b: Bus, u: UrbState, k: nat) {
    && (!u.Idle? && !(PastLost(u) && IsOut(k)) ==> k !in b.lost)
    && (u.Handler? && (u.at.ErrLost? || u.at.FailLost?) ==> IsOut(k))
    && (IsOut(k) && PastLost(u) ==> k in b.lost)
    && (f.streaming && !b.gone && !FailedStart(f.holder) && Submitted(g, f.holder, k) && IsOut(k) && u.Idle?
        ==> k in b.lost)
    && (u.Handler? && u.at == Completed(Gone) ==> b.gone)
  }

  predicate AllLostOk(g: Geo, f: Flags, b: Bus) {
    forall k :: 0 <= k < |b.urbs| ==> LostOk(g, f, b, b.urbs[k], k)
  }

  lemma OddStep(n: nat)
    requires n > 0
    ensures !IsOut(2 * n - 2) && IsOut(2 * n - 1)
  {
  }

  // The OUT URBs of a session with n URBs in each direction.
  function OutUrbs(n: nat): (s: set<nat>)
    ensures forall k: nat :: k in s <==> IsOut(k) && k < 2 * n
    ensures |s| == n
  {
    if n == 0 then {}
    else
      OddStep(n);
      OutUrbs(n - 1) + {2 * n - 1}
  }

  // Every OUT URB of the session is in flight or lost.
  predicate Tally(n: nat, lost: set<nat>, inflight: nat) {
    lost <= OutUrbs(n) && inflight + |lost| == n
  }

  predicate LostCounted(g: Geo, f: Flags, b: Bus) {
    && (f.streaming ==>
          && Tally(g.active, b.lost, b.outInflight)
          && (forall k :: k in b.lost ==> Submitted(g, f.holder, k)))
    && (!f.streaming && f.holder.At? && f.holder.pc.StartInflight? ==> b.lost == {} && b.urbLen == g.frames)
    && (!f.streaming && f.holder.At? && f.holder.pc.StartLive? ==>
          b.lost == {} && b.outInflight == g.active && b.urbLen == g.frames)
    && (f.streaming ==> b.urbLen == g.frames)
  }

  predicate BusInv(g: Geo, f: Flags, b: Bus) {
    && AllInSession(g, f, b)
    && AllErrOk(g, f, b)
    && OwnErrors(b)
    && AllLostOk(g, f, b)
    && LostCounted(g, f, b)
  }

  // ------------------------------------------------------------- the URBs

  // Another URB takes a step that keeps what u relies on.
  lemma OthersInSession(g: Geo, f: Flags, b: Bus, b': Bus, k: nat)
    requires AllInSession(g, f, b) && k < |b.urbs|
    requires |b'.urbs| == |b.urbs| && forall j :: 0 <= j < |b.urbs| && j != k ==> b'.urbs[j] == b.urbs[j]
    requires b'.session == b.session && b'.urbLen == b.urbLen
    requires InSession(g, f, b', b'.urbs[k], k)
    ensures AllInSession(g, f, b')
  {
    forall j | 0 <= j < |b'.urbs| ensures InSession(g, f, b', b'.urbs[j], j) {
      assert InSession(g, f, b, b.urbs[j], j);
    }
  }

  lemma UrbInSession(g: Geo, f: Flags, b: Bus, k: nat, ok: bool)
    requires AllInSession(g, f, b) && k < |b.urbs| && b.urbs[k].Handler?
    ensures AllInSession(g, f, StepUrb(f, b, k, ok))
  {
    hide StepUrb, AllInSession;
    UrbOwnSession(g, f, b, k, ok);
    OthersInSession(g, f, b, StepUrb(f, b, k, ok), k);
  }

  lemma UrbOwnSession(g: Geo, f: Flags, b: Bus, k: nat, ok: bool)
    requires AllInSession(g, f, b) && k < |b.urbs| && b.urbs[k].Handler?
    ensures var b' := StepUrb(f, b, k, ok);
            && |b'.urbs| == |b.urbs|
            && (forall j :: 0 <= j < |b.urbs| && j != k ==> b'.urbs[j] == b.urbs[j])
            && b'.session == b.session && b'.urbLen == b.urbLen
            && InSession(g, f, b', b'.urbs[k], k)
  {
    assert InSession(g, f, b, b.urbs[k], k);
  }

  // What the state of urb_err and of the work must at least be after a step.
  predicate StopKept(f: Flags, b: Bus, b': Bus) {
    && (Watched(f, b') ==> Watched(f, b))
    && (b.urbErr >= URB_ERR_STOP ==> b'.urbErr >= URB_ERR_STOP)
    && (WorkPending(f.holder, b) ==> WorkPending(f.holder, b'))
  }

  lemma OthersErrOk(g: Geo, f: Flags, b: Bus, b': Bus, k: nat)
    requires AllErrOk(g, f, b) && k < |b.urbs|
    requires |b'.urbs| == |b.urbs| && forall j :: 0 <= j < |b.urbs| && j != k ==> b'.urbs[j] == b.urbs[j]
    requires StopKept(f, b, b')
    requires ErrOk(g, f, b', b'.urbs[k], k)
    ensures AllErrOk(g, f, b')
  {
    forall j | 0 <= j < |b'.urbs| ensures ErrOk(g, f, b', b'.urbs[j], j) {
      assert ErrOk(g, f, b, b.urbs[j], j);
    }
  }

  // Good completions cannot take a count that has reached the limit back.
  lemma UrbStopKept(f: Flags, b: Bus, k: nat, ok: bool)
    requires k < |b.urbs| && b.urbs[k].Handler?
    ensures StopKept(f, b, StepUrb(f, b, k, ok))
  {
  }

  lemma UrbErrOk(g: Geo, f: Flags, b: Bus, k: nat, ok: bool)
    requires AllErrOk(g, f, b) && k < |b.urbs| && b.urbs[k].Handler?
    ensures AllErrOk(g, f, StepUrb(f, b, k, ok))
  {
    hide StepUrb, StopKept, ErrOk;
    assert ErrOk(g, f, b, b.urbs[k], k);
    UrbStopKept(f, b, k, ok);
    UrbOwnErrOk(g, f, b, k, ok);
    UrbFrame(f, b, k, ok);
    OthersErrOk(g, f, b, StepUrb(f, b, k, ok), k);
  }

  lemma UrbFrame(f: Flags, b: Bus, k: nat, ok: bool)
    requires k < |b.urbs| && b.urbs[k].Handler?
    ensures var b' := StepUrb(f, b, k, ok);
            && |b'.urbs| == |b.urbs|
            && (forall j :: 0 <= j < |b.urbs| && j != k ==> b'.urbs[j] == b.urbs[j])
            && b'.gone == b.gone && (b'.lost == b.lost || b'.lost == b.lost + {k})
  {
  }

  lemma UrbOwnErrOk(g: Geo, f: Flags, b: Bus, k: nat, ok: bool)
    requires k < |b.urbs| && b.urbs[k].Handler? && ErrOk(g, f, b, b.urbs[k], k)
    ensures var b' := StepUrb(f, b, k, ok);
            |b'.urbs| == |b.urbs| && ErrOk(g, f, b', b'.urbs[k], k)
  {
  }

  lemma UrbOwnErrors(g: Geo, f: Flags, b: Bus, k: nat, ok: bool)
    requires AllInSession(g, f, b) && OwnErrors(b) && k < |b.urbs| && b.urbs[k].Handler?
    ensures OwnErrors(StepUrb(f, b, k, ok))
  {
    assert InSession(g, f, b, b.urbs[k], k);
  }

  lemma OthersLostOk(g: Geo, f: Flags, b: Bus, b': Bus, k: nat)
    requires AllLostOk(g, f, b) && k < |b.urbs|
    requires |b'.urbs| == |b.urbs| && forall j :: 0 <= j < |b.urbs| && j != k ==> b'.urbs[j] == b.urbs[j]
    requires b'.gone == b.gone && (b'.lost == b.lost || b'.lost == b.lost + {k})
    requires LostOk(g, f, b', b'.urbs[k], k)
    ensures AllLostOk(g, f, b')
  {
    forall j | 0 <= j < |b'.urbs| ensures LostOk(g, f, b', b'.urbs[j], j) {
      assert LostOk(g, f, b, b.urbs[j], j);
    }
  }

  lemma UrbLostOk(g: Geo, f: Flags, b: Bus, k: nat, ok: bool)
    requires AllLostOk(g, f, b) && k < |b.urbs| && b.urbs[k].Handler?
    ensures AllLostOk(g, f, StepUrb(f, b, k, ok))
  {
    hide StepUrb, LostOk;
    assert LostOk(g, f, b, b.urbs[k], k);
    UrbFrame(f, b, k, ok);
    UrbOwnLostOk(g, f, b, k, ok);
    OthersLostOk(g, f, b, StepUrb(f, b, k, ok), k);
  }

  lemma UrbOwnLostOk(g: Geo, f: Flags, b: Bus, k: nat, ok: bool)
    requires k < |b.urbs| && b.urbs[k].Handler? && LostOk(g, f, b, b.urbs[k], k)
    ensures var b' := StepUrb(f, b, k, ok);
            |b'.urbs| == |b.urbs| && LostOk(g, f, b', b'.urbs[k], k)
  {
  }

  lemma UrbLostCounted(g: Geo, f: Flags, b: Bus, k: nat, ok: bool)
    requires AllInSession(g, f, b) && AllLostOk(g, f, b) && LostCounted(g, f, b)
    requires k < |b.urbs| && b.urbs[k].Handler?
    ensures LostCounted(g, f, StepUrb(f, b, k, ok))
  {
    hide StepUrb, LostCounted;
    assert InSession(g, f, b, b.urbs[k], k);
    assert LostOk(g, f, b, b.urbs[k], k);
    if f.streaming {
      LiveLostCounted(g, f, b, k, ok);
    } else {
      KilledLostCounted(g, f, b, k, ok);
    }
  }

  lemma LiveLostCounted(g: Geo, f: Flags, b: Bus, k: nat, ok: bool)
    requires LostCounted(g, f, b) && f.streaming && k < |b.urbs| && b.urbs[k].Handler?
    requires InSession(g, f, b, b.urbs[k], k) && LostOk(g, f, b, b.urbs[k], k)
    ensures LostCounted(g, f, StepUrb(f, b, k, ok))
  {
    hide UrbAfter, Tally, ToKill;
    LoseKeepsTally(g.active, b.lost, b.outInflight, k);
  }

  lemma KilledLostCounted(g: Geo, f: Flags, b: Bus, k: nat, ok: bool)
    requires LostCounted(g, f, b) && !f.streaming && k < |b.urbs| && b.urbs[k].Handler?
    requires InSession(g, f, b, b.urbs[k], k)
    ensures LostCounted(g, f, StepUrb(f, b, k, ok))
  {
    hide UrbAfter, Tally;
  }

  lemma LoseKeepsTally(n: nat, lost: set<nat>, inflight: nat, k: nat)
    requires Tally(n, lost, inflight)
    ensures IsOut(k) && k < 2 * n && k !in lost ==> inflight > 0 && Tally(n, lost + {k}, inflight - 1)
  {
    if IsOut(k) && k < 2 * n && k !in lost {
      assert lost + {k} <= OutUrbs(n);
      SubsetSize(lost + {k}, OutUrbs(n));
    }
  }

  lemma UrbKeepsBus(g: Geo, f: Flags, b: Bus, k: nat, ok: bool)
    requires BusInv(g, f, b) && k < |b.urbs| && b.urbs[k].Handler?
    ensures BusInv(g, f, StepUrb(f, b, k, ok))
  {
    hide StepUrb, AllInSession, AllErrOk, AllLostOk, LostCounted, OwnErrors;
    UrbInSession(g, f, b, k, ok);
    UrbErrOk(g, f, b, k, ok);
    UrbOwnErrors(g, f, b, k, ok);
    UrbLostOk(g, f, b, k, ok);
    UrbLostCounted(g, f, b, k, ok);
  }

  lemma CompleteKeepsBus(g: Geo, f: Flags, b: Bus, k: nat, status: Status)
    requires BusInv(g, f, b) && k < |b.urbs| && b.urbs[k].InFlight?
    ensures BusInv(g, f, CompleteUrb(b, k, status))
  {
    var b' := CompleteUrb(b, k, status);
    assert InSession(g, f, b, b.urbs[k], k);
    OthersInSession(g, f, b, b', k);
    OthersErrOk(g, f, b, b', k);
    assert LostOk(g, f, b, b.urbs[k], k);
    forall j | 0 <= j < |b'.urbs| ensures LostOk(g, f, b', b'.urbs[j], j) {
      assert LostOk(g, f, b, b.urbs[j], j);
    }
  }

  // ---------------------------------------------- the calls around the URBs

  predicate AllIdle(b: Bus) {
    forall k :: 0 <= k < |b.urbs| ==> b.urbs[k].Idle?
  }

  // Without a session, and past the kill, no URB is in flight or in a handler.
  lemma QuietIsIdle(g: Geo, f: Flags, b: Bus)
    requires AllInSession(g, f, b)
    requires !f.streaming && !(f.holder.At? && (f.holder.pc.KillNext? || f.holder.pc.KillWait?))
    ensures AllIdle(b)
  {
    forall k | 0 <= k < |b.urbs| ensures b.urbs[k].Idle? {
      assert InSession(g, f, b, b.urbs[k], k);
    }
  }

  // While all URBs are idle: no session, or one that has submitted none yet.
  lemma IdleStep(g: Geo, f: Flags, b: Bus)
    requires AllIdle(b) && OwnErrors(b) && LostCounted(g, f, b)
    requires f.streaming ==> f.holder.At? && f.holder.pc == StartSubmit(0)
    ensures BusInv(g, f, b)
  {
    forall k | 0 <= k < |b.urbs|
      ensures InSession(g, f, b, b.urbs[k], k) && ErrOk(g, f, b, b.urbs[k], k) && LostOk(g, f, b, b.urbs[k], k)
    {
    }
  }

  // The points of the mutex that the queues do not look at.
  predicate Neutral(h: Holder) {
    !(h.At? && (|| h.pc.StartSubmit? || h.pc.KillNext? || h.pc.KillWait?
                || h.pc.StartInflight? || h.pc.StartLive?))
  }

  // A step that leaves the URBs and the session alone.  If it makes the work
  // give up, the count is below the limit.
  predicate SameUrbs(f: Flags, b: Bus, f': Flags, b': Bus) {
    && b' == b.(queued := b'.queued, work := b'.work)
    && f'.streaming == f.streaming
    && (f.shutdown ==> f'.shutdown)
    && (f'.holder == f.holder
        || (Neutral(f.holder) && Neutral(f'.holder) && (FailedStart(f.holder) ==> FailedStart(f'.holder))))
    && (Watched(f', b') && !f'.shutdown && WorkPending(f.holder, b) && b.urbErr >= URB_ERR_STOP ==>
          WorkPending(f'.holder, b'))
  }

  lemma SameUrbsKeep(g: Geo, f: Flags, b: Bus, f': Flags, b': Bus)
    requires BusInv(g, f, b) && SameUrbs(f, b, f', b')
    ensures BusInv(g, f', b')
  {
    hide WorkPending;
    forall k | 0 <= k < |b'.urbs|
      ensures InSession(g, f', b', b'.urbs[k], k) && ErrOk(g, f', b', b'.urbs[k], k) && LostOk(g, f', b', b'.urbs[k], k)
    {
      assert InSession(g, f, b, b.urbs[k], k);
      assert ErrOk(g, f, b, b.urbs[k], k);
      assert LostOk(g, f, b, b.urbs[k], k);
    }
  }

  // streaming is cleared: what is in flight is now for the kill loop.
  lemma ClearUrbs(g: Geo, f: Flags, b: Bus, f': Flags)
    requires BusInv(g, f, b) && f.holder.At? && f.holder.pc.Clear?
    requires !f'.streaming && f'.holder.At? && f'.holder.pc == KillNext(0)
    ensures BusInv(g, f', b)
  {
    forall k | 0 <= k < |b.urbs|
      ensures InSession(g, f', b, b.urbs[k], k) && ErrOk(g, f', b, b.urbs[k], k) && LostOk(g, f', b, b.urbs[k], k)
    {
      assert InSession(g, f, b, b.urbs[k], k);
      assert LostOk(g, f, b, b.urbs[k], k);
    }
  }

  // One turn of the kill loop.
  lemma KillUrbs(g: Geo, f: Flags, b: Bus, f': Flags)
    requires BusInv(g, f, b) && !f.streaming && !f'.streaming
    requires f.holder.At? && f'.holder.At?
    requires || (f.holder.pc.KillNext? && f'.holder.pc == KillWait(f.holder.pc.k))
             || (f.holder.pc.KillWait? && f'.holder.pc == KillNext(f.holder.pc.k + 1)
                 && f.holder.pc.k < |b.urbs| && b.urbs[f.holder.pc.k].Idle?)
    ensures BusInv(g, f', b)
  {
    forall k | 0 <= k < |b.urbs|
      ensures InSession(g, f', b, b.urbs[k], k) && ErrOk(g, f', b, b.urbs[k], k) && LostOk(g, f', b, b.urbs[k], k)
    {
      assert InSession(g, f, b, b.urbs[k], k);
      assert LostOk(g, f, b, b.urbs[k], k);
    }
  }

  // The kill loop has gone through all URBs.
  lemma KilledIsIdle(g: Geo, f: Flags, b: Bus)
    requires AllInSession(g, f, b) && !f.streaming
    requires f.holder.At? && f.holder.pc.KillNext? && f.holder.pc.k >= |b.urbs|
    ensures AllIdle(b)
  {
    forall k | 0 <= k < |b.urbs| ensures b.urbs[k].Idle? {
      assert InSession(g, f, b, b.urbs[k], k);
    }
  }

  // The start submits URB k.
  lemma SubmitUrb(g: Geo, f: Flags, b: Bus, f': Flags, b': Bus, k: nat)
    requires BusInv(g, f, b) && f.streaming && f.holder.At? && f.holder.pc == StartSubmit(k)
    requires k < 2 * g.active && k < |b.urbs|
    requires f' == f.(holder := At(f.holder.prog, StartSubmit(k + 1)))
    requires b' == b.(urbs := b.urbs[k := InFlight(b.session)])
    ensures BusInv(g, f', b')
  {
    forall j | 0 <= j < |b'.urbs|
      ensures InSession(g, f', b', b'.urbs[j], j) && ErrOk(g, f', b', b'.urbs[j], j) && LostOk(g, f', b', b'.urbs[j], j)
    {
      assert InSession(g, f, b, b.urbs[j], j);
      assert ErrOk(g, f, b, b.urbs[j], j);
      assert LostOk(g, f, b, b.urbs[j], j);
    }
  }

  // The start has submitted all URBs, or fails.
  lemma SubmitDone(g: Geo, f: Flags, b: Bus, f': Flags)
    requires BusInv(g, f, b) && f.streaming && f'.streaming && f.holder.At? && f.holder.pc.StartSubmit?
    requires f.holder.prog.Prepare? && !f.holder.prog.late && (f.shutdown ==> f'.shutdown)
    requires Neutral(f'.holder) && f'.holder.At? && f'.holder.prog.Prepare?
    requires f.holder.pc.k >= 2 * g.active || FailedStart(f'.holder)
    ensures BusInv(g, f', b)
  {
    forall k | 0 <= k < |b.urbs|
      ensures InSession(g, f', b, b.urbs[k], k) && ErrOk(g, f', b, b.urbs[k], k) && LostOk(g, f', b, b.urbs[k], k)
    {
      assert InSession(g, f, b, b.urbs[k], k);
      assert ErrOk(g, f, b, b.urbs[k], k);
      assert LostOk(g, f, b, b.urbs[k], k);
    }
  }
}
