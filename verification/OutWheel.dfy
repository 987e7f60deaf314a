/** The OUT wheel of the front panel: it moves both sides of an output
    together, and its levels follow the firmware's own count. */
module OutWheel {
  import opened Arith
  import opened MasterCurve

  // Levels in half dB; the louder side is kept at MUTED when it is muted.
  const FLOOR := -180
  const MUTED := FLOOR - 1
  const TOP := 12

  datatype Db = Db(l: int, r: int)
  {
    function Louder(): int { if l >= r then l else r }
    function Difference(): int { l - r }

    predicate InRange() { MUTED <= Louder() <= TOP }
  }

  datatype Steps = Steps(l: int, r: int)
  {
    predicate Valid() { 0 <= l <= STEP_MAX && 0 <= r <= STEP_MAX }
  }

  // The firmware's step at the level of the louder side.
  function WheelStep(h: int): (s: int)
    ensures 1 <= s <= 6
  {
    if h >= -19 then 1 else if h >= -51 then 2 else if h >= -83 then 3 else if h >= -115 then 4 else 6
  }

  // bf_out_wheel_click
  function Click(db: Db, step: int): Db {
    var louder := db.Louder();
    var shift :=
      if louder < FLOOR then (if step < 0 then 0 else FLOOR - louder + step)
      else if louder + step < FLOOR then MUTED - louder
      else if louder + step > TOP then TOP - louder
      else step;
    Db(db.l + shift, db.r + shift)
  }

  // The i-th click of a poll: the first may be slow, the others are fast.
  function ClickStep(db: Db, dir: int, fast: bool, i: nat): int {
    var louder := if db.Louder() < FLOOR then FLOOR else db.Louder();
    var step := dir * WheelStep(louder);
    if fast || i > 0 then step * 2 else step
  }

  // The first n clicks of one poll.
  function Clicks(db: Db, dir: int, fast: bool, n: nat): Db {
    if n == 0 then db
    else
      var before := Clicks(db, dir, fast, n - 1);
      Click(before, ClickStep(before, dir, fast, n - 1))
  }

  // The step of a side on the wire: below the floor it is muted.
  function StepOf(h: int): int {
    if h < FLOOR then 0 else h + STEP_0DB
  }

  // One click: inside the range both sides move by exactly the step, and the
  // opposite step takes them back.  The louder side stops at the top, goes to
  // MUTED from less than a step above the floor, and comes back from there to
  // a step above the floor.
  lemma ClickMoves(db: Db, step: int)
    requires db.InRange() && -12 <= step <= 12 && step != 0
    ensures Click(db, step).InRange() && Click(db, step).Difference() == db.Difference()
    ensures FLOOR <= db.Louder() && FLOOR <= db.Louder() + step <= TOP ==>
              Click(db, step) == Db(db.l + step, db.r + step) && Click(Click(db, step), -step) == db
    ensures step > 0 ==> Click(db, step).Louder() == Min(TOP, Max(FLOOR, db.Louder()) + step)
    ensures step < 0 ==> Click(db, step).Louder() == if db.Louder() + step < FLOOR then MUTED else db.Louder() + step
  {
  }

  // Each click of a poll goes on in its direction until the louder side is at
  // the top, or muted.
  lemma {:induction false} ClicksMove(db: Db, dir: int, fast: bool, n: nat)
    requires db.InRange() && (dir == 1 || dir == -1)
    ensures Clicks(db, dir, fast, n).InRange()
    ensures Clicks(db, dir, fast, n).Difference() == db.Difference()
    ensures if dir > 0 then Clicks(db, dir, fast, n).Louder() >= Min(TOP, db.Louder() + n)
            else Clicks(db, dir, fast, n).Louder() <= Max(MUTED, db.Louder() - n)
  {
    hide Click;
    if n > 0 {
      ClicksMove(db, dir, fast, n - 1);
      var before := Clicks(db, dir, fast, n - 1);
      ClickMoves(before, ClickStep(before, dir, fast, n - 1));
    }
  }

  // The clicks of a poll after the first one are fast.
  lemma {:induction false} FirstThenFast(db: Db, dir: int, fast: bool, n: nat)
    ensures Clicks(db, dir, fast, n + 1) == Clicks(Clicks(db, dir, fast, 1), dir, true, n)
  {
    hide Click;
    if n > 0 {
      FirstThenFast(db, dir, fast, n - 1);
    } else {
      assert Clicks(Clicks(db, dir, fast, 1), dir, true, 0) == Clicks(db, dir, fast, 1);
    }
  }

  // --------------------------------------------------- one output over turns

  // What the driver keeps of an output: the master, and the last master the
  // wheel wrote (NO_STEP before the first turn) with the levels it stood for.
  const NO_STEP := 0xffff

  datatype Tracked = Tracked(master: Steps, last: Steps, hdb: Db)
  {
    predicate Valid() {
      && master.Valid()
      && (last.l == NO_STEP || last.l == StepOf(hdb.l))
      && (last.r == NO_STEP || last.r == StepOf(hdb.r))
      && (last.l == NO_STEP <==> last.r == NO_STEP)
      && (last.l != NO_STEP ==> hdb.InRange())
    }
  }

  function LevelOf(step: int, last: int, hdb: int): int {
    if step == last then hdb
    else if step == 0 then MUTED
    else step - STEP_0DB
  }

  // bf_out_wheel_level for both sides
  function Levels(t: Tracked): Db {
    Db(LevelOf(t.master.l, t.last.l, t.hdb.l), LevelOf(t.master.r, t.last.r, t.hdb.r))
  }

  // One poll that saw the wheel turn.
  datatype Turn = Turn(up: bool, clicks: nat, fast: bool)

  function AfterTurn(t: Tracked, turn: Turn): Tracked {
    var db := Clicks(Levels(t), if turn.up then 1 else -1, turn.fast, turn.clicks);
    var next := Steps(StepOf(db.l), StepOf(db.r));
    Tracked(next, next, db)
  }

  function AfterTurns(t: Tracked, turns: seq<Turn>): Tracked
    decreases |turns|
  {
    if turns == [] then t else AfterTurns(AfterTurn(t, turns[0]), turns[1..])
  }

  // A muted side that the wheel did not mute counts as just below the floor,
  // so the louder side is always in the range of the wheel.
  lemma LevelsInRange(t: Tracked)
    requires t.Valid()
    ensures Levels(t).InRange()
  {
  }

  lemma TurnKeeps(t: Tracked, turn: Turn)
    requires t.Valid()
    ensures var t' := AfterTurn(t, turn);
            && t'.Valid() && t'.last == t'.master && Levels(t') == t'.hdb && t'.hdb.InRange()
            && t'.hdb.Difference() == Levels(t).Difference()
  {
    LevelsInRange(t);
    ClicksMove(Levels(t), if turn.up then 1 else -1, turn.fast, turn.clicks);
  }

  // However the wheel turns, with no other writer: the tracked difference of
  // the sides never changes, every step written is one of the master's, and
  // whenever both sides can be heard the steps differ by what they did at
  // first, even after the floor had hidden one of them.
  lemma {:induction false} TurnsKeepTheBalance(t: Tracked, turns: seq<Turn>)
    requires t.Valid()
    ensures var t' := AfterTurns(t, turns);
            && t'.Valid() && Levels(t').InRange()
            && Levels(t').Difference() == Levels(t).Difference()
            && (turns != [] && t'.master.l > 0 && t'.master.r > 0 ==>
                  t'.master.l - t'.master.r == Levels(t).Difference())
    decreases |turns|
  {
    hide Levels, AfterTurn, Tracked.Valid;
    if turns != [] {
      TurnKeeps(t, turns[0]);
      TurnsKeepTheBalance(AfterTurn(t, turns[0]), turns[1..]);
      LastTurn(t, turns);
    } else {
      LevelsInRange(t);
    }
  }

  lemma {:induction false} LastTurn(t: Tracked, turns: seq<Turn>)
    requires t.Valid() && turns != []
    ensures var t' := AfterTurns(t, turns);
            && t'.master.l > 0 && t'.master.r > 0 ==> t'.master.l - t'.master.r == Levels(t').Difference()
    decreases |turns|
  {
    hide Clicks;
    TurnKeeps(t, turns[0]);
    if |turns| > 1 {
      LastTurn(AfterTurn(t, turns[0]), turns[1..]);
    }
  }

  // The wheel's own step at a master: half a dB from -9.5 dB up, more below.
  function SlowStep(m: int): int {
    if m >= 162 then 1 else if m >= 130 then 2 else if m >= 98 then 3 else if m >= 66 then 4 else 6
  }

  // A turn of one click.
  lemma FirstClick(t: Tracked, up: bool, fast: bool)
    requires t.Valid()
    ensures var db := Levels(t);
            && AfterTurn(t, Turn(up, 1, fast)).hdb == Click(db, ClickStep(db, if up then 1 else -1, fast, 0))
            && Levels(AfterTurn(t, Turn(up, 1, fast))) == AfterTurn(t, Turn(up, 1, fast)).hdb
  {
    hide Click, ClickStep, Levels;
    TurnKeeps(t, Turn(up, 1, fast));
    assert Clicks(Levels(t), if up then 1 else -1, fast, 0) == Levels(t);
  }

  lemma StepOfClick(db: Db, dir: int, fast: bool)
    requires db.InRange() && (dir == 1 || dir == -1)
    ensures ClickStep(db, dir, fast, 0) == dir * (SlowStep(db.Louder() + STEP_0DB) * (if fast then 2 else 1))
  {
  }

  // The larger master is the louder level.
  lemma LouderMaster(t: Tracked)
    requires t.Valid()
    ensures Levels(t).InRange() && Levels(t).Louder() == Max(t.master.l, t.master.r) - STEP_0DB
  {
    LevelsInRange(t);
    LevelsAreSteps(t);
  }

  // One click in the steps of the masters.  Heard, the louder one moves by the
  // step of its level, twice that when fast, and stops at the last step or mutes
  // below the first; muted, it comes back a step above the first one.
  lemma OneClick(t: Tracked, up: bool, fast: bool)
    requires t.Valid()
    ensures var m := Max(t.master.l, t.master.r);
            var step := SlowStep(m) * (if fast then 2 else 1);
            var t' := AfterTurn(t, Turn(up, 1, fast));
            && t'.Valid()
            && Max(t'.master.l, t'.master.r)
               == (if up then Min(STEP_MAX, Max(1, m) + step) else if m > step then m - step else 0)
            && t'.hdb.Difference() == Levels(t).Difference()
  {
    hide Click, ClickStep, Levels, AfterTurn, Tracked.Valid;
    var t' := AfterTurn(t, Turn(up, 1, fast));
    TurnKeeps(t, Turn(up, 1, fast));
    FirstClick(t, up, fast);
    LouderMaster(t);
    LouderMaster(t');
    StepOfClick(Levels(t), if up then 1 else -1, fast);
    ClickMoves(Levels(t), ClickStep(Levels(t), if up then 1 else -1, fast, 0));
  }

  // A click and the click back at the same speed, neither cut short, give the
  // levels again if and only if both have the same step.
  lemma ClickAndBack(t: Tracked, up: bool, fast: bool)
    requires t.Valid() && t.master.l + t.master.r > 0
    ensures var m := Max(t.master.l, t.master.r);
            var m' := m + (if up then 1 else -1) * SlowStep(m) * (if fast then 2 else 1);
            var t' := AfterTurn(t, Turn(up, 1, fast));
            1 <= m' <= STEP_MAX ==>
              (AfterTurn(t', Turn(!up, 1, fast)).hdb == Levels(t) <==> SlowStep(m') == SlowStep(m))
  {
    hide Click, ClickStep, Levels, AfterTurn, Tracked.Valid, SlowStep;
    var t', dir := AfterTurn(t, Turn(up, 1, fast)), if up then 1 else -1;
    var db := Levels(t);
    OneClick(t, up, fast);
    FirstClick(t, up, fast);
    FirstClick(t', !up, fast);
    LouderMaster(t);
    LouderMaster(t');
    StepOfClick(db, dir, fast);
    StepOfClick(Levels(t'), -dir, fast);
    SlowStepIs(Max(t.master.l, t.master.r));
    SlowStepIs(Max(t'.master.l, t'.master.r));
    MastersInRange(t);
    ClickMoves(db, ClickStep(db, dir, fast, 0));
    ClickMoves(Levels(t'), ClickStep(Levels(t'), -dir, fast, 0));
  }

  lemma SlowStepIs(m: int)
    ensures 1 <= SlowStep(m) <= 6
    ensures m >= 162 ==> SlowStep(m) == 1
  {
  }

  lemma MastersInRange(t: Tracked)
    requires t.Valid()
    ensures 0 <= t.master.l <= STEP_MAX && 0 <= t.master.r <= STEP_MAX
  {
  }

  // A side that is heard has its master's level, and the louder side's is known
  // from the larger master.
  lemma LevelsAreSteps(t: Tracked)
    requires t.Valid()
    ensures t.master.l > 0 ==> Levels(t).l == t.master.l - STEP_0DB
    ensures t.master.r > 0 ==> Levels(t).r == t.master.r - STEP_0DB
    ensures t.master.l == 0 ==> Levels(t).l < FLOOR
    ensures t.master.r == 0 ==> Levels(t).r < FLOOR
    ensures Levels(t).Louder() == Max(t.master.l, t.master.r) - STEP_0DB
  {
    LevelsInRange(t);
  }

  // A poll of several clicks does what a poll of its first click and one of the
  // others, fast, do.
  lemma TurnByClicks(t: Tracked, up: bool, fast: bool, n: nat)
    requires t.Valid()
    ensures AfterTurn(t, Turn(up, n + 1, fast)) == AfterTurn(AfterTurn(t, Turn(up, 1, fast)), Turn(up, n, true))
  {
    hide Clicks, Levels, Tracked.Valid;
    TurnKeeps(t, Turn(up, 1, fast));
    FirstThenFast(Levels(t), if up then 1 else -1, fast, n);
  }

  function TotalClicks(turns: seq<Turn>): nat {
    if turns == [] then 0 else turns[0].clicks + TotalClicks(turns[1..])
  }

  // Turned one way, click by click or fast, the louder master gets to the end.
  lemma {:induction false} TurnsReachTheEnd(t: Tracked, turns: seq<Turn>, up: bool)
    requires t.Valid() && forall i :: 0 <= i < |turns| ==> turns[i].up == up
    ensures var m, m' := Levels(t).Louder(), Levels(AfterTurns(t, turns)).Louder();
            if up then m' >= Min(TOP, m + TotalClicks(turns)) else m' <= Max(MUTED, m - TotalClicks(turns))
    decreases |turns|
  {
    hide Levels, AfterTurn, Tracked.Valid;
    if turns != [] {
      TurnMoves(t, turns[0]);
      TurnKeeps(t, turns[0]);
      TurnsReachTheEnd(AfterTurn(t, turns[0]), turns[1..], up);
    }
  }

  lemma TurnMoves(t: Tracked, turn: Turn)
    requires t.Valid()
    ensures var m, m' := Levels(t).Louder(), Levels(AfterTurn(t, turn)).Louder();
            if turn.up then m' >= Min(TOP, m + turn.clicks) else m' <= Max(MUTED, m - turn.clicks)
  {
    LevelsInRange(t);
    TurnKeeps(t, turn);
    ClicksMove(Levels(t), if turn.up then 1 else -1, turn.fast, turn.clicks);
  }

  // Turned up by as many clicks as there are steps, from wherever it was, the
  // louder master is at the last step, and any balance whose sides are at most
  // the range of the wheel apart is back, even if the floor had hidden a side.
  // Turned down by as many, both sides are muted.
  lemma HiddenBalanceReturns(t: Tracked, turns: seq<Turn>, up: bool)
    requires t.Valid() && TotalClicks(turns) >= STEP_MAX && forall i :: 0 <= i < |turns| ==> turns[i].up == up
    ensures var d, t' := Levels(t).Difference(), AfterTurns(t, turns);
            if up then
              && Max(t'.master.l, t'.master.r) == STEP_MAX
              && (-192 <= d <= 192 ==>
                    t'.master.l > 0 && t'.master.r > 0 && t'.master.l - t'.master.r == d)
            else t'.master.l == 0 && t'.master.r == 0
  {
    hide AfterTurns, Levels;
    TurnsKeepTheBalance(t, turns);
    TurnsReachTheEnd(t, turns, up);
    LevelsInRange(t);
    LevelsAreSteps(AfterTurns(t, turns));
  }

  // ------------------------------------------------------- the balance wheel

  // The balance after n clicks, each a step of the wheel at the distance of
  // the quieter side.
  function Balance(bal: int, dir: int, n: nat): int {
    if n == 0 then bal
    else
      var b := Balance(bal, dir, n - 1);
      b + dir * WheelStep(-Abs(b))
  }

  function MasterLevel(step: int): int { if step != 0 then step - STEP_0DB else MUTED }

  // bf_panel_balance_wheel: the louder side stays, the other moves.
  function Balanced(p: Steps, delta: int): Steps {
    var db := Db(MasterLevel(p.l), MasterLevel(p.r));
    var louder := db.Louder();
    var lim := louder - MUTED;
    var bal := Clamp(Balance(db.r - db.l, if delta > 0 then 1 else -1, Abs(delta)), -lim, lim);
    Steps(StepOf(if bal > 0 then louder - bal else louder), StepOf(if bal < 0 then louder + bal else louder))
  }

  lemma {:induction false} BalanceMoves(bal: int, dir: int, n: nat)
    requires dir == 1 || dir == -1
    ensures dir == 1 ==> Balance(bal, dir, n) >= bal + n
    ensures dir == -1 ==> Balance(bal, dir, n) <= bal - n
  {
    if n > 0 {
      BalanceMoves(bal, dir, n - 1);
    }
  }

  // The louder side never changes, the image moves the way the wheel turns,
  // until the other side is muted, and both steps are ones of the master.
  lemma BalancedKeepsTheLouder(p: Steps, delta: int)
    requires p.Valid() && (p.l > 0 || p.r > 0)
    ensures var b := Balanced(p, delta);
            && b.Valid()
            && Max(b.l, b.r) == Max(p.l, p.r)
            && (delta > 0 ==> b.l <= p.l && b.r >= p.r && (p.l > 0 ==> b != p))
            && (delta < 0 ==> b.l >= p.l && b.r <= p.r && (p.r > 0 ==> b != p))
            && (delta == 0 ==> b == p)
            && (delta >= Max(p.l, p.r) - (p.r - p.l) ==> b == Steps(0, Max(p.l, p.r)))
            && (-delta >= Max(p.l, p.r) + (p.r - p.l) && delta < 0 ==> b == Steps(Max(p.l, p.r), 0))
  {
    hide Balance;
    var db := Db(MasterLevel(p.l), MasterLevel(p.r));
    BalanceMoves(db.r - db.l, if delta > 0 then 1 else -1, Abs(delta));
    BalanceStart(db.r - db.l, if delta > 0 then 1 else -1);
  }

  lemma BalanceStart(bal: int, dir: int)
    ensures Balance(bal, dir, 0) == bal
    ensures Balance(bal, dir, 1) == bal + dir * WheelStep(-Abs(bal))
  {
  }

  // The step of a click at a difference of the sides.
  function BalanceStep(d: int): int {
    if -19 <= d <= 19 then 1 else if -51 <= d <= 51 then 2 else if -83 <= d <= 83 then 3
    else if -115 <= d <= 115 then 4 else 6
  }

  // One click changes the difference of the masters by the step of that
  // difference, until the quieter side is muted.
  lemma BalanceClick(p: Steps, right: bool)
    requires p.Valid() && (p.l > 0 || p.r > 0)
    ensures var d, m := p.r - p.l, Max(p.l, p.r);
            var b := Balanced(p, if right then 1 else -1);
            && b.Valid() && Max(b.l, b.r) == m
            && b.r - b.l == if right then Min(d + BalanceStep(d), m) else Max(d - BalanceStep(d), -m)
  {
    hide Balance, Balanced, WheelStep, BalanceStep;
    var d, dir := p.r - p.l, if right then 1 else -1;
    BalancedKeepsTheLouder(p, dir);
    DifferenceOf(p, dir);
    BalanceStart(d, dir);
    BalanceStepIs(d);
  }

  lemma BalanceStepIs(d: int)
    ensures WheelStep(-Abs(d)) == BalanceStep(d) > 0
  {
  }

  // A poll of several clicks does what as many polls of one click do.
  lemma BalanceByClicks(p: Steps, right: bool, n: nat)
    requires p.Valid() && (p.l > 0 || p.r > 0) && n > 0
    ensures var delta: int, dir := if right then n else -(n as int), if right then 1 else -1;
            && Balanced(p, delta).Valid() && (Balanced(p, delta).l > 0 || Balanced(p, delta).r > 0)
            && Balanced(p, delta + dir) == Balanced(Balanced(p, delta), dir)
  {
    hide Balance, Balanced, WheelStep, Clamp;
    var delta: int, dir := if right then n else -(n as int), if right then 1 else -1;
    var d, m := p.r - p.l, Max(p.l, p.r);
    BalancedKeepsTheLouder(p, delta);
    var q := Balanced(p, delta);
    var x := Balance(d, dir, n);
    BalanceNext(d, dir, n);
    DifferenceOf(p, delta);
    DifferenceOf(p, delta + dir);
    DifferenceOf(q, dir);
    BalanceStart(q.r - q.l, dir);
    BalancedKeepsTheLouder(p, delta + dir);
    BalancedKeepsTheLouder(q, dir);
    StepIsPositive(-Abs(x));
    StepIsPositive(-Abs(q.r - q.l));
    BalanceMoves(d, dir, n);
    ClampedFirst(x, q.r - q.l, m, dir, WheelStep(-Abs(x)), WheelStep(-Abs(q.r - q.l)));
    KnownByDifference(Balanced(p, delta + dir), Balanced(q, dir));
  }

  lemma ClampedFirst(x: int, y: int, m: int, dir: int, s: int, t: int)
    requires m >= 0 && y == Clamp(x, -m, m)
    requires (dir == 1 && x > -m) || (dir == -1 && x < m)
    requires s > 0 && t > 0 && (x == y ==> s == t)
    ensures Clamp(x + dir * s, -m, m) == Clamp(y + dir * t, -m, m)
  {
  }

  lemma KnownByDifference(p: Steps, q: Steps)
    requires Max(p.l, p.r) == Max(q.l, q.r) && p.r - p.l == q.r - q.l
    ensures p == q
  {
  }

  lemma StepIsPositive(h: int)
    ensures WheelStep(h) > 0
  {
  }

  lemma BalanceNext(bal: int, dir: int, n: nat)
    ensures Balance(bal, dir, n + 1) == Balance(bal, dir, n) + dir * WheelStep(-Abs(Balance(bal, dir, n)))
  {
  }

  lemma DifferenceOf(p: Steps, delta: int)
    requires p.Valid() && (p.l > 0 || p.r > 0)
    ensures var m := Max(p.l, p.r);
            Balanced(p, delta).r - Balanced(p, delta).l
            == Clamp(Balance(p.r - p.l, if delta > 0 then 1 else -1, Abs(delta)), -m, m)
  {
    hide Balance;
  }

  // ------------------------------------------------------------ in place

  method ClickInPlace(db: array<int>, step: int)
    requires db.Length == 2
    modifies db
    ensures Db(db[0], db[1]) == Click(Db(old(db[0]), old(db[1])), step)
    ensures FLOOR <= old(Db(db[0], db[1])).Louder() && FLOOR <= old(Db(db[0], db[1])).Louder() + step <= TOP ==>
              db[0] == old(db[0]) + step && db[1] == old(db[1]) + step
  {
    var louder := if db[0] >= db[1] then db[0] else db[1];
    var shift := step;
    if louder < FLOOR {
      if step < 0 {
        return;
      }
      shift := FLOOR - louder + step;
    } else if louder + step < FLOOR {
      shift := MUTED - louder;
    } else if louder + step > TOP {
      shift := TOP - louder;
    }
    db[0] := db[0] + shift;
    db[1] := db[1] + shift;
  }

  // The loop over the clicks of a poll.
  method TurnLevels(db: array<int>, dir: int, fast: bool, clicks: nat)
    requires db.Length == 2
    modifies db
    ensures Db(db[0], db[1]) == Clicks(Db(old(db[0]), old(db[1])), dir, fast, clicks)
  {
    hide WheelStep, Click;
    ghost var start := Db(db[0], db[1]);
    var i := 0;
    while i < clicks
      invariant 0 <= i <= clicks
      invariant Db(db[0], db[1]) == Clicks(start, dir, fast, i)
    {
      var louder := if db[0] >= db[1] then db[0] else db[1];
      if louder < FLOOR {
        louder := FLOOR;
      }
      var step := dir * WheelStep(louder);
      if fast || i > 0 {
        step := step * 2;
      }
      ghost var before := Db(db[0], db[1]);
      ClickInPlace(db, step);
      assert step == ClickStep(before, dir, fast, i);
      i := i + 1;
    }
  }

  method TurnBalance(p: Steps, delta: int) returns (next: Steps)
    requires p.Valid() && (p.l > 0 || p.r > 0)
    ensures next == Balanced(p, delta)
  {
    hide WheelStep, Clamp, StepOf, MasterLevel;
    var l, r := MasterLevel(p.l), MasterLevel(p.r);
    var louder := if l >= r then l else r;
    var bal := r - l;
    var dir := if delta > 0 then 1 else -1;
    var i := 0;
    while i < Abs(delta)
      invariant 0 <= i <= Abs(delta)
      invariant bal == Balance(r - l, dir, i)
    {
      bal := bal + dir * WheelStep(-Abs(bal));
      i := i + 1;
    }
    var lim := louder - MUTED;
    bal := Clamp(bal, -lim, lim);
    l := if bal > 0 then louder - bal else louder;
    r := if bal < 0 then louder + bal else louder;
    next := Steps(StepOf(l), StepOf(r));
  }
}
