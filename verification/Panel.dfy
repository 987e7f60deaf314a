/** SELECT of the front panel: the unit keeps one selection for each IN pair
    and does not report it, so the driver follows the presses. */
module Panel {
  const EINVAL := -22

  type Byte = b: int | 0 <= b < 256

  const FLASH_SELECT: Byte := 0x50

  // What the driver keeps: the selection of each IN pair (-1 unknown; 0 left,
  // 1 right, 2 both, 3 none), the pair shown (0 unknown), its selection,
  // whether that is known, and whether the next press steps it.
  datatype Track = Track(sel: seq<int>, shown: int, select: int, known: bool, armed: bool)
  {
    predicate Valid() {
      && |sel| == 3 && (forall p :: 0 <= p < 3 ==> -1 <= sel[p] <= 3)
      && 0 <= shown <= 3
    }

    // The entry of the pair shown.
    function Entry(): int
      requires Valid()
    {
      if shown == 0 then -1 else sel[shown - 1]
    }

    // The selection is known exactly if that entry is, and is the entry, or
    // none.
    predicate Consistent() {
      && Valid()
      && (known <==> Entry() >= 0)
      && select == (if known then Entry() else 3)
    }
  }

  const NOTHING := Track([-1, -1, -1], 0, 3, false, false)

  // bf_panel_sel_load
  function Load(t: Track): (t': Track)
    requires t.Valid()
    ensures t'.Consistent()
  {
    var e := t.Entry();
    t.(known := e >= 0, select := if e >= 0 then e else 3)
  }

  function Start(t: Track): Track
    requires t.Valid()
  {
    Load(t).(armed := false)
  }

  // The IN position of a readback: 1 to 3, or 0 if it has none.
  function InOf(st2: Byte): (i: int)
    ensures 0 <= i <= 3
    ensures i > 0 ==> st2 / 16 % 8 == 3 + i
    ensures i == 0 ==> !(4 <= st2 / 16 % 8 <= 6)
  {
    var nib := st2 / 16 % 8;
    if nib == 4 then 1 else if nib == 5 then 2 else if nib == 6 then 3 else 0
  }

  function SwitchIn(t: Track, i: int): Track
    requires t.Valid() && 1 <= i <= 3
  {
    Load(t.(shown := i)).(armed := false)
  }

  // A SELECT press: the first after a switch only shows the selection.
  function Press(t: Track): Track
    requires t.Consistent()
  {
    if !t.known then t
    else if !t.armed then t.(armed := true)
    else
      var s := (t.select + 1) % 4;
      t.(select := s, sel := t.sel[t.shown - 1 := s])
  }

  // Left, right, both, none.
  function StepsTo(s: int): int {
    if s == 0 then 1 else if s == 1 then 2 else if s == 2 then 3 else 0
  }

  // While the LEDs are dark a press only lights them; then it steps the pair
  // shown to the next selection, four presses come round, and no press concerns
  // another pair.
  lemma PressesGoRound(t: Track)
    requires t.Consistent() && t.known
    ensures !t.armed ==> Press(t) == t.(armed := true)
    ensures t.armed ==>
              && Press(t).Consistent() && Press(t).armed && Press(t).Entry() == StepsTo(t.Entry())
              && Press(t).shown == t.shown
              && (forall p :: 0 <= p < 3 && p != t.shown - 1 ==> Press(t).sel[p] == t.sel[p])
              && Press(Press(Press(Press(t)))) == t
  {
    if t.armed {
      PressOnce(t);
      PressOnce(Press(t));
      PressOnce(Press(Press(t)));
      PressOnce(Press(Press(Press(t))));
    }
  }

  lemma PressOnce(t: Track)
    requires t.Consistent() && t.known && t.armed
    ensures Press(t).Consistent() && Press(t).known && Press(t).armed
    ensures Press(t) == t.(select := StepsTo(t.Entry()), sel := t.sel[t.shown - 1 := StepsTo(t.Entry())])
  {
  }

  function Put(t: Track, pair: int, s: int, restore: bool): (t': Track)
    requires t.Consistent() && 0 <= pair < 3 && -1 <= s <= 3
    ensures t'.Consistent()
  {
    var armed := t.armed || (pair == t.shown - 1 && !restore && s >= 0);
    if s == t.sel[pair] then t.(armed := armed)
    else
      var t' := t.(sel := t.sel[pair := s], armed := armed);
      if pair == t.shown - 1 then Load(t') else t'
  }

  // The first readback only fills in the pair, every later one may switch it
  // and may carry the edge of a press.
  function First(t: Track, st: seq<Byte>): Track
    requires t.Consistent() && |st| == 4
  {
    Load(if InOf(st[2]) != 0 then t.(shown := InOf(st[2])) else t)
  }

  function Ticked(t: Track, st: seq<Byte>, prev: seq<Byte>): Track
    requires t.Consistent() && |st| == 4 && |prev| == 4
  {
    var i := InOf(st[2]);
    var t' := if i != 0 && i != t.shown then SwitchIn(t, i) else t;
    if st[3] == FLASH_SELECT && prev[3] != FLASH_SELECT then Press(t') else t'
  }

  lemma ConsistentIsValid(t: Track, i: int)
    requires t.Consistent() && 0 <= i <= 3
    ensures t.Valid() && t.(shown := i).Valid()
  {
  }

  // ------------------------------------------------------------ the unit

  // The unit: its selections, the pair shown, and whether the LEDs show its
  // selection.
  datatype Unit = Unit(sel: seq<int>, shown: int, lit: bool)
  {
    predicate Valid() {
      |sel| == 3 && (forall p :: 0 <= p < 3 ==> 0 <= sel[p] <= 3) && 1 <= shown <= 3
    }
  }

  function UnitPress(u: Unit): Unit
    requires u.Valid()
  {
    if u.lit then u.(sel := u.sel[u.shown - 1 := (u.sel[u.shown - 1] + 1) % 4])
    else u.(lit := true)
  }

  function UnitSwitch(u: Unit, i: int): Unit { u.(shown := i, lit := false) }

  datatype Event =
    | Pressed
    | Switched(i: int)
    | Told(pair: int, s: int, restore: bool)  // the control is set
    | Resumed(st: seq<Byte>)                  // the panel is started again, and read
  {
    // What is told is true: it is what the unit has.  Of the pair shown it is
    // told while the LEDs show it, and restored while they are dark, before any
    // press; or else the driver has it already, or knows that they are lit.
    predicate Happens(t: Track, u: Unit)
      requires t.Valid() && u.Valid()
    {
      match this
      case Pressed => true
      case Switched(i) => 1 <= i <= 3 && i != u.shown
      case Told(pair, s, restore) =>
        && 0 <= pair < 3 && (s == -1 || s == u.sel[pair])
        && (pair == u.shown - 1 && s >= 0 ==>
              if restore then !u.lit || t.sel[pair] == s || t.armed else u.lit)
      case Resumed(st) => |st| == 4
    }

    predicate Proper() {
      && (Switched? ==> 1 <= i <= 3)
      && (Told? ==> 0 <= pair < 3 && -1 <= s <= 3)
      && (Resumed? ==> |st| == 4)
    }
  }

  function HostAfter(t: Track, e: Event): Track
    requires t.Consistent() && e.Proper()
  {
    match e
    case Pressed => Press(t)
    case Switched(i) => SwitchIn(t, i)
    case Told(pair, s, restore) => Put(t, pair, s, restore)
    case Resumed(st) => First(Start(t), st)
  }

  // After a suspend the unit has its selections, and its LEDs are dark.
  function UnitAfter(u: Unit, e: Event): Unit
    requires u.Valid() && e.Proper()
  {
    match e
    case Pressed => UnitPress(u)
    case Switched(i) => UnitSwitch(u, i)
    case Told(_, _, _) => u
    case Resumed(st) => UnitSwitch(u, if InOf(st[2]) != 0 then InOf(st[2]) else u.shown)
  }

  // The driver knows nothing that is not so: every entry it has is the unit's,
  // and with one for the pair shown it knows whether the LEDs are lit.
  predicate Follows(t: Track, u: Unit) {
    && t.Consistent() && u.Valid() && t.shown == u.shown
    && (forall p :: 0 <= p < 3 ==> t.sel[p] == -1 || t.sel[p] == u.sel[p])
    && (t.known ==> t.armed == u.lit) && (t.armed ==> u.lit)
  }

  lemma EventKeepsFollowing(t: Track, u: Unit, e: Event)
    requires Follows(t, u) && e.Happens(t, u)
    ensures Follows(HostAfter(t, e), UnitAfter(u, e))
  {
    hide InOf;
    match e
    case Pressed => PressKeepsFollowing(t, u);
    case Switched(_) =>
    case Told(_, _, _) =>
    case Resumed(_) =>
  }

  lemma PressKeepsFollowing(t: Track, u: Unit)
    requires Follows(t, u)
    ensures Follows(Press(t), UnitPress(u))
  {
  }

  predicate Possible(t: Track, u: Unit, events: seq<Event>)
    requires Follows(t, u)
    decreases |events|
  {
    events == [] ||
    (events[0].Happens(t, u) &&
     (EventKeepsFollowing(t, u, events[0]);
      Possible(HostAfter(t, events[0]), UnitAfter(u, events[0]), events[1..])))
  }

  function HostRun(t: Track, u: Unit, events: seq<Event>): Track
    requires Follows(t, u) && Possible(t, u, events)
    decreases |events|
  {
    if events == [] then t
    else
      EventKeepsFollowing(t, u, events[0]);
      HostRun(HostAfter(t, events[0]), UnitAfter(u, events[0]), events[1..])
  }

  function UnitRun(u: Unit, events: seq<Event>): Unit
    requires u.Valid() && forall e :: e in events ==> e.Proper()
    decreases |events|
  {
    if events == [] then u else UnitRun(UnitAfter(u, events[0]), events[1..])
  }

  lemma {:induction false} PossibleIsProper(t: Track, u: Unit, events: seq<Event>)
    requires Follows(t, u) && Possible(t, u, events)
    ensures forall e :: e in events ==> e.Proper()
    decreases |events|
  {
    if events != [] {
      EventKeepsFollowing(t, u, events[0]);
      PossibleIsProper(HostAfter(t, events[0]), UnitAfter(u, events[0]), events[1..]);
      assert events == [events[0]] + events[1..];
    }
  }

  // After any run the selection the driver acts on is the one the unit has, or
  // it acts on none.
  lemma {:induction false} SelectionIsTheUnits(t: Track, u: Unit, events: seq<Event>)
    requires Follows(t, u) && Possible(t, u, events)
    ensures forall e :: e in events ==> e.Proper()
    ensures Follows(HostRun(t, u, events), UnitRun(u, events))
    decreases |events|
  {
    PossibleIsProper(t, u, events);
    if events != [] {
      EventKeepsFollowing(t, u, events[0]);
      SelectionIsTheUnits(HostAfter(t, events[0]), UnitAfter(u, events[0]), events[1..]);
    }
  }

  // The start of such a run: nothing known that is not so, and the first
  // readback shows the pair of the unit.  After probe nothing is known at all.
  lemma FirstFollows(t: Track, u: Unit, st: seq<Byte>)
    requires t.Consistent() && u.Valid() && |st| == 4 && InOf(st[2]) == u.shown
    requires forall p :: 0 <= p < 3 ==> t.sel[p] == -1 || t.sel[p] == u.sel[p]
    requires t.sel[u.shown - 1] >= 0 ==> t.armed == u.lit
    requires t.armed ==> u.lit
    ensures Follows(First(t, st), u)
  {
  }

  // The events a readback shows.
  function Shows(shown: int, st: seq<Byte>, prev: seq<Byte>): (events: seq<Event>)
    requires |st| == 4 && |prev| == 4
    ensures forall e :: e in events ==> e.Proper()
  {
    var i := InOf(st[2]);
    (if i != 0 && i != shown then [Switched(i)] else []) +
    if st[3] == FLASH_SELECT && prev[3] != FLASH_SELECT then [Pressed] else []
  }

  // A tick does for the driver what these events do.
  lemma TickIsItsEvents(t: Track, u: Unit, st: seq<Byte>, prev: seq<Byte>)
    requires Follows(t, u) && |st| == 4 && |prev| == 4
    ensures Possible(t, u, Shows(t.shown, st, prev)) && HostRun(t, u, Shows(t.shown, st, prev)) == Ticked(t, st, prev)
    ensures Follows(Ticked(t, st, prev), UnitRun(u, Shows(t.shown, st, prev)))
  {
    hide InOf;
    var events := Shows(t.shown, st, prev);
    var i := InOf(st[2]);
    var t', u' := t, u;
    if i != 0 && i != t.shown {
      EventKeepsFollowing(t, u, Switched(i));
      t', u' := SwitchIn(t, i), UnitSwitch(u, i);
      assert events[1..] == if st[3] == FLASH_SELECT && prev[3] != FLASH_SELECT then [Pressed] else [];
    }
    if st[3] == FLASH_SELECT && prev[3] != FLASH_SELECT {
      EventKeepsFollowing(t', u', Pressed);
      assert [Pressed][1..] == [];
    }
    SelectionIsTheUnits(t, u, events);
  }

  // ------------------------------------------------------------- the driver

  class Driver {
    var sel: seq<int>
    var panelIn: int
    var select: int
    var known: bool
    var armed: bool
    var seen: bool
    var prev: seq<Byte>
    var selHold: nat
    const reprobe: bool

    function State(): Track
      reads this
    {
      Track(sel, panelIn, select, known, armed)
    }

    predicate Valid()
      reads this
    {
      State().Consistent() && |prev| == 4
    }

    // probe, then babyface_panel_start
    constructor (reprobe: bool)
      ensures Valid() && State() == NOTHING && !seen && this.reprobe == reprobe
    {
      sel, panelIn, select, known, armed := [-1, -1, -1], 0, 3, false, false;
      seen, prev, selHold := false, [0, 0, 0, 0], 0;
      this.reprobe := reprobe;
    }

    method SelLoad()
      requires State().Valid()
      modifies `known, `select
      ensures State() == Load(old(State()))
    {
      var pair := panelIn - 1;
      var s := if 0 <= pair < 3 then sel[pair] else -1;
      known := s >= 0;
      select := if s >= 0 then s else 3;
    }

    // babyface_panel_start
    method Restart()
      requires Valid()
      modifies this
      ensures Valid() && State() == Start(old(State())) && !seen
    {
      seen := false;
      SelLoad();
      armed := false;
    }

    // A SELECT press, seen as the edge of its flash.
    method PressSelect()
      requires State().Consistent()
      modifies `sel, `select, `armed
      ensures State() == Press(old(State())) && State().Consistent()
    {
      if known {
        if !armed {
          armed := true;
        } else {
          var s := (select + 1) % 4;
          select := s;
          sel := sel[panelIn - 1 := s];
        }
      }
    }

    // The IN pair changes: its own selection, and the LEDs go dark.
    method SwitchTo(i: int)
      requires State().Consistent() && 1 <= i <= 3
      modifies `panelIn, `known, `select, `armed
      ensures State() == SwitchIn(old(State()), i) && State().Consistent()
    {
      panelIn := i;
      SelLoad();
      armed := false;
    }

    // The part of bf_panel_tick that follows IN and SELECT.
    method Tick(st: seq<Byte>)
      requires Valid() && |st| == 4
      modifies this
      ensures Valid() && seen && prev == st
      ensures State() == if old(seen) then Ticked(old(State()), st, old(prev)) else First(old(State()), st)
      ensures old(seen) ==> selHold == if st[3] == FLASH_SELECT then old(selHold) + 1 else 0
    {
      hide InOf, Press, SwitchIn, Track.Consistent;
      var i := InOf(st[2]);
      if !seen {
        seen := true;
        prev := st;
        ConsistentIsValid(State(), i);
        if i != 0 {
          panelIn := i;
        }
        SelLoad();
        return;
      }
      if i != 0 && i != panelIn {
        SwitchTo(i);
      }
      if st[3] == FLASH_SELECT && prev[3] != FLASH_SELECT {
        PressSelect();
      }
      selHold := if st[3] == FLASH_SELECT then selHold + 1 else 0;
      prev := st;
    }

    // bf_panel_select_put; restore: within three seconds of the start.
    method SelectPut(pair: int, v: nat, restore: bool) returns (ret: int)
      requires Valid() && 0 <= pair < 3
      modifies `sel, `known, `select, `armed
      ensures Valid()
      ensures sel == old(sel) <==> ret != 1
      ensures v > 4 <==> ret == EINVAL
      ensures v > 4 || (restore && reprobe) ==> State() == old(State())
      ensures v <= 4 && !(restore && reprobe) ==> State() == Put(old(State()), pair, if v < 4 then v else -1, restore)
    {
      hide Track.Consistent;
      ConsistentIsValid(State(), 0);
      var s := if v < 4 then v else -1;
      if v > 4 {
        return EINVAL;
      }
      if restore && reprobe {
        return 0;
      }
      if pair == panelIn - 1 && !restore && s >= 0 {
        armed := true;
      }
      if s == sel[pair] {
        assert State() == Put(old(State()), pair, s, restore);
        return 0;
      }
      sel := sel[pair := s];
      if pair == panelIn - 1 {
        SelLoad();
      }
      assert State() == Put(old(State()), pair, s, restore);
      ret := 1;
    }
  }

  // What reaches the driver: a readback, a setting of the control, or a resume
  // with its first readback.
  datatype Input = Shot(st: seq<Byte>) | Set(pair: int, v: nat, restore: bool) | Resume(st: seq<Byte>)
  {
    predicate Proper() {
      if Set? then 0 <= pair < 3 else |st| == 4
    }

    // What it tells of the unit, after a readback prev.
    function Events(shown: int, prev: seq<Byte>, reprobe: bool): (events: seq<Event>)
      requires Proper() && |prev| == 4
      ensures forall e :: e in events ==> e.Proper()
    {
      match this
      case Shot(st) => Shows(shown, st, prev)
      case Set(pair, v, restore) =>
        if v > 4 || (restore && reprobe) then [] else [Told(pair, if v < 4 then v else -1, restore)]
      case Resume(st) => [Resumed(st)]
    }

    function Last(prev: seq<Byte>): seq<Byte> { if Set? then prev else st }
  }

  // All that the control is set to is true of the unit at the time.
  ghost predicate Honest(t: Track, u: Unit, prev: seq<Byte>, reprobe: bool, inputs: seq<Input>)
    requires Follows(t, u) && |prev| == 4 && forall i :: 0 <= i < |inputs| ==> inputs[i].Proper()
    decreases |inputs|
  {
    inputs == [] ||
    (var events := inputs[0].Events(t.shown, prev, reprobe);
     Possible(t, u, events) &&
     (SelectionIsTheUnits(t, u, events);
      Honest(HostRun(t, u, events), UnitRun(u, events), inputs[0].Last(prev), reprobe, inputs[1..])))
  }

  // The unit after all of it.
  function UnitAtEnd(u: Unit, prev: seq<Byte>, reprobe: bool, inputs: seq<Input>): Unit
    requires u.Valid() && |prev| == 4 && forall i :: 0 <= i < |inputs| ==> inputs[i].Proper()
    decreases |inputs|
  {
    if inputs == [] then u
    else
      var events := inputs[0].Events(u.shown, prev, reprobe);
      UnitRunIsValid(u, events);
      UnitAtEnd(UnitRun(u, events), inputs[0].Last(prev), reprobe, inputs[1..])
  }

  lemma {:induction false} UnitRunIsValid(u: Unit, events: seq<Event>)
    requires u.Valid() && forall e :: e in events ==> e.Proper()
    ensures UnitRun(u, events).Valid()
    decreases |events|
  {
    hide InOf;
    if events != [] {
      UnitRunIsValid(UnitAfter(u, events[0]), events[1..]);
    }
  }

  // One input does for the driver what its events do.
  method Take(d: Driver, input: Input, ghost u: Unit)
    requires d.Valid() && d.seen && Follows(d.State(), u) && input.Proper()
    requires Possible(d.State(), u, input.Events(d.State().shown, d.prev, d.reprobe))
    modifies d
    ensures d.Valid() && d.seen && d.prev == input.Last(old(d.prev))
    ensures d.State() == HostRun(old(d.State()), u, input.Events(old(d.State()).shown, old(d.prev), d.reprobe))
  {
    hide InOf, Follows, Shows;
    match input
    case Shot(st) =>
      TickIsItsEvents(d.State(), u, st, d.prev);
      d.Tick(st);
    case Set(pair, v, restore) =>
      OneEvent(d.State(), u, input.Events(d.State().shown, d.prev, d.reprobe));
      var _ := d.SelectPut(pair, v, restore);
    case Resume(st) =>
      OneEvent(d.State(), u, input.Events(d.State().shown, d.prev, d.reprobe));
      d.Restart();
      d.Tick(st);
  }

  lemma OneEvent(t: Track, u: Unit, events: seq<Event>)
    requires Follows(t, u) && Possible(t, u, events) && |events| <= 1
    ensures events == [] ==> HostRun(t, u, events) == t
    ensures events != [] ==> HostRun(t, u, events) == HostAfter(t, events[0])
  {
  }

  // From probe on: a first readback that shows the pair of the unit, then any
  // readbacks, settings of the control and resumes, in any order.  The driver
  // follows the unit that did what they show, so it acts on the channels that
  // are selected, or on none.
  method Watch(reprobe: bool, first: seq<Byte>, inputs: seq<Input>, ghost u: Unit) returns (d: Driver)
    requires u.Valid() && |first| == 4 && InOf(first[2]) == u.shown
    requires forall i :: 0 <= i < |inputs| ==> inputs[i].Proper()
    requires (FirstFollows(NOTHING, u, first); Honest(First(NOTHING, first), u, first, reprobe, inputs))
    ensures fresh(d) && d.Valid() && Follows(d.State(), UnitAtEnd(u, first, reprobe, inputs))
  {
    hide InOf, Follows, UnitRun, Possible, Honest, UnitAtEnd;
    d := new Driver(reprobe);
    FirstFollows(d.State(), u, first);
    d.Tick(first);
    ghost var now := u;
    var n := 0;
    while n < |inputs|
      invariant 0 <= n <= |inputs| && d.Valid() && d.seen && d.reprobe == reprobe && Follows(d.State(), now)
      invariant now.Valid() && Honest(d.State(), now, d.prev, reprobe, inputs[n..])
      invariant UnitAtEnd(now, d.prev, reprobe, inputs[n..]) == UnitAtEnd(u, first, reprobe, inputs)
    {
      ghost var events := inputs[n].Events(d.State().shown, d.prev, reprobe);
      NextInput(d.State(), now, d.prev, reprobe, inputs[n..]);
      assert inputs[n..][1..] == inputs[n + 1..];
      Take(d, inputs[n], now);
      now := UnitRun(now, events);
      n := n + 1;
    }
    assert inputs[n..] == [];
    NothingLeft(now, d.prev, reprobe);
  }

  lemma NextInput(t: Track, u: Unit, prev: seq<Byte>, reprobe: bool, inputs: seq<Input>)
    requires Follows(t, u) && |prev| == 4 && inputs != [] && forall i :: 0 <= i < |inputs| ==> inputs[i].Proper()
    requires Honest(t, u, prev, reprobe, inputs)
    ensures var events := inputs[0].Events(t.shown, prev, reprobe);
            && Possible(t, u, events) && UnitRun(u, events).Valid()
            && Follows(HostRun(t, u, events), UnitRun(u, events))
            && Honest(HostRun(t, u, events), UnitRun(u, events), inputs[0].Last(prev), reprobe, inputs[1..])
            && UnitAtEnd(u, prev, reprobe, inputs)
               == UnitAtEnd(UnitRun(u, events), inputs[0].Last(prev), reprobe, inputs[1..])
  {
    hide InOf, Shows, Possible, HostRun, UnitRun, Input.Events;
    assert t.shown == u.shown;
    SelectionIsTheUnits(t, u, inputs[0].Events(t.shown, prev, reprobe));
    UnitNext(u, prev, reprobe, inputs);
  }

  lemma NothingLeft(u: Unit, prev: seq<Byte>, reprobe: bool)
    requires u.Valid() && |prev| == 4
    ensures UnitAtEnd(u, prev, reprobe, []) == u
  {
  }

  lemma UnitNext(u: Unit, prev: seq<Byte>, reprobe: bool, inputs: seq<Input>)
    requires u.Valid() && |prev| == 4 && inputs != [] && forall i :: 0 <= i < |inputs| ==> inputs[i].Proper()
    ensures var events := inputs[0].Events(u.shown, prev, reprobe);
            && UnitRun(u, events).Valid()
            && UnitAtEnd(u, prev, reprobe, inputs)
               == UnitAtEnd(UnitRun(u, events), inputs[0].Last(prev), reprobe, inputs[1..])
  {
    hide InOf, Shows, UnitRun;
    UnitRunIsValid(u, inputs[0].Events(u.shown, prev, reprobe));
  }
}
