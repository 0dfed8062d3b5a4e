/**
  The plate (target) table of the multi-target air-defence program (cur.cpp)
  as values: 30 slots, the first `count` of which have been used. A slot is a
  live track while `processed` is false; the four locator timestamps record
  when LEFT-1, LEFT-2, RIGHT-1 and RIGHT-2 saw it (0 = not yet). The class in
  air_defense_system.dfy updates an array in place and is specified by the
  functions here.
 */
module Tracks {

  const PlateSlots := 30
  /** A slot not seen for this long (µs) is reclaimed. */
  const StaleAfter := 3000000
  /** A processed slot is reclaimed this long (µs) after its last sighting. */
  const FreedAfter := 1000000

  /** One row of `plates[]`. */
  datatype Plate = Plate(
    height: int, speed: int, direction: int,
    t1: int, t2: int, t3: int, t4: int,
    processed: bool)

  /** A reset slot: every field zero and processed set, meaning free. */
  const FreeSlot := Plate(0, 0, 0, 0, 0, 0, 0, true)

  /** A slot (re)initialised for a target flying in lane `h`. */
  function NewTrack(h: int): Plate {
    Plate(h, 0, 0, 0, 0, 0, 0, false)
  }

  /** A live track of lane `h`. */
  predicate Live(p: Plate, h: int) {
    !p.processed && p.height == h
  }

  function Max(a: int, b: int): int {
    if a < b then b else a
  }

  /** The latest sighting of a slot, 0 when it was never seen. */
  function Latest(p: Plate): (t: int)
    ensures t >= 0 && t >= p.t1 && t >= p.t2 && t >= p.t3 && t >= p.t4
    ensures t == 0 || t == p.t1 || t == p.t2 || t == p.t3 || t == p.t4
  {
    Max(Max(Max(Max(0, p.t1), p.t2), p.t3), p.t4)
  }

  /** The reclamation rule of `cleanup_old_plates`. */
  predicate Stale(p: Plate, now: int) {
    || (Latest(p) > 0 && now - Latest(p) > StaleAfter)
    || (p.processed && now - Latest(p) > FreedAfter)
  }

  /** Slot `i` after one sweep. */
  function Reclaimed(s: seq<Plate>, count: int, now: int, i: int): Plate
    requires 0 <= i < |s|
  {
    if i < count && Stale(s[i], now) then FreeSlot else s[i]
  }

  /** The table after `cleanup_old_plates` at time `now`: stale slots among the first
      `count` are reset, every other slot is left as it was. */
  function Swept(s: seq<Plate>, count: int, now: int): (r: seq<Plate>)
    ensures |r| == |s|
    ensures forall i :: 0 <= i < |s| ==> r[i] == Reclaimed(s, count, now, i)
  {
    seq(|s|, i requires 0 <= i < |s| => Reclaimed(s, count, now, i))
  }

  /** A second sweep at the same time changes nothing. */
  lemma SweepIdempotent(s: seq<Plate>, count: int, now: int)
    ensures Swept(Swept(s, count, now), count, now) == Swept(s, count, now)
  {
    var once := Swept(s, count, now);
    forall i | 0 <= i < |s|
      ensures Reclaimed(once, count, now, i) == once[i]
    {
      if i < count && Stale(s[i], now) {
        assert once[i] == FreeSlot;
      }
    }
  }

  /** The lowest index in `i..count` of a live track of lane `h`, or -1. */
  function ActiveFrom(s: seq<Plate>, count: int, h: int, i: int): (r: int)
    requires 0 <= i <= count <= |s|
    ensures r == -1 || i <= r < count
    ensures r != -1 ==> Live(s[r], h)
    ensures forall j :: i <= j < count && (r == -1 || j < r) ==> !Live(s[j], h)
    decreases count - i
  {
    if i == count then -1
    else if Live(s[i], h) then i
    else ActiveFrom(s, count, h, i + 1)
  }

  /** The lowest index in `i..count` of a processed (free) slot, or -1. */
  function FreeFrom(s: seq<Plate>, count: int, i: int): (r: int)
    requires 0 <= i <= count <= |s|
    ensures r == -1 || i <= r < count
    ensures r != -1 ==> s[r].processed
    ensures forall j :: i <= j < count && (r == -1 || j < r) ==> !s[j].processed
    decreases count - i
  {
    if i == count then -1
    else if s[i].processed then i
    else FreeFrom(s, count, i + 1)
  }

  /** The table, its used-slot count and the slot given to a lane (-1 for none). */
  datatype Placement = Placement(plates: seq<Plate>, count: int, index: int)

  /** `find_or_create_plate(h)`: the live track of lane `h` if there is one, else the
      first processed slot re-initialised, else a new slot at `count`, else -1. */
  function Place(s: seq<Plate>, count: int, h: int): (r: Placement)
    requires |s| == PlateSlots && 0 <= count <= PlateSlots
    ensures |r.plates| == PlateSlots
    ensures r.count == count || (count < PlateSlots && r.count == count + 1)
    ensures r.index == -1 <==>
      count == PlateSlots && forall j :: 0 <= j < count ==> !s[j].processed && !Live(s[j], h)
    ensures r.index == -1 ==> r.plates == s && r.count == count
    ensures r.index != -1 ==> 0 <= r.index < r.count && Live(r.plates[r.index], h)
    ensures r.index != -1 ==> forall j :: 0 <= j < PlateSlots && j != r.index ==> r.plates[j] == s[j]
    // first fit: an existing track is found, lowest index first, and nothing changes
    ensures (exists j :: 0 <= j < count && Live(s[j], h)) ==>
      && r.plates == s && r.count == count && 0 <= r.index < count
      && forall j :: 0 <= j < r.index ==> !Live(s[j], h)
    // otherwise the lowest processed slot is reused
    ensures (forall j :: 0 <= j < count ==> !Live(s[j], h)) && (exists j :: 0 <= j < count && s[j].processed) ==>
      && r.count == count && 0 <= r.index < count && s[r.index].processed
      && r.plates == s[r.index := NewTrack(h)]
      && forall j :: 0 <= j < r.index ==> !s[j].processed
    // otherwise a slot is appended while there is room
    ensures (forall j :: 0 <= j < count ==> !Live(s[j], h) && !s[j].processed) && count < PlateSlots ==>
      r == Placement(s[count := NewTrack(h)], count + 1, count)
  {
    var a := ActiveFrom(s, count, h, 0);
    if a != -1 then Placement(s, count, a)
    else
      var f := FreeFrom(s, count, 0);
      if f != -1 then Placement(s[f := NewTrack(h)], count, f)
      else if count < PlateSlots then Placement(s[count := NewTrack(h)], count + 1, count)
      else Placement(s, count, -1)
  }

  /** Asking again for the same lane finds the slot just given, and changes nothing. */
  lemma {:induction false} PlaceIsStable(s: seq<Plate>, count: int, h: int)
    requires |s| == PlateSlots && 0 <= count <= PlateSlots
    ensures var r := Place(s, count, h);
      r.index != -1 ==> Place(r.plates, r.count, h) == r
  {
    var r := Place(s, count, h);
    if r.index != -1 && ActiveFrom(s, count, h, 0) == -1 {
      forall j | 0 <= j < r.index
        ensures !Live(r.plates[j], h)
      {
        assert r.plates[j] == s[j];
      }
    }
  }

  /** The table after one locator event: `find_or_create_plate`, and when that gives -1
      one `cleanup_old_plates` at `now` and a second try. */
  function Admitted(s: seq<Plate>, count: int, h: int, now: int): (r: Placement)
    requires |s| == PlateSlots && 0 <= count <= PlateSlots
    ensures |r.plates| == PlateSlots
    ensures r.count == count || (count < PlateSlots && r.count == count + 1)
    ensures Place(s, count, h).index != -1 ==> r == Place(s, count, h)
    ensures Place(s, count, h).index == -1 ==> r == Place(Swept(s, count, now), count, h)
    ensures r.index == -1 ==> r.plates == Swept(s, count, now) && r.count == count
    ensures r.index != -1 ==> 0 <= r.index < r.count && Live(r.plates[r.index], h)
  {
    var first := Place(s, count, h);
    if first.index != -1 then first else Place(Swept(s, count, now), count, h)
  }

  /** Which processing thread an event starts. */
  datatype Start = NoStart | StartLeftToRight | StartRightToLeft

  datatype Sensing = Sensing(plate: Plate, start: Start)

  /** A slot never holds timestamps from both sides. */
  predicate OneSided(p: Plate) {
    !((p.t1 != 0 || p.t2 != 0) && (p.t3 != 0 || p.t4 != 0))
  }

  /** The `switch (loc_num)` of `locator_handler` on one slot: a sensor whose opposite
      side has already seen the slot is ignored; otherwise its timestamp and the
      direction are recorded, and processing starts once the same-side partner has a
      timestamp. Unknown locators change nothing. */
  function Sensed(p: Plate, loc: int, now: int): (e: Sensing)
    ensures e.plate.height == p.height && e.plate.speed == p.speed && e.plate.processed == p.processed
    ensures OneSided(p) ==> OneSided(e.plate)
    ensures (loc == 1 || loc == 2) && (p.t3 != 0 || p.t4 != 0) ==> e == Sensing(p, NoStart)
    ensures (loc == 3 || loc == 4) && (p.t1 != 0 || p.t2 != 0) ==> e == Sensing(p, NoStart)
    ensures loc < 1 || loc > 4 ==> e == Sensing(p, NoStart)
    ensures loc == 1 && p.t3 == 0 && p.t4 == 0 ==> e.plate == p.(t1 := now, direction := 1)
    ensures loc == 2 && p.t3 == 0 && p.t4 == 0 ==> e.plate == p.(t2 := now, direction := 1)
    ensures loc == 3 && p.t1 == 0 && p.t2 == 0 ==> e.plate == p.(t3 := now, direction := -1)
    ensures loc == 4 && p.t1 == 0 && p.t2 == 0 ==> e.plate == p.(t4 := now, direction := -1)
    ensures e.start == StartLeftToRight <==>
      p.t3 == 0 && p.t4 == 0 && ((loc == 1 && p.t2 != 0) || (loc == 2 && p.t1 != 0))
    ensures e.start == StartRightToLeft <==>
      p.t1 == 0 && p.t2 == 0 && ((loc == 3 && p.t4 != 0) || (loc == 4 && p.t3 != 0))
  {
    match loc
    case 1 =>
      if p.t3 != 0 || p.t4 != 0 then Sensing(p, NoStart)
      else Sensing(p.(t1 := now, direction := 1), if p.t2 != 0 then StartLeftToRight else NoStart)
    case 2 =>
      if p.t3 != 0 || p.t4 != 0 then Sensing(p, NoStart)
      else Sensing(p.(t2 := now, direction := 1), if p.t1 != 0 then StartLeftToRight else NoStart)
    case 3 =>
      if p.t1 != 0 || p.t2 != 0 then Sensing(p, NoStart)
      else Sensing(p.(t3 := now, direction := -1), if p.t4 != 0 then StartRightToLeft else NoStart)
    case 4 =>
      if p.t1 != 0 || p.t2 != 0 then Sensing(p, NoStart)
      else Sensing(p.(t4 := now, direction := -1), if p.t3 != 0 then StartRightToLeft else NoStart)
    case _ => Sensing(p, NoStart)
  }

  /** The result of one locator event on the table. */
  datatype Outcome = Outcome(plates: seq<Plate>, count: int, index: int, start: Start)

  /** `locator_handler` past its two guards: find a slot for lane `y`, then record
      locator `loc` in it. */
  function Handled(s: seq<Plate>, count: int, loc: int, y: int, now: int): (o: Outcome)
    requires |s| == PlateSlots && 0 <= count <= PlateSlots
    ensures o.index == -1 ==> o.start == NoStart && o == Outcome(Swept(s, count, now), count, -1, NoStart)
    ensures |o.plates| == PlateSlots && o.count <= PlateSlots
    ensures o.index != -1 ==> 0 <= o.index < o.count && o.plates[o.index].height == y
    // the slot found is the one admitted, and the locator is recorded in it and nowhere else
    ensures var a := Admitted(s, count, y, now);
      && o.index == a.index && o.count == a.count
      && (o.index != -1 ==>
            && o.plates[o.index] == Sensed(a.plates[o.index], loc, now).plate
            && o.start == Sensed(a.plates[o.index], loc, now).start
            && forall j :: 0 <= j < PlateSlots && j != o.index ==> o.plates[j] == a.plates[j])
  {
    var a := Admitted(s, count, y, now);
    if a.index == -1 then Outcome(a.plates, a.count, -1, NoStart)
    else
      var e := Sensed(a.plates[a.index], loc, now);
      Outcome(a.plates[a.index := e.plate], a.count, a.index, e.start)
  }

  /** The table invariant: at most 30 used slots, unused slots free, no slot with both
      sides' timestamps, and at most one live track per lane. */
  predicate Tidy(s: seq<Plate>, count: int) {
    && |s| == PlateSlots
    && 0 <= count <= PlateSlots
    && (forall i :: 0 <= i < |s| ==> OneSided(s[i]))
    && (forall i :: count <= i < |s| ==> s[i] == FreeSlot)
    && (forall i, j :: 0 <= i < j < count && !s[i].processed && !s[j].processed ==> s[i].height != s[j].height)
  }

  /** `air_defense_system`'s initial table: 30 free slots, none used. */
  lemma InitiallyTidy()
    ensures Tidy(seq(PlateSlots, _ => FreeSlot), 0)
  {
  }

  lemma {:induction false} PlaceKeepsTidy(s: seq<Plate>, count: int, h: int)
    requires Tidy(s, count)
    ensures var r := Place(s, count, h); Tidy(r.plates, r.count)
  {
    var r := Place(s, count, h);
    if r.index != -1 && r.plates != s {
      assert forall j :: 0 <= j < count ==> !Live(s[j], h);
      forall i, j | 0 <= i < j < r.count && !r.plates[i].processed && !r.plates[j].processed
        ensures r.plates[i].height != r.plates[j].height
      {
        if i != r.index && j != r.index {
          assert r.plates[i] == s[i] && r.plates[j] == s[j];
        }
      }
    }
  }

  lemma {:induction false} SweepKeepsTidy(s: seq<Plate>, count: int, now: int)
    requires Tidy(s, count)
    ensures Tidy(Swept(s, count, now), count)
  {
    var r := Swept(s, count, now);
    forall i, j | 0 <= i < j < count && !r[i].processed && !r[j].processed
      ensures r[i].height != r[j].height
    {
      assert r[i] == s[i] && r[j] == s[j];
    }
  }

  /** Every locator event keeps the table invariant; in particular a slot never holds
      both a left and a right timestamp. */
  lemma {:induction false} HandledKeepsTidy(s: seq<Plate>, count: int, loc: int, y: int, now: int)
    requires Tidy(s, count)
    ensures var o := Handled(s, count, loc, y, now); Tidy(o.plates, o.count)
  {
    PlaceKeepsTidy(s, count, y);
    SweepKeepsTidy(s, count, now);
    PlaceKeepsTidy(Swept(s, count, now), count, y);
    var a := Admitted(s, count, y, now);
    if a.index != -1 {
      Retouched(a.plates, a.count, a.index, Sensed(a.plates[a.index], loc, now).plate);
    }
  }

  /** Rewriting a used slot keeps the invariant when its lane is kept, it does not come
      back to life, and it stays one-sided. */
  lemma Retouched(s: seq<Plate>, count: int, i: int, p: Plate)
    requires Tidy(s, count) && 0 <= i < count
    requires p.height == s[i].height && (p.processed || !s[i].processed) && OneSided(p)
    ensures Tidy(s[i := p], count)
  {
  }

  /** The slot once its processing thread gives up on it, or once it was shot at. */
  function Closed(p: Plate): (r: Plate)
    ensures r.processed && r.height == p.height && Latest(r) == Latest(p)
    ensures r.t1 == p.t1 && r.t2 == p.t2 && r.t3 == p.t3 && r.t4 == p.t4
    ensures r.speed == p.speed && r.direction == p.direction
  {
    p.(processed := true)
  }
}
