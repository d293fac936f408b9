/** The driver's timers: tokens by deadline, fired in passes. A timer armed while others fire waits for a
    later pass. */
module Timers {
  import opened Bytes

  /** One arming. The serial tells two armings of one token apart; the queue itself never looks at it. */
  datatype Timer = Timer(serial: nat, due: u64, token: u64)

  datatype Slot = Slot(due: u64, timers: seq<Timer>)

  datatype Firing = Firing(timer: Timer, at: u64)

  function SaturatingAdd(a: u64, b: u64): u64 {
    if a + b < U64 then a + b else U64 - 1
  }

  // ---- the ordered map ----

  function Insert(slots: seq<Slot>, t: Timer): seq<Slot> {
    if slots == [] || t.due < slots[0].due then [Slot(t.due, [t])] + slots
    else if t.due == slots[0].due then [Slot(t.due, slots[0].timers + [t])] + slots[1..]
    else [slots[0]] + Insert(slots[1..], t)
  }

  /** The slots that are due, and those that are not. */
  function DueSlots(slots: seq<Slot>, now: u64): seq<Slot> {
    if slots == [] || slots[0].due > now then [] else [slots[0]] + DueSlots(slots[1..], now)
  }

  function LaterSlots(slots: seq<Slot>, now: u64): seq<Slot> {
    if slots == [] || slots[0].due > now then slots else LaterSlots(slots[1..], now)
  }

  /** All timers, slot after slot. */
  function Flat(slots: seq<Slot>): seq<Timer> {
    if slots == [] then [] else slots[0].timers + Flat(slots[1..])
  }

  // ---- order ----

  predicate Before(a: Timer, b: Timer) {
    a.due < b.due || (a.due == b.due && a.serial < b.serial)
  }

  /** By deadline, and in the order of arming within one. */
  predicate InOrder(ts: seq<Timer>) {
    ts == [] || ((forall t | t in ts[1..] :: Before(ts[0], t)) && InOrder(ts[1..]))
  }

  predicate SlotsSound(slots: seq<Slot>) {
    slots == [] ||
    (slots[0].timers != [] && (forall t | t in slots[0].timers :: t.due == slots[0].due) &&
     (forall t | t in Flat(slots[1..]) :: t.due > slots[0].due) && (slots[1..] != [] ==> slots[1].due > slots[0].due) &&
     SlotsSound(slots[1..]))
  }

  lemma {:induction false} InOrderBoth(a: seq<Timer>, b: seq<Timer>)
    requires InOrder(a) && InOrder(b) && forall s, t | s in a && t in b :: Before(s, t)
    ensures InOrder(a + b)
  {
    if a == [] {
      assert a + b == b;
    } else {
      assert a == [a[0]] + a[1..];
      InOrderBoth(a[1..], b);
      assert (a + b)[1..] == a[1..] + b;
    }
  }

  lemma {:induction false} InOrderParts(a: seq<Timer>, b: seq<Timer>)
    requires InOrder(a + b)
    ensures InOrder(a) && InOrder(b) && forall s, t | s in a && t in b :: Before(s, t)
  {
    if a == [] {
      assert a + b == b;
    } else {
      assert (a + b)[1..] == a[1..] + b;
      InOrderParts(a[1..], b);
      assert a == [a[0]] + a[1..] && (a + b)[0] == a[0];
      forall t | t in a[1..] || t in b ensures Before(a[0], t) {
        assert t in a[1..] + b;
      }
    }
  }

  // ---- arming ----

  lemma {:induction false} InsertAdds(slots: seq<Slot>, t: Timer)
    ensures multiset(Flat(Insert(slots, t))) == multiset(Flat(slots)) + multiset{t}
  {
    if slots != [] {
      if t.due < slots[0].due {
        assert Insert(slots, t)[1..] == slots;
      } else if t.due == slots[0].due {
        assert Insert(slots, t)[1..] == slots[1..];
      } else {
        InsertAdds(slots[1..], t);
        assert Insert(slots, t)[1..] == Insert(slots[1..], t);
      }
    }
  }

  /** Insertion happens at the first deadline that is not earlier. */
  lemma {:induction false} InsertAt(slots: seq<Slot>, t: Timer, i: nat)
    requires i <= |slots| && (forall j | 0 <= j < i :: slots[j].due < t.due) && (i < |slots| ==> slots[i].due >= t.due)
    ensures Insert(slots, t) ==
            if i < |slots| && slots[i].due == t.due
            then slots[..i] + [Slot(t.due, slots[i].timers + [t])] + slots[i + 1..]
            else slots[..i] + [Slot(t.due, [t])] + slots[i..]
  {
    if i == 0 {
      assert slots[..0] + [Slot(t.due, [t])] == [Slot(t.due, [t])] && slots[0..] == slots;
    } else {
      InsertAt(slots[1..], t, i - 1);
      assert slots[..i] == [slots[0]] + slots[1..][..i - 1] && slots[i..] == slots[1..][i - 1..];
      if i < |slots| {
        assert slots[i + 1..] == slots[1..][i..];
      }
    }
  }

  lemma {:induction false} InsertMembers(slots: seq<Slot>, t: Timer)
    ensures forall x :: x in Flat(Insert(slots, t)) <==> x in Flat(slots) || x == t
  {
    InsertAdds(slots, t);
    forall x ensures x in Flat(Insert(slots, t)) <==> x in Flat(slots) || x == t {
      assert x in Flat(Insert(slots, t)) <==> x in multiset(Flat(Insert(slots, t)));
    }
  }

  lemma {:induction false} InsertSound(slots: seq<Slot>, t: Timer)
    requires SlotsSound(slots)
    ensures SlotsSound(Insert(slots, t))
    ensures Insert(slots, t)[0].due == t.due || (slots != [] && Insert(slots, t)[0].due == slots[0].due)
  {
    var r := Insert(slots, t);
    if slots == [] {
      assert r[1..] == [];
    } else if t.due < slots[0].due {
      assert r[1..] == slots;
      HeadIsFirst(slots);
    } else if t.due == slots[0].due {
      assert r[1..] == slots[1..];
    } else {
      InsertSound(slots[1..], t);
      InsertMembers(slots[1..], t);
      assert r[1..] == Insert(slots[1..], t);
    }
  }

  lemma {:induction false} HeadIsFirst(slots: seq<Slot>)
    requires SlotsSound(slots) && slots != []
    ensures forall t | t in Flat(slots) :: t.due >= slots[0].due
  {
  }

  lemma {:induction false} InsertInOrder(slots: seq<Slot>, t: Timer)
    requires SlotsSound(slots) && InOrder(Flat(slots)) && forall x | x in Flat(slots) :: x.serial < t.serial
    ensures InOrder(Flat(Insert(slots, t)))
  {
    if slots != [] {
      InOrderParts(slots[0].timers, Flat(slots[1..]));
      AloneInOrder(t);
      if t.due < slots[0].due {
        HeadIsFirst(slots);
        assert Insert(slots, t)[1..] == slots;
        InOrderBoth([t], Flat(slots));
      } else if t.due == slots[0].due {
        assert Insert(slots, t)[1..] == slots[1..];
        InOrderBoth(slots[0].timers, [t]);
        InOrderBoth(slots[0].timers + [t], Flat(slots[1..]));
      } else {
        assert Insert(slots, t)[1..] == Insert(slots[1..], t);
        InsertInOrder(slots[1..], t);
        InsertMembers(slots[1..], t);
        InOrderBoth(slots[0].timers, Flat(Insert(slots[1..], t)));
      }
    } else {
      assert Insert(slots, t)[1..] == [];
      assert [t] + [] == [t];
      AloneInOrder(t);
    }
  }

  lemma {:induction false} AloneInOrder(t: Timer)
    ensures InOrder([t])
  {
    assert [t][1..] == [];
  }

  // ---- splitting ----

  lemma {:induction false} SplitIsWhole(slots: seq<Slot>, now: u64)
    ensures Flat(slots) == Flat(DueSlots(slots, now)) + Flat(LaterSlots(slots, now))
  {
    if slots != [] && slots[0].due <= now {
      SplitIsWhole(slots[1..], now);
      assert DueSlots(slots, now)[1..] == DueSlots(slots[1..], now);
    }
  }

  lemma {:induction false} SplitByDeadline(slots: seq<Slot>, now: u64)
    requires SlotsSound(slots)
    ensures (forall t | t in Flat(DueSlots(slots, now)) :: t.due <= now) && (forall t | t in Flat(LaterSlots(slots, now)) :: t.due > now)
    ensures SlotsSound(LaterSlots(slots, now))
  {
    if slots != [] {
      if slots[0].due <= now {
        SplitByDeadline(slots[1..], now);
        assert DueSlots(slots, now)[1..] == DueSlots(slots[1..], now);
      } else {
        HeadIsFirst(slots);
      }
    }
  }

  // ---- the driver over time ----

  /** The queue, with everything ever armed and everything ever fired. */
  datatype Clockwork = Clockwork(slots: seq<Slot>, armed: seq<Timer>, fired: seq<Firing>)

  datatype Wish = Wish(now: u64, afterMs: u64, token: u64)

  /** What the engine does with a timer that fires: the timers it sets in turn. */
  type Engine = Timer -> seq<Wish>

  function Arm(w: Clockwork, wish: Wish): Clockwork {
    var t := Timer(|w.armed|, SaturatingAdd(wish.now, wish.afterMs), wish.token);
    w.(slots := Insert(w.slots, t), armed := w.armed + [t])
  }

  function ArmAll(w: Clockwork, wishes: seq<Wish>): Clockwork
    decreases |wishes|
  {
    if wishes == [] then w else ArmAll(Arm(w, wishes[0]), wishes[1..])
  }

  /** Tokens taken from the queue are handed over one by one; what the engine arms meanwhile goes into the
      queue they were taken from. */
  function FireEach(w: Clockwork, due: seq<Timer>, now: u64, engine: Engine): Clockwork
    decreases |due|
  {
    if due == [] then w
    else FireEach(ArmAll(w.(fired := w.fired + [Firing(due[0], now)]), engine(due[0])), due[1..], now, engine)
  }

  function Pass(w: Clockwork, now: u64, engine: Engine): Clockwork {
    FireEach(w.(slots := LaterSlots(w.slots, now)), Flat(DueSlots(w.slots, now)), now, engine)
  }

  datatype Tick = Wished(wish: Wish) | Passed(now: u64, engine: Engine)

  function Run(ticks: seq<Tick>): Clockwork {
    if ticks == [] then Clockwork([], [], [])
    else
      var w := Run(ticks[..|ticks| - 1]);
      match ticks[|ticks| - 1]
      case Wished(wish) => Arm(w, wish)
      case Passed(now, engine) => Pass(w, now, engine)
  }

  function TimersOf(fired: seq<Firing>): (ts: seq<Timer>)
    ensures |ts| == |fired|
  {
    seq(|fired|, i requires 0 <= i < |fired| => fired[i].timer)
  }

  /** What has been taken from the queue and not handed over yet is neither pending nor fired. */
  predicate Balanced(w: Clockwork, inHand: seq<Timer>) {
    multiset(w.armed) == multiset(Flat(w.slots)) + multiset(TimersOf(w.fired)) + multiset(inHand)
  }

  predicate NumberedInTurn(armed: seq<Timer>) {
    forall i | 0 <= i < |armed| :: armed[i].serial == i
  }

  predicate NeverEarly(fired: seq<Firing>) {
    forall i | 0 <= i < |fired| :: fired[i].timer.due <= fired[i].at
  }

  predicate Sound(w: Clockwork, inHand: seq<Timer>) {
    SlotsSound(w.slots) && InOrder(Flat(w.slots)) && Balanced(w, inHand) && NumberedInTurn(w.armed) && NeverEarly(w.fired)
  }

  lemma {:induction false} PendingWasArmed(w: Clockwork, inHand: seq<Timer>)
    requires Balanced(w, inHand) && NumberedInTurn(w.armed)
    ensures forall t | t in Flat(w.slots) :: t.serial < |w.armed|
  {
    forall t | t in Flat(w.slots) ensures t.serial < |w.armed| {
      assert t in multiset(Flat(w.slots)) && t in multiset(w.armed);
      var i :| 0 <= i < |w.armed| && w.armed[i] == t;
    }
  }

  lemma {:induction false} ArmSound(w: Clockwork, inHand: seq<Timer>, wish: Wish)
    requires Sound(w, inHand)
    ensures Sound(Arm(w, wish), inHand)
  {
    var t := Timer(|w.armed|, SaturatingAdd(wish.now, wish.afterMs), wish.token);
    PendingWasArmed(w, inHand);
    InsertAdds(w.slots, t);
    InsertSound(w.slots, t);
    InsertInOrder(w.slots, t);
  }

  lemma {:induction false} ArmAllSound(w: Clockwork, inHand: seq<Timer>, wishes: seq<Wish>)
    requires Sound(w, inHand)
    ensures Sound(ArmAll(w, wishes), inHand) && ArmAll(w, wishes).fired == w.fired
    decreases |wishes|
  {
    hide Sound;
    if wishes != [] {
      ArmSound(w, inHand, wishes[0]);
      ArmAllSound(Arm(w, wishes[0]), inHand, wishes[1..]);
    }
  }

  lemma {:induction false} HandOver(w: Clockwork, due: seq<Timer>, now: u64)
    requires Sound(w, due) && due != [] && due[0].due <= now
    ensures Sound(w.(fired := w.fired + [Firing(due[0], now)]), due[1..])
  {
    var fired := w.fired + [Firing(due[0], now)];
    assert TimersOf(fired) == TimersOf(w.fired) + [due[0]];
    assert due == [due[0]] + due[1..];
  }

  lemma {:induction false} FireEachSound(w: Clockwork, due: seq<Timer>, now: u64, engine: Engine)
    requires Sound(w, due) && forall t | t in due :: t.due <= now
    ensures Sound(FireEach(w, due, now, engine), [])
    ensures TimersOf(FireEach(w, due, now, engine).fired) == TimersOf(w.fired) + due
    decreases |due|
  {
    hide Sound;
    if due == [] {
      assert TimersOf(w.fired) + due == TimersOf(w.fired);
    } else {
      var fired := w.(fired := w.fired + [Firing(due[0], now)]);
      assert due == [due[0]] + due[1..];
      HandOver(w, due, now);
      ArmAllSound(fired, due[1..], engine(due[0]));
      FireEachSound(ArmAll(fired, engine(due[0])), due[1..], now, engine);
      assert TimersOf(fired.fired) == TimersOf(w.fired) + [due[0]];
    }
  }

  /** One pass: exactly the timers whose deadline has come, each once, by deadline and in the order of arming;
      whatever is armed meanwhile stays in the queue. */
  lemma {:induction false} PassFiresTheDue(w: Clockwork, now: u64, engine: Engine)
    requires Sound(w, [])
    ensures var after, due := Pass(w, now, engine), Flat(DueSlots(w.slots, now));
            Sound(after, []) && TimersOf(after.fired) == TimersOf(w.fired) + due && InOrder(due) &&
            forall t | t in Flat(w.slots) :: t in due <==> t.due <= now
  {
    var due, later := Flat(DueSlots(w.slots, now)), LaterSlots(w.slots, now);
    SplitIsWhole(w.slots, now);
    SplitByDeadline(w.slots, now);
    InOrderParts(due, Flat(later));
    TakenOut(w, now);
    FireEachSound(w.(slots := later), due, now, engine);
  }

  lemma {:induction false} TakenOut(w: Clockwork, now: u64)
    requires Sound(w, [])
    ensures Sound(w.(slots := LaterSlots(w.slots, now)), Flat(DueSlots(w.slots, now)))
  {
    SplitIsWhole(w.slots, now);
    SplitByDeadline(w.slots, now);
    InOrderParts(Flat(DueSlots(w.slots, now)), Flat(LaterSlots(w.slots, now)));
  }

  /** Over every run, every timer ever armed is waiting or was fired, and exactly once: none is lost, none fires
      twice, none fires before its deadline. */
  lemma {:induction false} NothingLost(ticks: seq<Tick>)
    ensures var w := Run(ticks);
            multiset(w.armed) == multiset(Flat(w.slots)) + multiset(TimersOf(w.fired)) && NumberedInTurn(w.armed) && NeverEarly(w.fired)
  {
    RunSound(ticks);
  }

  lemma {:induction false} RunSound(ticks: seq<Tick>)
    ensures Sound(Run(ticks), [])
  {
    if ticks != [] {
      var n := |ticks| - 1;
      RunSound(ticks[..n]);
      match ticks[n]
      case Wished(wish) => ArmSound(Run(ticks[..n]), [], wish);
      case Passed(now, engine) => PassFiresTheDue(Run(ticks[..n]), now, engine);
    }
  }

  /** A timer armed during a pass is not fired in it, however short it was set: it waits for the next. */
  lemma {:induction false} ArmedWhileFiringWaits(w: Clockwork, now: u64, engine: Engine, t: Timer)
    requires Sound(w, []) && t in Pass(w, now, engine).armed && t.serial >= |w.armed|
    ensures t in Flat(Pass(w, now, engine).slots)
  {
    var after, due := Pass(w, now, engine), Flat(DueSlots(w.slots, now));
    PassFiresTheDue(w, now, engine);
    SplitIsWhole(w.slots, now);
    PendingWasArmed(w, []);
    FiredWasArmed(w);
    assert t in multiset(after.armed);
    assert t !in due && t !in TimersOf(w.fired);
    assert t !in multiset(TimersOf(after.fired));
  }

  lemma {:induction false} FiredWasArmed(w: Clockwork)
    requires Sound(w, [])
    ensures forall t | t in TimersOf(w.fired) :: t.serial < |w.armed|
  {
    forall t | t in TimersOf(w.fired) ensures t.serial < |w.armed| {
      assert t in multiset(TimersOf(w.fired)) && t in multiset(w.armed);
      var i :| 0 <= i < |w.armed| && w.armed[i] == t;
    }
  }

  // ---- what is armed is what was wished for ----

  /** A timer is due that long after it was wished for, or at the last moment there is, and carries the token it was given. */
  predicate Grants(t: Timer, wish: Wish) {
    t.token == wish.token && t.due <= wish.now + wish.afterMs && (t.due < wish.now + wish.afterMs ==> t.due == 0xFFFF_FFFF_FFFF_FFFF)
  }

  /** From some place on, one timer was armed for each wish, in order. */
  predicate GrantsAll(armed: seq<Timer>, from: nat, wishes: seq<Wish>) {
    |armed| == from + |wishes| && forall i | 0 <= i < |wishes| :: Grants(armed[from + i], wishes[i])
  }

  lemma {:induction false} WishesAreArmed(w: Clockwork, wishes: seq<Wish>)
    ensures var after := ArmAll(w, wishes);
            GrantsAll(after.armed, |w.armed|, wishes) && after.armed[..|w.armed|] == w.armed && after.fired == w.fired
    decreases |wishes|
  {
    if wishes != [] {
      var one := Arm(w, wishes[0]);
      WishesAreArmed(one, wishes[1..]);
      var armed := ArmAll(w, wishes).armed;
      assert armed[..|w.armed|] == armed[..|one.armed|][..|w.armed|] == w.armed;
      forall i | 0 <= i < |wishes| ensures Grants(armed[|w.armed| + i], wishes[i]) {
        if i == 0 {
          assert armed[|w.armed|] == armed[..|one.armed|][|w.armed|];
        } else {
          assert Grants(armed[|one.armed| + (i - 1)], wishes[1..][i - 1]);
        }
      }
    }
  }

  /** What the engine wishes for, timer by timer. */
  function WishesFor(due: seq<Timer>, engine: Engine): seq<Wish>
    decreases |due|
  {
    if due == [] then [] else engine(due[0]) + WishesFor(due[1..], engine)
  }

  lemma {:induction false} EachIsHeard(w: Clockwork, due: seq<Timer>, now: u64, engine: Engine)
    ensures var after := FireEach(w, due, now, engine);
            GrantsAll(after.armed, |w.armed|, WishesFor(due, engine)) && after.armed[..|w.armed|] == w.armed &&
            |after.fired| == |w.fired| + |due| && forall i | 0 <= i < |due| :: after.fired[|w.fired| + i] == Firing(due[i], now)
    ensures FireEach(w, due, now, engine).fired[..|w.fired|] == w.fired
    decreases |due|
  {
    if due == [] {
      assert w.armed[..|w.armed|] == w.armed && w.fired[..|w.fired|] == w.fired;
    } else {
      var fired := w.(fired := w.fired + [Firing(due[0], now)]);
      var one := ArmAll(fired, engine(due[0]));
      WishesAreArmed(fired, engine(due[0]));
      EachIsHeard(one, due[1..], now, engine);
      var after := FireEach(w, due, now, engine);
      GrantsBoth(w.armed, one.armed, after.armed, engine(due[0]), WishesFor(due[1..], engine));
      assert after.fired[..|one.fired|] == fired.fired;
      assert after.fired[..|w.fired|] == after.fired[..|one.fired|][..|w.fired|];
      forall i | 0 <= i < |due| ensures after.fired[|w.fired| + i] == Firing(due[i], now) {
        if i == 0 {
          assert after.fired[|w.fired|] == after.fired[..|one.fired|][|w.fired|];
        } else {
          assert after.fired[|one.fired| + (i - 1)] == Firing(due[1..][i - 1], now);
        }
      }
    }
  }

  lemma {:induction false} GrantsBoth(before: seq<Timer>, middle: seq<Timer>, after: seq<Timer>, first: seq<Wish>, others: seq<Wish>)
    requires GrantsAll(middle, |before|, first) && middle[..|before|] == before
    requires GrantsAll(after, |middle|, others) && after[..|middle|] == middle
    ensures GrantsAll(after, |before|, first + others) && after[..|before|] == before
  {
    var wishes := first + others;
    assert after[..|before|] == after[..|middle|][..|before|];
    forall i | 0 <= i < |wishes| ensures Grants(after[|before| + i], wishes[i]) {
      if i < |first| {
        assert after[|before| + i] == after[..|middle|][|before| + i] && Grants(middle[|before| + i], first[i]);
      } else {
        assert Grants(after[|middle| + (i - |first|)], others[i - |first|]);
      }
    }
  }

  /** One pass: every timer that is due fires, at that moment, and for each the engine is heard: what it wishes for is armed, in
      the order it wished. */
  lemma {:induction false} PassGrants(w: Clockwork, now: u64, engine: Engine)
    requires Sound(w, [])
    ensures var after, due := Pass(w, now, engine), Flat(DueSlots(w.slots, now));
            GrantsAll(after.armed, |w.armed|, WishesFor(due, engine)) && after.armed[..|w.armed|] == w.armed &&
            |after.fired| == |w.fired| + |due| && forall i | 0 <= i < |due| :: after.fired[|w.fired| + i] == Firing(due[i], now)
  {
    EachIsHeard(w.(slots := LaterSlots(w.slots, now)), Flat(DueSlots(w.slots, now)), now, engine);
  }

  // ---- in place ----

  class TimerQueue {
    var timers: seq<Slot>
    var armed: nat

    constructor ()
      ensures timers == [] && armed == 0
    {
      timers, armed := [], 0;
    }

    /** Where a deadline stands, or would stand. */
    method Place(due: u64) returns (i: nat)
      ensures i <= |timers| && (forall j | 0 <= j < i :: timers[j].due < due) && (i < |timers| ==> timers[i].due >= due)
    {
      i := 0;
      while i < |timers| && timers[i].due < due
        invariant i <= |timers| && forall j | 0 <= j < i :: timers[j].due < due
      {
        i := i + 1;
      }
    }

    method SetTimer(now: u64, afterMs: u64, token: u64)
      modifies this
      ensures timers == Insert(old(timers), Timer(old(armed), SaturatingAdd(now, afterMs), token)) && armed == old(armed) + 1
    {
      var t := Timer(armed, SaturatingAdd(now, afterMs), token);
      armed := armed + 1;
      var i := Place(t.due);
      InsertAt(timers, t, i);
      if i < |timers| && timers[i].due == t.due {
        timers := timers[..i] + [Slot(t.due, timers[i].timers + [t])] + timers[i + 1..];
      } else {
        timers := timers[..i] + [Slot(t.due, [t])] + timers[i..];
      }
    }

    /** Takes out everything that is due, at once. */
    method TakeDue(now: u64) returns (due: seq<Timer>)
      modifies `timers
      ensures due == Flat(DueSlots(old(timers), now)) && timers == LaterSlots(old(timers), now)
    {
      due := [];
      var i := 0;
      while i < |timers| && timers[i].due <= now
        invariant i <= |timers| && timers == old(timers)
        invariant Flat(DueSlots(timers, now)) == due + Flat(DueSlots(timers[i..], now))
        invariant LaterSlots(timers, now) == LaterSlots(timers[i..], now)
      {
        var rest := timers[i..];
        assert rest[1..] == timers[i + 1..];
        assert DueSlots(rest, now)[1..] == DueSlots(rest[1..], now);
        due := due + rest[0].timers;
        i := i + 1;
      }
      assert DueSlots(timers[i..], now) == [];
      assert due + [] == due;
      timers := timers[i..];
    }
  }
}
