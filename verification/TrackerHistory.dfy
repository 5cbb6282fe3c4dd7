/** What the dongle's tracker table records, told by the packets and ticks themselves: over every run
    of firmware/app_dongle/src/trackers.c from the blank table, who is in it, when each was last heard,
    and what is kept about it since it claimed its slot. */
module TrackerHistory {
  import opened Wire
  import opened Trackers

  const EMPTY := [BLANK, BLANK, BLANK, BLANK, BLANK, BLANK, BLANK, BLANK]

  /** The table after a run from power-on. */
  function After(events: seq<Event>): (t: seq<Slot>)
    ensures |t| == SLOTS
    decreases |events|
  {
    if events == [] then EMPTY else Step(After(events[..|events| - 1]), events[|events| - 1])
  }

  predicate Has(t: seq<Slot>, x: u16) {
    exists j :: 0 <= j < |t| && Matches(t[j], x)
  }

  /** A packet of tracker `x`: a sample or a status report. */
  predicate IsOf(e: Event, x: u16) {
    match e
    case Sample(id, _, _) => id == x
    case Status(r, _) => r.id == x
    case Tick(_) => false
  }

  /** When the last packet of tracker `x` came. */
  function LastHeard(events: seq<Event>, x: u16): (t: Option<int>)
    decreases |events|
  {
    if events == [] then None
    else
      var e := events[|events| - 1];
      if IsOf(e, x) then Some(e.now) else LastHeard(events[..|events| - 1], x)
  }

  // ---- who is in the table ----------------------------------------------------------------------

  lemma AfterOne(events: seq<Event>, e: Event)
    ensures After(events + [e]) == Step(After(events), e)
    ensures forall x :: LastHeard(events + [e], x) == if IsOf(e, x) then Some(e.now) else LastHeard(events, x)
  {
    assert (events + [e])[..|events|] == events && (events + [e])[|events|] == e;
  }

  lemma {:induction false} AfterUnique(events: seq<Event>)
    ensures Unique(After(events))
    decreases |events|
  {
    hide Step;
    if events != [] {
      AfterUnique(events[..|events| - 1]);
      StepUnique(After(events[..|events| - 1]), events[|events| - 1]);
    }
  }

  /** Slot `j` after one event: what it was, folded by a tick, or written by its own tracker. */
  lemma SlotStep(t: seq<Slot>, e: Event, j: nat)
    requires Unique(t) && j < |t| && Step(t, e)[j].valid
    ensures var s := Step(t, e)[j];
      || (e.Tick? && t[j].valid && s.id == t[j].id && s.lastSeen == t[j].lastSeen)
      || (!e.Tick? && s == t[j] && !IsOf(e, s.id))
      || (IsOf(e, s.id) && s.lastSeen == e.now)
  {
    hide Counted;
    match e {
      case Sample(id, n, now) => CountedKeeps(t[j], id, n % WRAP16, now);
      case Status(r, now) =>
      case Tick(now) =>
    }
  }

  /** Gap accounting touches nothing but its own fields. */
  lemma CountedKeeps(s: Slot, id: u16, n: u16, now: int)
    ensures var c, t := Sampled(s, id, n, now), Claimed(s, id);
      && c.valid && c.id == id && c.lastSeen == now && c.rate == t.rate
      && c.vbat == t.vbat && c.fw == t.fw && c.mode == t.mode
      && c.pktCount == if t.pktCount < 0xFFFF then t.pktCount + 1 else t.pktCount
  {
  }

  /** The time recorded for a tracker in the table is the time of its last packet. */
  lemma {:induction false} SeenIs(events: seq<Event>, j: nat)
    requires j < SLOTS && After(events)[j].valid
    ensures LastHeard(events, After(events)[j].id) == Some(After(events)[j].lastSeen)
    decreases |events|
  {
    hide Step;
    if events != [] {
      var before, e := events[..|events| - 1], events[|events| - 1];
      assert before + [e] == events;
      AfterOne(before, e);
      AfterUnique(before);
      SlotStep(After(before), e, j);
      if After(before)[j].valid {
        SeenIs(before, j);
      }
      UntouchedValid(After(before), e, j);
    }
  }

  lemma UntouchedValid(t: seq<Slot>, e: Event, j: nat)
    requires j < |t|
    ensures Step(t, e)[j] == t[j] && Step(t, e)[j].valid ==> t[j].valid
  {
  }

  /** A tick at time `t` keeps exactly the trackers last heard no more than 30 s ago. */
  lemma TickKeepsIff(events: seq<Event>, t: int, x: u16)
    ensures Has(After(events + [Tick(t)]), x) <==>
            Has(After(events), x) && LastHeard(events, x).Some? && LastHeard(events, x).value >= t - 30000
  {
    AfterOne(events, Tick(t));
    var before, after := After(events), After(events + [Tick(t)]);
    forall j | 0 <= j < SLOTS
      ensures Matches(after[j], x) <==>
              Matches(before[j], x) && LastHeard(events, x).Some? && LastHeard(events, x).value >= t - 30000
    {
      if before[j].valid {
        SeenIs(events, j);
      }
    }
    if j :| 0 <= j < SLOTS && Matches(before[j], x) {
      assert Matches(after[j], x) <==>
             Matches(before[j], x) && LastHeard(events, x).Some? && LastHeard(events, x).value >= t - 30000;
    }
  }

  /** In the table, other than `x`, and last heard no more than 30 s before `now`. */
  predicate Live(events: seq<Event>, y: u16, x: u16, now: int) {
    && y != x && Has(After(events), y)
    && LastHeard(events, y).Some? && LastHeard(events, y).value >= now - 30000
  }

  lemma {:induction false} AmongLive(events: seq<Event>, n: nat, x: u16, now: int, y: u16)
    requires n <= SLOTS
    ensures y in LiveOthers(After(events), n, x, now) <==>
            exists j :: 0 <= j < n && LiveOther(After(events)[j], x, now) && After(events)[j].id == y
    decreases n
  {
    hide LiveOther, After;
    if n > 0 {
      AmongLive(events, n - 1, x, now, y);
      var t := After(events);
      assert LiveOthers(t, n, x, now) ==
             LiveOthers(t, n - 1, x, now) + if LiveOther(t[n - 1], x, now) then {t[n - 1].id} else {};
    }
  }

  lemma LiveAre(events: seq<Event>, x: u16, now: int, y: u16)
    ensures y in LiveOthers(After(events), SLOTS, x, now) <==> Live(events, y, x, now)
  {
    hide After, LastHeard;
    AmongLive(events, SLOTS, x, now, y);
    if j :| 0 <= j < SLOTS && Matches(After(events)[j], y) {
      SeenIs(events, j);
      AfterUnique(events);
      assert forall i :: 0 <= i < SLOTS && Matches(After(events)[i], y) ==> i == j;
    }
  }

  /** A packet's tracker is in the table afterwards unless it is turned away; and that happens exactly
      when eight others, each heard in the last 30 s, fill the table. */
  lemma TurnedAwayIff(events: seq<Event>, e: Event, x: u16)
    requires IsOf(e, x)
    ensures !Has(After(events + [e]), x) <==> |LiveOthers(After(events), SLOTS, x, e.now)| == SLOTS
    ensures forall y :: y in LiveOthers(After(events), SLOTS, x, e.now) <==> Live(events, y, x, e.now)
  {
    hide After, LastHeard, LiveOthers, Live;
    AfterOne(events, e);
    AfterUnique(events);
    RefusedIff(After(events), x, e.now);
    forall y ensures y in LiveOthers(After(events), SLOTS, x, e.now) <==> Live(events, y, x, e.now) {
      LiveAre(events, x, e.now, y);
    }
    TakenIff(After(events), e, x);
  }

  lemma TakenIff(t: seq<Slot>, e: Event, x: u16)
    requires Unique(t) && IsOf(e, x)
    ensures Has(Step(t, e), x) <==> SlotFor(t, x, e.now) < |t|
  {
    hide Counted;
    var k := SlotFor(t, x, e.now);
    match e {
      case Sample(id, n, now) =>
        if k < |t| {
          CountedKeeps(t[k], id, n % WRAP16, now);
          assert Matches(Step(t, e)[k], x);
        }
      case Status(r, now) =>
        if k < |t| {
          assert Matches(Step(t, e)[k], x);
        }
      case Tick(now) =>
    }
  }

  /** Another tracker's packet leaves one heard in the last 30 s alone, whatever it carries; and it puts
      out a staler one only when no slot is free. */
  lemma HeardKept(events: seq<Event>, e: Event, x: u16, j: nat)
    requires j < SLOTS && Matches(After(events)[j], x) && !e.Tick? && !IsOf(e, x)
    ensures var stays := After(events + [e])[j] == After(events)[j];
      && (LastHeard(events, x).Some? && LastHeard(events, x).value >= e.now - 30000 ==> stays)
      && ((exists i :: 0 <= i < SLOTS && !After(events)[i].valid) ==> stays)
  {
    hide After, LastHeard, Sampled;
    AfterOne(events, e);
    SeenIs(events, j);
  }

  // ---- what is kept since the claim ---------------------------------------------------------------

  /** Event `c` claimed slot `j` for tracker `x`, which has kept it since. */
  ghost predicate Holds(events: seq<Event>, c: nat, j: nat, x: u16) {
    && c < |events| && j < SLOTS && IsOf(events[c], x) && !Has(After(events[..c]), x)
    && forall k :: c < k <= |events| ==> Matches(After(events[..k])[j], x)
  }

  /** The events since the last tick. */
  function SinceTick(h: seq<Event>): (rest: seq<Event>)
    decreases |h|
  {
    if h == [] || h[|h| - 1].Tick? then []
    else SinceTick(h[..|h| - 1]) + [h[|h| - 1]]
  }

  /** How many samples of the tracker are among them. */
  function Samples(h: seq<Event>, x: u16): (n: nat)
    decreases |h|
  {
    if h == [] then 0
    else
      var e := h[|h| - 1];
      Samples(h[..|h| - 1], x) + if e.Sample? && e.id == x then 1 else 0
  }

  /** How many there were in the second the last tick closed. */
  function LastSecond(h: seq<Event>, x: u16): (n: nat)
    decreases |h|
  {
    if h == [] then 0
    else if h[|h| - 1].Tick? then Samples(SinceTick(h[..|h| - 1]), x)
    else LastSecond(h[..|h| - 1], x)
  }

  function LastReport(h: seq<Event>, x: u16): (r: Option<Report>)
    decreases |h|
  {
    if h == [] then None
    else
      var e := h[|h| - 1];
      if e.Status? && e.report.id == x then Some(e.report) else LastReport(h[..|h| - 1], x)
  }

  function Capped(n: nat): (c: u16) {
    if n > 0xFFFF then 0xFFFF else n
  }

  /** The slot of tracker `x`, from the events since it claimed it: when it was last heard, its samples
      since the last tick and in the second before it, and its last report. */
  ghost predicate Books(s: Slot, h: seq<Event>, x: u16) {
    && s.valid && s.id == x && LastHeard(h, x) == Some(s.lastSeen)
    && s.pktCount == Capped(Samples(SinceTick(h), x)) && s.rate == Capped(LastSecond(h, x))
    && match LastReport(h, x)
       case None => s.vbat == 0 && s.fw == (0, 0, 0) && s.mode == 0
       case Some(r) => s.vbat == r.vbat && s.fw == r.fw && s.mode == r.mode
  }

  /** Every slot in use was claimed by a packet of its tracker, and kept since. */
  lemma {:induction false} WasClaimed(events: seq<Event>, j: nat) returns (c: nat)
    requires j < SLOTS && After(events)[j].valid
    ensures Holds(events, c, j, After(events)[j].id)
    decreases |events|
  {
    hide Step, Has;
    var before, e := events[..|events| - 1], events[|events| - 1];
    var x := After(events)[j].id;
    assert before + [e] == events && events[..|events|] == events;
    AfterOne(before, e);
    if Matches(After(before)[j], x) {
      c := WasClaimed(before, j);
      assert events[..c] == before[..c];
      assert forall k :: c < k < |events| ==> events[..k] == before[..k];
    } else {
      c := |events| - 1;
      AfterUnique(before);
      Claiming(After(before), e, j);
    }
  }

  lemma Claiming(t: seq<Slot>, e: Event, j: nat)
    requires Unique(t) && j < |t| && Step(t, e)[j].valid && !Matches(t[j], Step(t, e)[j].id)
    ensures IsOf(e, Step(t, e)[j].id) && !Has(t, Step(t, e)[j].id)
  {
    hide Counted;
    match e {
      case Sample(id, n, now) => CountedKeeps(t[j], id, n % WRAP16, now);
      case Status(r, now) =>
      case Tick(now) =>
    }
  }

  lemma OneSlot(t: seq<Slot>, e: Event, j: nat, x: u16)
    requires Unique(t) && j < |t| && Matches(t[j], x) && Matches(Step(t, e)[j], x)
    ensures Step(t, e)[j] == if e.Tick? then Ticked(t[j], e.now)
                             else if !IsOf(e, x) then t[j]
                             else if e.Sample? then Sampled(t[j], x, e.seqNo % WRAP16, e.now)
                             else Reported(t[j], e.report, e.now)
  {
    hide Sampled, Reported, Ticked;
    if !e.Tick? {
      if IsOf(e, x) {
        OwnSlot(t, e, j);
      } else {
        NotOwn(t, e, j, x);
      }
    }
  }

  /** One more event, for the slot of `x`. */
  lemma BooksStep(t: seq<Slot>, e: Event, j: nat, h: seq<Event>, x: u16)
    requires Unique(t) && j < |t| && Books(t[j], h, x) && Matches(Step(t, e)[j], x)
    ensures Books(Step(t, e)[j], h + [e], x)
  {
    hide Counted, Sampled, Step, Unique, SinceTick, Samples, LastSecond, LastReport, LastHeard;
    HistoryStep(h, e, x);
    OneSlot(t, e, j, x);
    if e.Sample? && e.id == x {
      CountedKeeps(t[j], x, e.seqNo % WRAP16, e.now);
    }
  }

  lemma NotOwn(t: seq<Slot>, e: Event, j: nat, x: u16)
    requires j < |t| && !e.Tick? && !IsOf(e, x) && Matches(Step(t, e)[j], x)
    ensures Step(t, e)[j] == t[j]
  {
    hide Counted;
    match e {
      case Sample(id, n, now) => CountedKeeps(t[j], id, n % WRAP16, now);
      case Status(r, now) =>
      case Tick(now) =>
    }
  }

  lemma HistoryStep(h: seq<Event>, e: Event, x: u16)
    ensures LastHeard(h + [e], x) == if IsOf(e, x) then Some(e.now) else LastHeard(h, x)
    ensures LastReport(h + [e], x) == if e.Status? && e.report.id == x then Some(e.report) else LastReport(h, x)
    ensures LastSecond(h + [e], x) == if e.Tick? then Samples(SinceTick(h), x) else LastSecond(h, x)
    ensures Samples(SinceTick(h + [e]), x) ==
            if e.Tick? then 0 else Samples(SinceTick(h), x) + if e.Sample? && e.id == x then 1 else 0
  {
    assert (h + [e])[..|h|] == h && (h + [e])[|h|] == e;
    var rest := SinceTick(h);
    assert (rest + [e])[..|rest|] == rest;
  }

  lemma Written(t: seq<Slot>, e: Event, j: nat, x: u16)
    requires j < |t| && IsOf(e, x) && !Has(t, x) && Matches(Step(t, e)[j], x)
    ensures !Matches(t[j], x)
    ensures Step(t, e)[j] == if e.Sample? then Sampled(t[j], x, e.seqNo % WRAP16, e.now)
                             else Reported(t[j], e.report, e.now)
  {
    hide Sampled, Reported;
    assert !Matches(t[j], x);
  }

  /** The packet that claims a slot opens its books. */
  lemma ClaimOpens(t: seq<Slot>, e: Event, j: nat, x: u16)
    requires j < |t| && IsOf(e, x) && !Has(t, x) && Matches(Step(t, e)[j], x)
    ensures Books(Step(t, e)[j], [e], x)
  {
    hide Counted, Sampled, Step, Has, SinceTick, Samples, LastSecond, LastReport, LastHeard;
    HistoryStep([], e, x);
    NoHistory(x);
    assert [] + [e] == [e];
    Written(t, e, j, x);
    if e.Sample? {
      CountedKeeps(t[j], x, e.seqNo % WRAP16, e.now);
    }
  }

  lemma NoHistory(x: u16)
    ensures LastReport([], x) == None && LastSecond([], x) == 0 && Samples(SinceTick([]), x) == 0
  {
  }

  lemma {:induction false} BooksKept(events: seq<Event>, c: nat, j: nat, x: u16)
    requires Holds(events, c, j, x)
    ensures Books(After(events)[j], events[c..], x)
    decreases |events|
  {
    hide Step, Books, Has;
    var before, e := events[..|events| - 1], events[|events| - 1];
    assert before + [e] == events && events[..|events|] == events;
    AfterOne(before, e);
    AfterUnique(before);
    if c < |before| {
      assert before[..c] == events[..c];
      assert forall k :: c < k <= |before| ==> events[..k] == before[..k];
      BooksKept(before, c, j, x);
      assert before[..|before|] == before && events[c..] == before[c..] + [e];
      BooksStep(After(before), e, j, before[c..], x);
    } else {
      assert events[..c] == before && events[c..] == [e];
      ClaimOpens(After(before), e, j, x);
    }
  }

  /** On every run from power-on, what each slot in use says is what its tracker sent since it claimed
      it, and nothing from before or from any other. */
  lemma SlotTells(events: seq<Event>, j: nat) returns (c: nat)
    requires j < SLOTS && After(events)[j].valid
    ensures Holds(events, c, j, After(events)[j].id)
    ensures Books(After(events)[j], events[c..], After(events)[j].id)
  {
    hide After, Books, Holds;
    c := WasClaimed(events, j);
    BooksKept(events, c, j, After(events)[j].id);
  }
}
