/** The dongle's tracker table, firmware/app_dongle/src/trackers.c: eight slots keyed by
    tracker id, with eviction after 30 s of silence and modulo-2^16 loss accounting. */
module Trackers {
  import HeadStream

  const SLOTS := 8
  const EVICT_SILENT_MS := 30000
  const WRAP16: nat := 0x1_0000
  const WRAP32: nat := 0x1_0000_0000

  type u8 = x: int | 0 <= x < 0x100
  type u16 = x: int | 0 <= x < 0x1_0000
  type u32 = x: int | 0 <= x < 0x1_0000_0000

  datatype Slot = Slot(valid: bool, haveSeq: bool, id: u16, lastSeen: int, lastSeq: u16,
                       seqLost: u32, pktCount: u16, rate: u16, vbat: u16,
                       fw: (u8, u8, u8), mode: u8)

  const BLANK := Slot(false, false, 0, 0, 0, 0, 0, 0, 0, (0, 0, 0), 0)

  datatype Report = Report(id: u16, vbat: u16, fw: (u8, u8, u8), mode: u8)

  predicate Matches(s: Slot, id: u16) {
    s.valid && s.id == id
  }

  predicate Stale(s: Slot, now: int) {
    now - s.lastSeen > EVICT_SILENT_MS
  }

  /** The first index whose slot satisfies `p`, or the table's length. */
  function First(t: seq<Slot>, p: Slot -> bool): (k: nat)
    ensures k <= |t|
    ensures k < |t| ==> p(t[k])
    ensures forall j :: 0 <= j < k ==> !p(t[j])
  {
    if t == [] || p(t[0]) then 0 else
      var k := First(t[1..], p);
      assert forall j :: 1 <= j <= k ==> !p(t[j]) by {
        forall j | 1 <= j <= k ensures !p(t[j]) { assert t[j] == t[1..][j - 1]; }
      }
      k + 1
  }

  /** The slot a tracker gets: its own, else the first free one, else the first stale one;
      the table's length when there is none. */
  function SlotFor(t: seq<Slot>, id: u16, now: int): (k: nat)
    ensures k <= |t|
  {
    var own := First(t, s => Matches(s, id));
    if own < |t| then own
    else
      var free := First(t, (s: Slot) => !s.valid);
      if free < |t| then free else First(t, (s: Slot) => s.valid && Stale(s, now))
  }

  function Claimed(s: Slot, id: u16): (c: Slot) {
    if Matches(s, id) then s else BLANK.(valid := true, id := id)
  }

  /** Gap accounting for one received sequence number. */
  function Counted(s: Slot, seqNo: u16): (c: Slot) {
    if !s.haveSeq then s.(haveSeq := true, lastSeq := seqNo)
    else
      var step := (seqNo - s.lastSeq) % WRAP16;
      if step != 0 && step <= 0x8000 then
        s.(seqLost := (s.seqLost + step - 1) % WRAP32, lastSeq := seqNo)
      else s
  }

  function Sampled(s: Slot, id: u16, seqNo: u16, now: int): (c: Slot) {
    var c := Claimed(s, id);
    Counted(c.(lastSeen := now,
               pktCount := if c.pktCount < 0xFFFF then c.pktCount + 1 else c.pktCount), seqNo)
  }

  function Reported(s: Slot, r: Report, now: int): (c: Slot) {
    Claimed(s, r.id).(lastSeen := now, vbat := r.vbat, fw := r.fw, mode := r.mode)
  }

  function Ticked(s: Slot, now: int): (c: Slot) {
    if !s.valid then s
    else s.(rate := s.pktCount, pktCount := 0, valid := !Stale(s, now))
  }

  datatype Event =
    | Sample(id: u16, seqNo: nat, now: int)     // seqNo before its truncation to 16 bits
    | Status(report: Report, now: int)
    | Tick(now: int)

  function Step(t: seq<Slot>, e: Event): (next: seq<Slot>)
    ensures |next| == |t|
  {
    match e
    case Sample(id, seqNo, now) =>
      var k := SlotFor(t, id, now);
      if k < |t| then t[k := Sampled(t[k], id, seqNo % WRAP16, now)] else t
    case Status(r, now) =>
      var k := SlotFor(t, r.id, now);
      if k < |t| then t[k := Reported(t[k], r, now)] else t
    case Tick(now) =>
      seq(|t|, j requires 0 <= j < |t| => Ticked(t[j], now))
  }

  // ---- the table is a map of ids ------------------------------------------------------

  /** No id has two slots. */
  ghost predicate Unique(t: seq<Slot>) {
    forall i, j :: 0 <= i < j < |t| && t[i].valid && t[j].valid ==> t[i].id != t[j].id
  }

  /** Every event keeps the ids distinct. */
  lemma StepUnique(t: seq<Slot>, e: Event)
    requires Unique(t)
    ensures Unique(Step(t, e))
  {
  }

  /** A tracker heard within 30 s keeps its slot, and no event of another tracker touches
      what is recorded about it; the tick only folds its packet count into its rate. */
  lemma OthersKept(t: seq<Slot>, e: Event, j: nat)
    requires j < |t| && t[j].valid && !Stale(t[j], e.now)
    requires e.Tick? || t[j].id != (if e.Sample? then e.id else e.report.id)
    ensures Step(t, e)[j] ==
            if e.Tick? then t[j].(rate := t[j].pktCount, pktCount := 0) else t[j]
  {
  }

  /** What is recorded about the event's own tracker. */
  lemma OwnSlot(t: seq<Slot>, e: Event, j: nat)
    requires Unique(t) && !e.Tick?
    requires j < |t| && Matches(t[j], if e.Sample? then e.id else e.report.id)
    ensures Step(t, e)[j] == if e.Sample? then Sampled(t[j], e.id, e.seqNo % WRAP16, e.now)
                             else Reported(t[j], e.report, e.now)
    ensures forall i :: 0 <= i < |t| && i != j ==> Step(t, e)[i] == t[i]
  {
  }

  /** The ids other than `id` heard within 30 s, in the first `n` slots. */
  function LiveOthers(t: seq<Slot>, n: nat, id: u16, now: int): (ids: set<u16>)
    requires n <= |t|
  {
    if n == 0 then {}
    else LiveOthers(t, n - 1, id, now) +
         if LiveOther(t[n - 1], id, now) then {t[n - 1].id} else {}
  }

  predicate LiveOther(s: Slot, id: u16, now: int) {
    s.valid && s.id != id && !Stale(s, now)
  }

  function Count(t: seq<Slot>, n: nat, id: u16, now: int): (c: nat)
    requires n <= |t|
    ensures c <= n
    ensures c == n <==> forall j :: 0 <= j < n ==> LiveOther(t[j], id, now)
  {
    if n == 0 then 0
    else Count(t, n - 1, id, now) + if LiveOther(t[n - 1], id, now) then 1 else 0
  }

  lemma {:induction false} NotAmong(t: seq<Slot>, n: nat, id: u16, now: int, x: u16)
    requires n <= |t| && forall j :: 0 <= j < n && t[j].valid ==> t[j].id != x
    ensures x !in LiveOthers(t, n, id, now)
    decreases n
  {
    if n > 0 {
      NotAmong(t, n - 1, id, now, x);
    }
  }

  lemma {:induction false} LiveOthersCount(t: seq<Slot>, n: nat, id: u16, now: int)
    requires n <= |t| && Unique(t)
    ensures |LiveOthers(t, n, id, now)| == Count(t, n, id, now)
    decreases n
  {
    if n > 0 {
      LiveOthersCount(t, n - 1, id, now);
      if LiveOther(t[n - 1], id, now) {
        var ids, own := LiveOthers(t, n - 1, id, now), t[n - 1].id;
        NotAmong(t, n - 1, id, now, own);
        hide LiveOther, Stale;
        assert |ids + {own}| == |ids| + 1;
      }
    }
  }

  /** A tracker is turned away exactly when eight other trackers, each heard within 30 s,
      fill the table. */
  lemma RefusedIff(t: seq<Slot>, id: u16, now: int)
    requires |t| == SLOTS && Unique(t)
    ensures SlotFor(t, id, now) == |t| <==> |LiveOthers(t, SLOTS, id, now)| == SLOTS
  {
    LiveOthersCount(t, SLOTS, id, now);
    if Count(t, SLOTS, id, now) != SLOTS {
      var j :| 0 <= j < SLOTS && !LiveOther(t[j], id, now);
    }
  }

  // ---- loss accounting ------------------------------------------------------------------

  /** The true sequence numbers received from one tracker since its slot was claimed: the
      first, the highest, how often the highest advanced, and how many came in all. */
  datatype Account = Nothing | Account(first: nat, high: nat, advances: nat, received: nat)

  function Follow(acc: Account, id: u16, e: Event): (next: Account) {
    if !e.Sample? || e.id != id then acc
    else match acc
      case Nothing => Account(e.seqNo, e.seqNo, 0, 1)
      case Account(first, high, advances, received) =>
        if e.seqNo > high then Account(first, e.seqNo, advances + 1, received + 1)
        else Account(first, high, advances, received + 1)
  }

  /** Slot `j` is tracker `id`'s, and its books agree with the true numbers. */
  ghost predicate Tracked(t: seq<Slot>, j: nat, id: u16, acc: Account) {
    && j < |t| && Matches(t[j], id)
    && match acc
       case Nothing => !t[j].haveSeq && t[j].seqLost == 0
       case Account(first, high, advances, _) =>
         && t[j].haveSeq && t[j].lastSeq == high % WRAP16 && first + advances <= high
         && t[j].seqLost == (high - first - advances) % WRAP32
  }

  /** No other tracker's event and no tick comes while the tracker is stale, and its own
      numbers stay in the window that 16 bits can place. */
  ghost predicate Regular(t: seq<Slot>, j: nat, id: u16, acc: Account, e: Event)
    requires j < |t|
  {
    match e
    case Sample(x, s, now) =>
      if x == id then acc.Account? ==> acc.high - 32767 <= s <= acc.high + 32768
      else !Stale(t[j], now)
    case Status(r, now) => r.id == id || !Stale(t[j], now)
    case Tick(now) => !Stale(t[j], now)
  }

  /** The 16-bit step recovers the true distance within the window. */
  lemma StepRecovered(high: nat, s: nat)
    requires high - 32767 <= s <= high + 32768
    ensures var step := (s % WRAP16 - high % WRAP16) % WRAP16;
      if s > high then step == s - high && step <= 0x8000 else step == 0 || step > 0x8000
  {
    var q := s / WRAP16 - high / WRAP16;
    assert s == WRAP16 * (s / WRAP16) + s % WRAP16;
    assert high == WRAP16 * (high / WRAP16) + high % WRAP16;
    assert s % WRAP16 - high % WRAP16 == (s - high) - WRAP16 * q;
    if s > high {
      Residue(s % WRAP16 - high % WRAP16, -q, s - high);
    } else if s < high {
      Residue(s % WRAP16 - high % WRAP16, -q - 1, s - high + WRAP16);
    }
  }

  lemma Residue(x: int, q: int, r: int)
    requires x == WRAP16 * q + r && 0 <= r < WRAP16
    ensures x % WRAP16 == r
  {
  }

  lemma LostAdds(lost: u32, before: nat, more: nat)
    requires lost == before % WRAP32
    ensures (lost + more) % WRAP32 == (before + more) % WRAP32
  {
  }

  lemma CountedTracks(s: Slot, acc: Account, seqNo: nat)
    requires acc.Account? && s.haveSeq && s.lastSeq == acc.high % WRAP16
    requires acc.first + acc.advances <= acc.high
    requires s.seqLost == (acc.high - acc.first - acc.advances) % WRAP32
    requires acc.high - 32767 <= seqNo <= acc.high + 32768
    ensures var c := Counted(s, seqNo % WRAP16);
      var high := if seqNo > acc.high then seqNo else acc.high;
      var advances := if seqNo > acc.high then acc.advances + 1 else acc.advances;
      c == s.(lastSeq := high % WRAP16,
              seqLost := (high - acc.first - advances) % WRAP32)
  {
    StepRecovered(acc.high, seqNo);
    if seqNo > acc.high {
      LostAdds(s.seqLost, acc.high - acc.first - acc.advances, seqNo - acc.high - 1);
    }
  }

  lemma TrackedStep(t: seq<Slot>, j: nat, id: u16, acc: Account, e: Event)
    requires Unique(t) && Tracked(t, j, id, acc) && Regular(t, j, id, acc, e)
    ensures Tracked(Step(t, e), j, id, Follow(acc, id, e))
  {
    hide Step, Unique, Counted;
    var own := match e case Sample(x, _, _) => x == id
                       case Status(r, _) => r.id == id
                       case Tick(_) => false;
    if own {
      OwnSlot(t, e, j);
      if e.Sample? {
        SampledTracks(t[j], id, acc, e.seqNo, e.now);
      }
    } else {
      OthersKept(t, e, j);
    }
  }

  lemma SampledTracks(s: Slot, id: u16, acc: Account, seqNo: nat, now: int)
    requires Tracked([s], 0, id, acc)
    requires acc.Account? ==> acc.high - 32767 <= seqNo <= acc.high + 32768
    ensures Tracked([Sampled(s, id, seqNo % WRAP16, now)], 0, id,
                    Follow(acc, id, Sample(id, seqNo, now)))
  {
    if acc.Account? {
      hide Counted;
      var c := s.(lastSeen := now,
                  pktCount := if s.pktCount < 0xFFFF then s.pktCount + 1 else s.pktCount);
      CountedTracks(c, acc, seqNo);
    }
  }

  function Run(t: seq<Slot>, events: seq<Event>): (next: seq<Slot>)
    ensures |next| == |t|
    decreases |events|
  {
    if events == [] then t else Run(Step(t, events[0]), events[1..])
  }

  function FollowAll(acc: Account, id: u16, events: seq<Event>): (next: Account)
    decreases |events|
  {
    if events == [] then acc else FollowAll(Follow(acc, id, events[0]), id, events[1..])
  }

  ghost predicate RegularRun(t: seq<Slot>, j: nat, id: u16, acc: Account, events: seq<Event>)
    requires j < |t|
    decreases |events|
  {
    events == [] ||
    (Regular(t, j, id, acc, events[0]) &&
     RegularRun(Step(t, events[0]), j, id, Follow(acc, id, events[0]), events[1..]))
  }

  /** Under any interleaving with other trackers' packets, reports and ticks, as long as
      the tracker is not silent for over 30 s and its numbers stay in the window: what it
      lost plus how often it advanced is how far its numbers went, modulo 2^32. */
  lemma {:induction false} LossAccounted(t: seq<Slot>, j: nat, id: u16, acc: Account, events: seq<Event>)
    requires Unique(t) && Tracked(t, j, id, acc) && RegularRun(t, j, id, acc, events)
    ensures Tracked(Run(t, events), j, id, FollowAll(acc, id, events))
    decreases |events|
  {
    hide Step, Follow, Tracked, Unique, Regular;
    if events != [] {
      assert j < |t| by { TrackedIndex(t, j, id, acc); }
      TrackedStep(t, j, id, acc, events[0]);
      StepUnique(t, events[0]);
      LossAccounted(Step(t, events[0]), j, id, Follow(acc, id, events[0]), events[1..]);
    }
  }

  lemma TrackedIndex(t: seq<Slot>, j: nat, id: u16, acc: Account)
    requires Tracked(t, j, id, acc)
    ensures j < |t|
  {
  }

  /** Each of the tracker's samples is newer than all before it. */
  predicate InOrder(acc: Account, id: u16, events: seq<Event>)
    decreases |events|
  {
    events == [] ||
    ((events[0].Sample? && events[0].id == id && acc.Account? ==> events[0].seqNo > acc.high) &&
     InOrder(Follow(acc, id, events[0]), id, events[1..]))
  }

  /** The sequence numbers of the tracker's samples among the events, as they came. */
  function Numbers(id: u16, events: seq<Event>): (numbers: seq<nat>)
    decreases |events|
  {
    if events == [] then []
    else (if events[0].Sample? && events[0].id == id then [events[0].seqNo] else []) +
         Numbers(id, events[1..])
  }

  /** On an in-order stream every sample advances, so the account ends at the last one. */
  lemma {:induction false} InOrderAdvances(acc: Account, id: u16, events: seq<Event>)
    requires InOrder(acc, id, events)
    ensures var out, own := FollowAll(acc, id, events), Numbers(id, events);
      if own == [] then out == acc
      else out == match acc
                  case Nothing => Account(own[0], own[|own| - 1], |own| - 1, |own|)
                  case Account(first, _, advances, received) =>
                    Account(first, own[|own| - 1], advances + |own|, received + |own|)
    decreases |events|
  {
    if events != [] {
      InOrderAdvances(Follow(acc, id, events[0]), id, events[1..]);
    }
  }

  /** A tracker whose numbers only ever advanced so far. */
  predicate Ascending(acc: Account) {
    acc.Account? ==> acc.received == acc.advances + 1
  }

  /** On an in-order stream, continued from any point in the slot's life, received and lost
      together are exactly the numbers the head issued between the first and the last one
      received. */
  lemma ReceivedPlusLost(t: seq<Slot>, j: nat, id: u16, acc: Account, events: seq<Event>)
    requires Unique(t) && Tracked(t, j, id, acc) && Ascending(acc)
    requires RegularRun(t, j, id, acc, events) && InOrder(acc, id, events)
    ensures var out, s := FollowAll(acc, id, events), Run(t, events)[j];
      && Matches(s, id) && Ascending(out)
      && (out.Account? ==> (out.received + s.seqLost) % WRAP32 == (out.high - out.first + 1) % WRAP32)
  {
    hide Run, FollowAll, RegularRun, InOrder, Numbers;
    LossAccounted(t, j, id, acc, events);
    InOrderAdvances(acc, id, events);
    var out, s := FollowAll(acc, id, events), Run(t, events)[j];
    if out.Account? {
      LostAdds(s.seqLost, out.high - out.first - out.advances, out.received);
    }
  }

  /** Every sample of the tracker in the run is a packet the head issued, by its place in the
      issue order. */
  predicate FromHead(issued: seq<HeadStream.Packet>, id: u16, events: seq<Event>) {
    forall k :: 0 <= k < |events| && events[k].Sample? && events[k].id == id ==> events[k].seqNo < |issued|
  }

  /** The account speaks of packets the head issued. */
  predicate AmongIssued(acc: Account, issued: seq<HeadStream.Packet>) {
    acc.Account? ==> acc.first <= acc.high < |issued|
  }

  lemma {:induction false} AccountFromHead(issued: seq<HeadStream.Packet>, id: u16, acc: Account, events: seq<Event>)
    requires FromHead(issued, id, events) && AmongIssued(acc, issued)
    ensures AmongIssued(FollowAll(acc, id, events), issued)
    decreases |events|
  {
    if events != [] {
      AccountFromHead(issued, id, Follow(acc, id, events[0]), events[1..]);
    }
  }

  /** From the head to the dongle: of what a head issued, in whatever modes and rates, let the
      dongle receive any in-order selection, among other trackers' traffic. Then received plus
      lost is the number of packets issued from the first received to the last. The table is
      given only what the packets carry. */
  lemma IssuedAccounted(ticks: seq<HeadStream.Tick>, t: seq<Slot>, j: nat, id: u16, acc: Account,
                        events: seq<Event>)
    requires Unique(t) && Tracked(t, j, id, acc) && Ascending(acc)
    requires RegularRun(t, j, id, acc, events) && InOrder(acc, id, events)
    requires FromHead(HeadStream.Issued(ticks), id, events) && AmongIssued(acc, HeadStream.Issued(ticks))
    ensures var issued := HeadStream.Issued(ticks);
      var out, s := FollowAll(acc, id, events), Run(t, events)[j];
      && Matches(s, id)
      && (out.Account? ==>
            && out.first <= out.high < |issued|
            && (out.received + s.seqLost) % WRAP32 == |issued[out.first..out.high + 1]| % WRAP32)
      && (forall k :: 0 <= k < |events| && events[k].Sample? && events[k].id == id ==>
            events[k].seqNo % WRAP16 == issued[events[k].seqNo].seqNo)
  {
    hide Run, FollowAll, RegularRun, InOrder, Tracked, Unique, Matches, HeadStream.Issued;
    ReceivedPlusLost(t, j, id, acc, events);
    AccountFromHead(HeadStream.Issued(ticks), id, acc, events);
    NumbersCarried(ticks, id, events);
  }

  /** What each packet carries is its place in the issue order, modulo 2^16. */
  lemma NumbersCarried(ticks: seq<HeadStream.Tick>, id: u16, events: seq<Event>)
    requires FromHead(HeadStream.Issued(ticks), id, events)
    ensures forall k :: 0 <= k < |events| && events[k].Sample? && events[k].id == id ==>
              events[k].seqNo % WRAP16 == HeadStream.Issued(ticks)[events[k].seqNo].seqNo
  {
    hide HeadStream.Issued;
    HeadStream.NumbersIssued(ticks);
    var issued := HeadStream.Issued(ticks);
    forall k | 0 <= k < |events| && events[k].Sample? && events[k].id == id
      ensures events[k].seqNo % WRAP16 == issued[events[k].seqNo].seqNo
    {
      assert issued[events[k].seqNo].seqNo == HeadStream.Low16(0 + events[k].seqNo);
    }
  }

  /** The event, a packet of tracker `id`, finds no slot of its own and room for one. */
  ghost predicate Claims(t: seq<Slot>, id: u16, e: Event) {
    && !e.Tick? && id == (if e.Sample? then e.id else e.report.id)
    && SlotFor(t, id, e.now) < |t| && forall j :: 0 <= j < |t| ==> !Matches(t[j], id)
  }

  /** A slot that is claimed starts empty books, whatever it held before. */
  lemma ClaimStarts(t: seq<Slot>, id: u16, e: Event)
    requires Unique(t) && Claims(t, id, e)
    ensures Unique(Step(t, e)) && Tracked(Step(t, e), SlotFor(t, id, e.now), id, Follow(Nothing, id, e))
  {
    StepUnique(t, e);
  }

  /** A tracker's stay in the table: the packet that claims a slot, be it a sample or a
      status report, and whatever follows while the tracker keeps it. */
  ghost predicate Stay(t: seq<Slot>, id: u16, e: Event, rest: seq<Event>) {
    && Unique(t) && Claims(t, id, e)
    && RegularRun(Step(t, e), SlotFor(t, id, e.now), id, Follow(Nothing, id, e), rest)
    && InOrder(Nothing, id, [e] + rest)
  }

  /** The whole of an in-order stay, from the packet that claims the slot on and counting it:
      the samples the dongle received and the ones it counts as lost are together exactly the
      packets the head issued from the first one received to the last. */
  lemma IssuedSinceClaim(ticks: seq<HeadStream.Tick>, t: seq<Slot>, id: u16, e: Event, rest: seq<Event>)
    requires Stay(t, id, e, rest) && FromHead(HeadStream.Issued(ticks), id, [e] + rest)
    ensures var issued, own := HeadStream.Issued(ticks), Numbers(id, [e] + rest);
      var s := Run(t, [e] + rest)[SlotFor(t, id, e.now)];
      && Matches(s, id)
      && if own == [] then !s.haveSeq && s.seqLost == 0
         else var first, last := own[0], own[|own| - 1];
           && first <= last < |issued|
           && s.haveSeq && s.lastSeq == issued[last].seqNo
           && (|own| + s.seqLost) % WRAP32 == |issued[first..last + 1]| % WRAP32
  {
    hide Step, Run, FollowAll, RegularRun, InOrder, Unique, Numbers, SlotFor, Follow, FromHead,
         Claims, Tracked, HeadStream.Issued;
    var all := [e] + rest;
    assert Unique(t) && Claims(t, id, e);
    ClaimStarts(t, id, e);
    StayUnfolds(t, id, e, rest);
    LossAccounted(Step(t, e), SlotFor(t, id, e.now), id, Follow(Nothing, id, e), rest);
    InOrderAdvances(Nothing, id, all);
    AccountFromHead(HeadStream.Issued(ticks), id, Nothing, all);
    TrackedBooks(HeadStream.Issued(ticks), Run(t, all), SlotFor(t, id, e.now), id,
                 FollowAll(Nothing, id, all));
    HeadStream.NumbersIssued(ticks);
  }

  lemma StayUnfolds(t: seq<Slot>, id: u16, e: Event, rest: seq<Event>)
    ensures Run(t, [e] + rest) == Run(Step(t, e), rest)
    ensures FollowAll(Nothing, id, [e] + rest) == FollowAll(Follow(Nothing, id, e), id, rest)
    ensures InOrder(Nothing, id, [e] + rest) ==> InOrder(Follow(Nothing, id, e), id, rest)
  {
    hide Step, SlotFor;
    var all := [e] + rest;
    assert all[0] == e && all[1..] == rest;
  }

  /** What the books of an in-order account say of the packets issued. */
  lemma TrackedBooks(issued: seq<HeadStream.Packet>, t: seq<Slot>, j: nat, id: u16, acc: Account)
    requires Tracked(t, j, id, acc) && Ascending(acc) && AmongIssued(acc, issued)
    ensures Matches(t[j], id)
    ensures acc.Nothing? ==> !t[j].haveSeq && t[j].seqLost == 0
    ensures acc.Account? ==>
              && t[j].haveSeq && t[j].lastSeq == HeadStream.Low16(acc.high)
              && (acc.received + t[j].seqLost) % WRAP32 == |issued[acc.first..acc.high + 1]| % WRAP32
  {
    if acc.Account? {
      LostAdds(t[j].seqLost, acc.high - acc.first - acc.advances, acc.received);
    }
  }

  // ---- the table itself -----------------------------------------------------------------

  class Table {
    const slots: array<Slot>
    var rxCountThisSecond: nat
    var rxRate: u16

    ghost predicate Valid()
      reads this
    {
      slots.Length == SLOTS
    }

    constructor ()
      ensures Valid() && fresh(slots) && rxCountThisSecond == 0 && rxRate == 0
      ensures slots[..] == seq(SLOTS, _ => BLANK) && Unique(slots[..])
    {
      slots := new Slot[SLOTS](_ => BLANK);
      rxCountThisSecond, rxRate := 0, 0;
    }

    /** Finds or takes a slot for the tracker; SLOTS when it is turned away. */
    method Claim(id: u16, now: int) returns (k: nat)
      requires Valid()
      modifies slots
      ensures k == SlotFor(old(slots[..]), id, now) <= SLOTS
      ensures forall j :: 0 <= j < SLOTS ==>
                slots[j] == if j == k then Claimed(old(slots[j]), id) else old(slots[j])
    {
      var free, stale := SLOTS, SLOTS;
      for i := 0 to SLOTS
        invariant forall j :: 0 <= j < i ==> !Matches(slots[j], id)
        invariant 0 <= free <= SLOTS && 0 <= stale <= SLOTS
        invariant if free == SLOTS then forall j :: 0 <= j < i ==> slots[j].valid
                  else free < i && !slots[free].valid && forall j :: 0 <= j < free ==> slots[j].valid
        invariant if stale == SLOTS
                  then forall j :: 0 <= j < i ==> !(slots[j].valid && Stale(slots[j], now))
                  else stale < i && slots[stale].valid && Stale(slots[stale], now) &&
                       forall j :: 0 <= j < stale ==> !(slots[j].valid && Stale(slots[j], now))
      {
        if slots[i].valid && slots[i].id == id {
          return i;
        }
        if !slots[i].valid {
          if free == SLOTS {
            free := i;
          }
        } else if now - slots[i].lastSeen > EVICT_SILENT_MS && stale == SLOTS {
          stale := i;
        }
      }
      k := if free != SLOTS then free else stale;
      if k != SLOTS {
        slots[k] := BLANK.(valid := true, id := id);
      }
    }

    method OnSample(id: u16, seqNo: nat, now: int)
      requires Valid()
      modifies this`rxCountThisSecond, slots
      ensures slots[..] == Step(old(slots[..]), Sample(id, seqNo, now))
      ensures rxCountThisSecond == old(rxCountThisSecond) + 1
    {
      rxCountThisSecond := rxCountThisSecond + 1;
      var k := Claim(id, now);
      if k == SLOTS {
        return;
      }
      var t := slots[k].(lastSeen := now);
      if t.pktCount < 0xFFFF {
        t := t.(pktCount := t.pktCount + 1);
      }
      if !t.haveSeq {
        t := t.(haveSeq := true, lastSeq := seqNo % WRAP16);
      } else {
        var step := (seqNo % WRAP16 - t.lastSeq) % WRAP16;
        if step != 0 && step <= 0x8000 {
          t := t.(seqLost := (t.seqLost + step - 1) % WRAP32, lastSeq := seqNo % WRAP16);
        }
      }
      slots[k] := t;
    }

    method OnTstatus(r: Report, now: int)
      requires Valid()
      modifies this`rxCountThisSecond, slots
      ensures slots[..] == Step(old(slots[..]), Status(r, now))
      ensures rxCountThisSecond == old(rxCountThisSecond) + 1
    {
      rxCountThisSecond := rxCountThisSecond + 1;
      var k := Claim(r.id, now);
      if k == SLOTS {
        return;
      }
      slots[k] := slots[k].(lastSeen := now, vbat := r.vbat, fw := r.fw, mode := r.mode);
    }

    method Tick1Hz(now: int)
      requires Valid()
      modifies this, slots
      ensures slots[..] == Step(old(slots[..]), Tick(now))
      ensures rxCountThisSecond == 0
      ensures rxRate == if old(rxCountThisSecond) > 0xFFFF then 0xFFFF else old(rxCountThisSecond)
    {
      rxRate := if rxCountThisSecond > 0xFFFF then 0xFFFF else rxCountThisSecond;
      rxCountThisSecond := 0;
      for i := 0 to SLOTS
        invariant forall j :: 0 <= j < SLOTS ==>
          slots[j] == if j < i then Ticked(old(slots[j]), now) else old(slots[j])
        invariant rxCountThisSecond == 0
        invariant rxRate == if old(rxCountThisSecond) > 0xFFFF then 0xFFFF else old(rxCountThisSecond)
      {
        var t := slots[i];
        if !t.valid {
          continue;
        }
        t := t.(rate := t.pktCount, pktCount := 0);
        if now - t.lastSeen > EVICT_SILENT_MS {
          t := t.(valid := false);
        }
        slots[i] := t;
      }
    }
  }
}
