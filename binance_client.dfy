/** Local order-book maintenance for the venue's depth stream: snapshot
    bootstrap, diff application, the three-way sequence check on each
    depth event, and the reconnect loop that restarts from a fresh
    snapshot. Prices and quantities are `real`; the transport (REST,
    websocket, JSON decoding) is replaced by input sequences. */
module BinanceClient {
  import opened Wrappers

  /** A (price, quantity) pair of a snapshot or of a depth event. */
  type Level = (real, real)

  /** One side of the book: price -> resting quantity. */
  type Side = map<real, real>

  /** A snapshot as returned by the REST depth endpoint; a missing
      "bids"/"asks" list is the empty sequence. */
  datatype RawSnapshot = RawSnapshot(lastUpdateId: int, bids: seq<Level>, asks: seq<Level>)

  /** A depth event: `U` (first), `u` (final) and `E` (event time) may be
      absent; an absent "b"/"a" list is the empty sequence. */
  datatype DiffEvent = DiffEvent(
    first: Option<int>, final: Option<int>, eventTime: Option<int>,
    bids: seq<Level>, asks: seq<Level>)

  /** What the stream yields: the event time and both sides of the book. */
  datatype BookState = BookState(eventTime: Option<int>, bids: Side, asks: Side)

  /** The synchroniser's state: the local book and its update-id frontier. */
  datatype Sync = Sync(bids: Side, asks: Side, lastUpdateId: int)

  /** One pass of the reconnect loop: either the snapshot could not be
      fetched (its retries were exhausted), or a snapshot was obtained and
      the connection delivered `messages` before it failed or closed. */
  datatype Cycle = FetchFailed | Connected(snapshot: RawSnapshot, messages: seq<DiffEvent>)

  // ---------------------------------------------------------------------
  // Price levels

  /** The quantity of the last entry for price `p` in `levels`, if any. */
  function LastQty(levels: seq<Level>, p: real): (r: Option<real>)
    ensures r.None? <==> forall i :: 0 <= i < |levels| ==> levels[i].0 != p
    ensures r.Some? ==> exists i :: 0 <= i < |levels| && levels[i] == (p, r.value) &&
                          forall j :: i < j < |levels| ==> levels[j].0 != p
  {
    if levels == [] then None
    else if levels[|levels| - 1].0 == p then Some(levels[|levels| - 1].1)
    else LastQty(levels[..|levels| - 1], p)
  }

  /** Snapshot parsing: a dictionary built from the level list in order,
      so a later duplicate price overwrites an earlier one. */
  function ParseLevels(levels: seq<Level>): Side
  {
    if levels == [] then map[]
    else ParseLevels(levels[..|levels| - 1])[levels[|levels| - 1].0 := levels[|levels| - 1].1]
  }

  lemma {:induction false} ParseLevelsAt(levels: seq<Level>, p: real)
    ensures p in ParseLevels(levels) <==> LastQty(levels, p).Some?
    ensures p in ParseLevels(levels) ==> ParseLevels(levels)[p] == LastQty(levels, p).value
  {
    if levels != [] {
      ParseLevelsAt(levels[..|levels| - 1], p);
    }
  }

  /** The initial synchroniser state built from a snapshot. */
  function Bootstrap(snap: RawSnapshot): (s: Sync)
    ensures s.lastUpdateId == snap.lastUpdateId
  {
    Sync(ParseLevels(snap.bids), ParseLevels(snap.asks), snap.lastUpdateId)
  }

  /** One change of a diff: quantity zero removes the price, any other
      quantity sets it. */
  function ApplyLevel(side: Side, l: Level): Side
  {
    if l.1 == 0.0 then side - {l.0} else side[l.0 := l.1]
  }

  /** The changes of one side of a diff, applied in order. */
  function ApplyChanges(side: Side, changes: seq<Level>): Side
  {
    if changes == [] then side
    else ApplyLevel(ApplyChanges(side, changes[..|changes| - 1]), changes[|changes| - 1])
  }

  /** Removing a price that is not on the book leaves the side as it was. */
  lemma RemoveAbsentIsNoop(side: Side, p: real)
    requires p !in side
    ensures ApplyLevel(side, (p, 0.0)) == side
  {
    assert side - {p} == side;
  }

  /** The effect of a diff on one price: determined by the last entry for
      that price (zero removes, any other quantity is set exactly); a price
      the diff does not name keeps its presence and quantity. */
  lemma {:induction false} ApplyChangesAt(side: Side, changes: seq<Level>, p: real)
    ensures LastQty(changes, p).None? ==>
              (p in ApplyChanges(side, changes) <==> p in side) &&
              (p in side ==> ApplyChanges(side, changes)[p] == side[p])
    ensures LastQty(changes, p) == Some(0.0) ==> p !in ApplyChanges(side, changes)
    ensures LastQty(changes, p).Some? && LastQty(changes, p).value != 0.0 ==>
              p in ApplyChanges(side, changes) &&
              ApplyChanges(side, changes)[p] == LastQty(changes, p).value
  {
    if changes != [] {
      ApplyChangesAt(side, changes[..|changes| - 1], p);
    }
  }

  /** No resting level has quantity zero. */
  ghost predicate NoZeroLevels(side: Side)
  {
    forall p :: p in side ==> side[p] != 0.0
  }

  /** Diffs never leave a zero-quantity level behind. */
  lemma {:induction false} ApplyChangesKeepsNoZero(side: Side, changes: seq<Level>)
    requires NoZeroLevels(side)
    ensures NoZeroLevels(ApplyChanges(side, changes))
  {
    if changes != [] {
      ApplyChangesKeepsNoZero(side, changes[..|changes| - 1]);
    }
  }

  // ---------------------------------------------------------------------
  // The sequence check

  datatype Verdict = Incomplete | Stale | Bridging | Gap

  /** The three-way test of a depth event against the frontier `last`,
      after events lacking `U` or `u` are set aside. */
  function Classify(last: int, e: DiffEvent): (v: Verdict)
    ensures v == Incomplete <==> e.first.None? || e.final.None?
    ensures v == Bridging <==>
              e.first.Some? && e.final.Some? && e.first.value <= last + 1 <= e.final.value
    ensures v == Gap <==>
              e.first.Some? && e.final.Some? && e.final.value > last && e.first.value > last + 1
  {
    if e.final.None? || e.first.None? then Incomplete
    else if e.final.value <= last then Stale
    else if e.first.value <= last + 1 <= e.final.value then Bridging
    else Gap
  }

  /** One depth event: only a bridging event changes the state, and it is
      the only one that emits; the emitted book is the updated one and the
      frontier moves strictly forward exactly when something is emitted. */
  function Step(s: Sync, e: DiffEvent): (r: (Sync, Option<BookState>))
    ensures r.0.lastUpdateId >= s.lastUpdateId
    ensures r.1.Some? <==> r.0.lastUpdateId > s.lastUpdateId
    ensures r.1.Some? <==> Classify(s.lastUpdateId, e) == Bridging
    ensures r.1.None? ==> r.0 == s
    ensures r.1.Some? ==> r.1.value.bids == r.0.bids && r.1.value.asks == r.0.asks
  {
    if Classify(s.lastUpdateId, e) == Bridging then
      var s' := Sync(ApplyChanges(s.bids, e.bids), ApplyChanges(s.asks, e.asks), e.final.value);
      (s', Some(BookState(e.eventTime, s'.bids, s'.asks)))
    else
      (s, None)
  }

  /** A stale event (`u <= last`) changes neither the book nor the
      frontier, and emits nothing. */
  lemma StaleIsIgnored(s: Sync, e: DiffEvent)
    requires e.first.Some? && e.final.Some? && e.final.value <= s.lastUpdateId
    ensures Step(s, e) == (s, None)
  {
  }

  /** A gap event, or one missing `U` or `u`, is dropped without trace. */
  lemma GapOrIncompleteIsDropped(s: Sync, e: DiffEvent)
    requires e.first.None? || e.final.None? || e.first.value > s.lastUpdateId + 1
    ensures Step(s, e) == (s, None)
  {
  }

  /** A bridging event is applied to both sides, moves the frontier to its
      `u`, and emits exactly one state carrying its `E`. */
  lemma BridgingIsApplied(s: Sync, e: DiffEvent)
    requires e.first.Some? && e.final.Some?
    requires e.first.value <= s.lastUpdateId + 1 <= e.final.value
    ensures Step(s, e).0 == Sync(ApplyChanges(s.bids, e.bids), ApplyChanges(s.asks, e.asks), e.final.value)
    ensures Step(s, e).1 == Some(BookState(e.eventTime, Step(s, e).0.bids, Step(s, e).0.asks))
  {
  }

  /** The events of one connection, in arrival order: the final state and
      the states emitted. */
  function Run(s: Sync, es: seq<DiffEvent>): (r: (Sync, seq<BookState>))
    ensures r.0.lastUpdateId >= s.lastUpdateId
    ensures |r.1| <= |es|
    ensures r.1 == [] ==> r.0 == s
  {
    if es == [] then (s, [])
    else
      var prev := Run(s, es[..|es| - 1]);
      var next := Step(prev.0, es[|es| - 1]);
      (next.0, if next.1.Some? then prev.1 + [next.1.value] else prev.1)
  }

  /** The frontier right after each emission of one connection: strictly
      increasing, above the starting frontier and never past the final one. */
  function Frontiers(s: Sync, es: seq<DiffEvent>): (ids: seq<int>)
    ensures |ids| == |Run(s, es).1|
    ensures forall i, j :: 0 <= i < j < |ids| ==> ids[i] < ids[j]
    ensures forall i :: 0 <= i < |ids| ==> s.lastUpdateId < ids[i] <= Run(s, es).0.lastUpdateId
    ensures ids != [] ==> ids[|ids| - 1] == Run(s, es).0.lastUpdateId
  {
    if es == [] then []
    else
      var prev := Run(s, es[..|es| - 1]);
      var ids := Frontiers(s, es[..|es| - 1]);
      var next := Step(prev.0, es[|es| - 1]);
      if next.1.Some? then ids + [next.0.lastUpdateId] else ids
  }

  /** With no gap counter and no forced resynchronisation, events that do
      not bridge the current frontier leave the connection stalled: it
      emits nothing and the book stays as it was. */
  lemma {:induction false} PermanentGapStalls(s: Sync, es: seq<DiffEvent>)
    requires forall i :: 0 <= i < |es| ==> Classify(s.lastUpdateId, es[i]) != Bridging
    ensures Run(s, es) == (s, [])
  {
    if es != [] {
      PermanentGapStalls(s, es[..|es| - 1]);
    }
  }

  /** Within one connection, once the local book has no zero-quantity
      level, every emitted state has none either. */
  lemma {:induction false} RunKeepsNoZero(s: Sync, es: seq<DiffEvent>)
    requires NoZeroLevels(s.bids) && NoZeroLevels(s.asks)
    ensures NoZeroLevels(Run(s, es).0.bids) && NoZeroLevels(Run(s, es).0.asks)
    ensures forall k :: 0 <= k < |Run(s, es).1| ==>
              NoZeroLevels(Run(s, es).1[k].bids) && NoZeroLevels(Run(s, es).1[k].asks)
  {
    if es != [] {
      var prev := Run(s, es[..|es| - 1]);
      RunKeepsNoZero(s, es[..|es| - 1]);
      ApplyChangesKeepsNoZero(prev.0.bids, es[|es| - 1].bids);
      ApplyChangesKeepsNoZero(prev.0.asks, es[|es| - 1].asks);
    }
  }

  // ---------------------------------------------------------------------
  // The reconnect loop

  /** The states one pass of the reconnect loop emits: nothing when the
      snapshot could not be fetched, otherwise the run of its messages
      from a book rebuilt from that snapshot alone. */
  function CycleOutput(c: Cycle): seq<BookState>
  {
    match c
    case FetchFailed => []
    case Connected(snap, messages) => Run(Bootstrap(snap), messages).1
  }

  /** Everything the depth stream yields over a sequence of passes. */
  function StreamOutput(cycles: seq<Cycle>): seq<BookState>
  {
    FlatMap(CycleOutput, cycles)
  }

  /** Nothing crosses a reconnect: what is yielded after a pass ends
      depends only on the later passes, each starting from its own
      snapshot. */
  lemma ReconnectStartsFresh(earlier: seq<Cycle>, later: seq<Cycle>)
    ensures StreamOutput(earlier + later) == StreamOutput(earlier) + StreamOutput(later)
  {
    FlatMapAppend(CycleOutput, earlier, later);
  }

  /** After a (re)connection, every frontier reached lies above the fresh
      snapshot's `lastUpdateId`: no event at or below it is bridged. */
  lemma ConnectionFrontiers(snap: RawSnapshot, messages: seq<DiffEvent>)
    ensures forall i :: 0 <= i < |Frontiers(Bootstrap(snap), messages)| ==>
              Frontiers(Bootstrap(snap), messages)[i] > snap.lastUpdateId
  {
  }

  /** An example: snapshot at 100 holding bid 10.0, and a diff
      U=95, u=105 removing bid 10.0. */
  lemma BridgingExample()
    ensures var s := Bootstrap(RawSnapshot(100, [(10.0, 2.0), (9.5, 1.0)], []));
            var e := DiffEvent(Some(95), Some(105), Some(7), [(10.0, 0.0)], []);
            Step(s, e).0.lastUpdateId == 105 &&
            10.0 !in Step(s, e).0.bids && Step(s, e).0.bids == map[9.5 := 1.0] &&
            Step(s, e).1 == Some(BookState(Some(7), map[9.5 := 1.0], map[]))
  {
    var s := Bootstrap(RawSnapshot(100, [(10.0, 2.0), (9.5, 1.0)], []));
    assert s.bids == map[10.0 := 2.0, 9.5 := 1.0];
    assert s.bids - {10.0} == map[9.5 := 1.0];
  }

  /** An example of a gap: frontier 100, event U=110, u=120. */
  lemma GapExample(s: Sync)
    requires s.lastUpdateId == 100
    ensures Step(s, DiffEvent(Some(110), Some(120), None, [], [])) == (s, None)
  {
  }

  // ---------------------------------------------------------------------
  // The imperative client

  /** The local book that the depth stream mutates in place. */
  class LocalBook {
    var bids: Side
    var asks: Side
    var lastUpdateId: int

    function State(): Sync
      reads this
    {
      Sync(bids, asks, lastUpdateId)
    }

    /** A fresh local book copied from a snapshot. */
    constructor FromSnapshot(snap: RawSnapshot)
      ensures State() == Bootstrap(snap)
    {
      bids := ParseLevels(snap.bids);
      asks := ParseLevels(snap.asks);
      lastUpdateId := snap.lastUpdateId;
    }

    /** Applies the bid changes, then the ask changes, one level at a time. */
    method ApplyDiff(e: DiffEvent)
      modifies this
      ensures bids == ApplyChanges(old(bids), e.bids)
      ensures asks == ApplyChanges(old(asks), e.asks)
      ensures lastUpdateId == old(lastUpdateId)
    {
      var i := 0;
      while i < |e.bids|
        invariant 0 <= i <= |e.bids|
        invariant bids == ApplyChanges(old(bids), e.bids[..i])
        invariant asks == old(asks) && lastUpdateId == old(lastUpdateId)
      {
        var (price, qty) := e.bids[i];
        if qty == 0.0 {
          bids := bids - {price};
        } else {
          bids := bids[price := qty];
        }
        assert e.bids[..i + 1][..i] == e.bids[..i];
        i := i + 1;
      }
      assert e.bids[..|e.bids|] == e.bids;
      var j := 0;
      while j < |e.asks|
        invariant 0 <= j <= |e.asks|
        invariant asks == ApplyChanges(old(asks), e.asks[..j])
        invariant bids == ApplyChanges(old(bids), e.bids) && lastUpdateId == old(lastUpdateId)
      {
        var (price, qty) := e.asks[j];
        if qty == 0.0 {
          asks := asks - {price};
        } else {
          asks := asks[price := qty];
        }
        assert e.asks[..j + 1][..j] == e.asks[..j];
        j := j + 1;
      }
      assert e.asks[..|e.asks|] == e.asks;
    }

    /** The body of the message loop for one decoded depth event. */
    method OnMessage(e: DiffEvent) returns (out: Option<BookState>)
      modifies this
      ensures (State(), out) == Step(old(State()), e)
    {
      if e.final.None? || e.first.None? {
        return None;
      }
      if e.final.value <= lastUpdateId {
        return None;
      }
      if e.first.value <= lastUpdateId + 1 <= e.final.value {
        ApplyDiff(e);
        lastUpdateId := e.final.value;
        out := Some(BookState(e.eventTime, bids, asks));
      } else {
        out := None;
      }
    }
  }

  /** One connection: a local book rebuilt from `snap`, then the message
      loop over `messages`, forwarding every state it emits. */
  method Connection(snap: RawSnapshot, messages: seq<DiffEvent>) returns (out: seq<BookState>)
    ensures out == Run(Bootstrap(snap), messages).1
  {
    var book := new LocalBook.FromSnapshot(snap);
    out := [];
    for k := 0 to |messages|
      invariant (book.State(), out) == Run(Bootstrap(snap), messages[..k])
    {
      var o := book.OnMessage(messages[k]);
      if o.Some? {
        out := out + [o.value];
      }
      assert messages[..k + 1][..k] == messages[..k];
    }
    assert messages[..|messages|] == messages;
  }

  /** The reconnect loop: each pass rebuilds the local book from its own
      snapshot and forwards every state the message loop emits. */
  method DepthStream(cycles: seq<Cycle>) returns (emitted: seq<BookState>)
    ensures emitted == StreamOutput(cycles)
  {
    emitted := [];
    for c := 0 to |cycles|
      invariant emitted == StreamOutput(cycles[..c])
    {
      if cycles[c].Connected? {
        var out := Connection(cycles[c].snapshot, cycles[c].messages);
        emitted := emitted + out;
      }
      assert cycles[..c + 1][..c] == cycles[..c];
    }
    assert cycles[..|cycles|] == cycles;
  }
}
