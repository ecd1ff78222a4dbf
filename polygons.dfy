/** The frontend's polygon collection (`polygons` in frontend/src/App.jsx):
    seeded once by the initial load, extended by each confirmed save. */
module Polygons {
  import opened Wrappers
  import opened Geo

  /** A `{ coordinates }` entry of the collection. */
  datatype PolygonRecord = PolygonRecord(coordinates: seq<Pair>)

  /** A save in flight: the polygon posted, and the collection as it stood when
      `handlePolygonComplete` was called (the value its closure captured). */
  datatype PendingSave = PendingSave(polygon: seq<Pair>, snapshot: seq<PolygonRecord>)

  /** The initial load: the server's list replaces the collection wholesale;
      a failed load leaves it alone. */
  function Load(current: seq<PolygonRecord>, response: Option<seq<PolygonRecord>>): (r: seq<PolygonRecord>)
    ensures response.Some? ==> r == response.value
    ensures response.None? ==> r == current
  {
    if response.Some? then response.value else current
  }

  /** A save settling, as evidently intended: on success it appends one record
      to the collection as it is now. */
  function Settle(current: seq<PolygonRecord>, p: PendingSave, saved: bool): (r: seq<PolygonRecord>)
    ensures current <= r && |r| <= |current| + 1
  {
    if saved then current + [PolygonRecord(p.polygon)] else current
  }

  /** A save settling as written: `setPolygons([...polygons, { coordinates }])`
      reads the captured snapshot, not the current collection. */
  function SettleAsWritten(current: seq<PolygonRecord>, p: PendingSave, saved: bool): (r: seq<PolygonRecord>)
    ensures saved ==> p.snapshot <= r && |r| == |p.snapshot| + 1
    ensures !saved ==> r == current
  {
    if saved then p.snapshot + [PolygonRecord(p.polygon)] else current
  }

  /** A successful save appends exactly one record, holding the posted polygon,
      after every prior entry; a failed save changes nothing. */
  lemma SettleAppendsOne(current: seq<PolygonRecord>, p: PendingSave, saved: bool)
    ensures saved ==> |Settle(current, p, saved)| == |current| + 1
    ensures saved ==> Settle(current, p, saved)[..|current|] == current
    ensures saved ==> Settle(current, p, saved)[|current|] == PolygonRecord(p.polygon)
    ensures !saved ==> Settle(current, p, saved) == current
  {
  }

  /** One settled save: which pending save, and whether the POST succeeded. */
  datatype Settlement = Settlement(pending: PendingSave, saved: bool)

  function SettleAll(current: seq<PolygonRecord>, ss: seq<Settlement>): seq<PolygonRecord>
    decreases |ss|
  {
    if ss == [] then current else SettleAll(Settle(current, ss[0].pending, ss[0].saved), ss[1..])
  }

  function SettleAllAsWritten(current: seq<PolygonRecord>, ss: seq<Settlement>): seq<PolygonRecord>
    decreases |ss|
  {
    if ss == [] then current else SettleAllAsWritten(SettleAsWritten(current, ss[0].pending, ss[0].saved), ss[1..])
  }

  /** The records of the saves that succeeded, in the order they settled. */
  function SavedRecords(ss: seq<Settlement>): seq<PolygonRecord>
    decreases |ss|
  {
    if ss == [] then []
    else (if ss[0].saved then [PolygonRecord(ss[0].pending.polygon)] else []) + SavedRecords(ss[1..])
  }

  /** However saves interleave and in whatever order they settle, the intended
      update keeps every prior entry and adds one record per successful save,
      in settling order, and nothing for a failed one. */
  lemma {:induction false} SettleAllKeepsEverySave(current: seq<PolygonRecord>, ss: seq<Settlement>)
    ensures SettleAll(current, ss) == current + SavedRecords(ss)
    decreases |ss|
  {
    if ss != [] {
      var next := Settle(current, ss[0].pending, ss[0].saved);
      SettleAllKeepsEverySave(next, ss[1..]);
      assert next == current + (if ss[0].saved then [PolygonRecord(ss[0].pending.polygon)] else []);
    }
  }

  /** As written, when several saves were started from the same collection
      (quick successive commits) and all succeed, only the last one survives:
      each overwrites the collection with the shared snapshot plus itself. */
  lemma {:induction false} SettleAllAsWrittenKeepsOnlyLast(snapshot: seq<PolygonRecord>, current: seq<PolygonRecord>, ss: seq<Settlement>)
    requires ss != []
    requires forall i :: 0 <= i < |ss| ==> ss[i].saved && ss[i].pending.snapshot == snapshot
    ensures SettleAllAsWritten(current, ss) == snapshot + [PolygonRecord(ss[|ss| - 1].pending.polygon)]
    decreases |ss|
  {
    var next := SettleAsWritten(current, ss[0].pending, ss[0].saved);
    if |ss| > 1 {
      SettleAllAsWrittenKeepsOnlyLast(snapshot, next, ss[1..]);
    }
  }

  /** Two polygons committed before either save returns, both saved: the
      collection as written ends with only the second, the intended update
      holds both. */
  lemma LostUpdateCounterexample()
    ensures var a := [Pair(10.0, 10.0), Pair(10.0, 11.0), Pair(11.0, 10.0)];
      var b := [Pair(20.0, 20.0), Pair(20.0, 21.0), Pair(21.0, 20.0)];
      var pa, pb := PendingSave(a, []), PendingSave(b, []);
      SettleAsWritten(SettleAsWritten([], pa, true), pb, true) == [PolygonRecord(b)] &&
      Settle(Settle([], pa, true), pb, true) == [PolygonRecord(a), PolygonRecord(b)]
  {
  }
}
