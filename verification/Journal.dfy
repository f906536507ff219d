/** The in-memory journals of events, telemetry and rotations: appended at the end, trimmed at the
    front in batches, searched from the newest entry back. */
module Journals {
  import opened Options

  type DeviceID = string

  const SLACK := 4096
  const MAX_TELEMETRY := 100_000
  const MAX_EVENTS := 50_000
  const MAX_ROTATIONS := 50_000
  const DEFAULT_QUERY_LIMIT := 50_000

  datatype SessionEvent = SessionEvent(id: nat, deviceID: DeviceID, eventType: string, detail: string, at: int)

  datatype Reading = Reading(id: nat, deviceID: DeviceID, payload: string, at: int)

  datatype RotationEntry = RotationEntry(id: nat, deviceID: DeviceID, initiator: string, success: bool, at: int)

  /** Empty or absent parts do not restrict; a limit of zero or less means the default. */
  datatype Filter = Filter(deviceID: DeviceID, since: Option<int>, until: Option<int>, limit: int) {
    predicate Wants(r: Reading) {
      && (deviceID != "" ==> r.deviceID == deviceID)
      && (since.Some? ==> since.value <= r.at)
      && (until.Some? ==> r.at <= until.value)
    }

    function Wanted(): Reading -> bool {
      r => Wants(r)
    }

    function Limit(): int {
      if limit <= 0 then DEFAULT_QUERY_LIMIT else limit
    }
  }

  function Elements(types: seq<string>): set<string> {
    set t | t in types
  }

  /** No types mean any type, no device any device. */
  predicate WantsEvent(types: set<string>, deviceID: DeviceID, e: SessionEvent) {
    (deviceID != "" ==> e.deviceID == deviceID) && (types != {} ==> e.eventType in types)
  }

  function EventDevice(e: SessionEvent): DeviceID { e.deviceID }

  function ReadingDevice(r: Reading): DeviceID { r.deviceID }

  function RotationDevice(r: RotationEntry): DeviceID { r.deviceID }

  function Except<T>(device: T -> DeviceID, d: DeviceID): T -> bool {
    x => device(x) != d
  }

  /** The entries that are wanted, in their order. */
  function Matching<T>(items: seq<T>, wanted: T -> bool): (r: seq<T>)
    ensures forall x | x in r :: x in items && wanted(x)
    ensures |r| <= |items|
  {
    if items == [] then [] else
      (if wanted(items[0]) then [items[0]] else []) + Matching(items[1..], wanted)
  }

  /** The last n entries; all of them if there are fewer, or if n is not positive. */
  function Last<T>(items: seq<T>, n: int): (r: seq<T>)
    ensures IsSuffix(r, items) && (0 < n ==> |r| <= n)
  {
    if 0 < n < |items| then items[|items| - n..] else items
  }

  function Reversed<T>(items: seq<T>): seq<T> {
    seq(|items|, i requires 0 <= i < |items| => items[|items| - 1 - i])
  }

  predicate IsSuffix<T(==)>(part: seq<T>, whole: seq<T>) {
    |part| <= |whole| && part == whole[|whole| - |part|..]
  }

  /** Nothing happens until the slack is used up; then the newest limit entries are copied. */
  function Trimmed<T>(items: seq<T>, limit: nat): (r: seq<T>)
    ensures IsSuffix(r, items) && |r| <= limit + SLACK
    ensures r == items || |r| == limit
  {
    if |items| <= limit + SLACK then items else items[|items| - limit..]
  }

  /** The latest reading of one device and of each device. */
  function Latest(items: seq<Reading>, d: DeviceID): Option<Reading> {
    if items == [] then None
    else if items[|items| - 1].deviceID == d then Some(items[|items| - 1])
    else Latest(items[..|items| - 1], d)
  }

  function LatestAll(items: seq<Reading>): map<DeviceID, Reading> {
    if items == [] then map[]
    else LatestAll(items[..|items| - 1])[items[|items| - 1].deviceID := items[|items| - 1]]
  }

  lemma {:induction false} MatchingSplits<T>(a: seq<T>, b: seq<T>, wanted: T -> bool)
    ensures Matching(a + b, wanted) == Matching(a, wanted) + Matching(b, wanted)
  {
    if a == [] {
      assert a + b == b;
    } else {
      assert (a + b)[1..] == a[1..] + b;
      MatchingSplits(a[1..], b, wanted);
    }
  }

  lemma ReversedTwice<T>(items: seq<T>)
    ensures Reversed(Reversed(items)) == items
  {
  }

  /** What one more step of a scan from the end finds. */
  lemma ScanStep<T>(items: seq<T>, i: nat, wanted: T -> bool)
    requires i < |items|
    ensures Reversed(Matching(items[i..], wanted))
            == Reversed(Matching(items[i + 1..], wanted)) + if wanted(items[i]) then [items[i]] else []
  {
    assert items[i..][1..] == items[i + 1..];
  }

  /** What a scan from the end has found, once it has found enough. */
  lemma ScanIsEnough<T>(items: seq<T>, i: nat, wanted: T -> bool, n: int)
    requires i <= |items| && |Matching(items[i..], wanted)| == n && n > 0
    ensures Matching(items[i..], wanted) == Last(Matching(items, wanted), n)
  {
    assert items == items[..i] + items[i..];
    MatchingSplits(items[..i], items[i..], wanted);
  }

  /** The swaps from both ends inwards that close a telemetry query. */
  method SwappedAround<T>(items: seq<T>) returns (out: seq<T>)
    ensures out == Reversed(items)
  {
    out := items;
    var i, j := 0, |out| - 1;
    while i < j
      invariant 0 <= i <= j + 2 && i + j == |out| - 1 && |out| == |items|
      invariant forall k | 0 <= k < |out| :: out[k] == Reversed(items)[k] || i <= k <= j
      invariant forall k | i <= k <= j :: out[k] == items[k]
    {
      out := out[i := out[j]][j := out[i]];
      i, j := i + 1, j - 1;
    }
  }

  method Filtered<T>(items: seq<T>, keep: T -> bool) returns (kept: seq<T>)
    ensures kept == Matching(items, keep)
  {
    kept := [];
    for i := 0 to |items|
      invariant kept == Matching(items[..i], keep)
    {
      assert items[..i + 1] == items[..i] + [items[i]];
      MatchingSplits(items[..i], [items[i]], keep);
      if keep(items[i]) {
        kept := kept + [items[i]];
      }
    }
    assert items[..|items|] == items;
  }

  class MemStore {
    var events: seq<SessionEvent>
    var telemetry: seq<Reading>
    var rotations: seq<RotationEntry>
    var nextID: nat
    var nextTelID: nat
    var nextRotID: nat

    constructor ()
      ensures events == [] && telemetry == [] && rotations == []
      ensures nextID == 0 && nextTelID == 0 && nextRotID == 0
    {
      events, telemetry, rotations := [], [], [];
      nextID, nextTelID, nextRotID := 0, 0, 0;
    }

    method LogEvent(deviceID: DeviceID, eventType: string, detail: string, now: int)
      modifies this`events, this`nextID
      ensures nextID == old(nextID) + 1
      ensures events == Trimmed(old(events) + [SessionEvent(nextID, deviceID, eventType, detail, now)], MAX_EVENTS)
    {
      nextID := nextID + 1;
      events := events + [SessionEvent(nextID, deviceID, eventType, detail, now)];
      events := Trimmed(events, MAX_EVENTS);
    }

    /** The time of receipt is the clock's unless given. */
    method RecordTelemetry(deviceID: DeviceID, payload: string, at: Option<int>, now: int)
      modifies this`telemetry, this`nextTelID
      ensures nextTelID == old(nextTelID) + 1
      ensures telemetry == Trimmed(
                old(telemetry) + [Reading(nextTelID, deviceID, payload, if at.Some? then at.value else now)],
                MAX_TELEMETRY)
    {
      nextTelID := nextTelID + 1;
      var receivedAt := now;
      if at.Some? {
        receivedAt := at.value;
      }
      telemetry := telemetry + [Reading(nextTelID, deviceID, payload, receivedAt)];
      telemetry := Trimmed(telemetry, MAX_TELEMETRY);
    }

    method LogRotation(deviceID: DeviceID, initiator: string, success: bool, at: Option<int>, now: int)
      modifies this`rotations, this`nextRotID
      ensures nextRotID == old(nextRotID) + 1
      ensures rotations == Trimmed(
                old(rotations)
                + [RotationEntry(nextRotID, deviceID, initiator, success, if at.Some? then at.value else now)],
                MAX_ROTATIONS)
    {
      nextRotID := nextRotID + 1;
      var createdAt := now;
      if at.Some? {
        createdAt := at.value;
      }
      rotations := rotations + [RotationEntry(nextRotID, deviceID, initiator, success, createdAt)];
      rotations := Trimmed(rotations, MAX_ROTATIONS);
    }

    /** Forgets all that was recorded about a device. */
    method Delete(deviceID: DeviceID)
      modifies this`events, this`telemetry, this`rotations
      ensures events == Matching(old(events), Except(EventDevice, deviceID))
      ensures telemetry == Matching(old(telemetry), Except(ReadingDevice, deviceID))
      ensures rotations == Matching(old(rotations), Except(RotationDevice, deviceID))
    {
      events := Filtered(events, Except(EventDevice, deviceID));
      telemetry := Filtered(telemetry, Except(ReadingDevice, deviceID));
      rotations := Filtered(rotations, Except(RotationDevice, deviceID));
    }

    /** The newest matching readings up to the limit, oldest first. */
    method QueryTelemetry(filter: Filter) returns (out: seq<Reading>)
      ensures out == Last(Matching(telemetry, filter.Wanted()), filter.Limit())
    {
      var limit := filter.limit;
      if limit <= 0 {
        limit := DEFAULT_QUERY_LIMIT;
      }
      out := [];
      ghost var wanted := filter.Wanted();
      var i := |telemetry|;
      while i > 0
        invariant 0 <= i <= |telemetry|
        invariant out == Reversed(Matching(telemetry[i..], wanted)) && |out| < limit
      {
        i := i - 1;
        var r := telemetry[i];
        ScanStep(telemetry, i, wanted);
        assert wanted(r) == filter.Wants(r);
        if filter.deviceID != "" && r.deviceID != filter.deviceID {
          continue;
        }
        if filter.since.Some? && r.at < filter.since.value {
          continue;
        }
        if filter.until.Some? && r.at > filter.until.value {
          continue;
        }
        out := out + [r];
        if |out| >= limit {
          ScanIsEnough(telemetry, i, wanted, limit);
          break;
        }
      }
      assert telemetry[0..] == telemetry;
      assert out == Reversed(Last(Matching(telemetry, wanted), limit));
      ReversedTwice(Last(Matching(telemetry, wanted), limit));
      out := SwappedAround(out);
    }

    method EventsByType(eventTypes: seq<string>, deviceID: DeviceID, limit: int) returns (out: seq<SessionEvent>)
      ensures out == Reversed(Last(Matching(events, e => WantsEvent(Elements(eventTypes), deviceID, e)), limit))
    {
      var want := Elements(eventTypes);
      out := [];
      ghost var wanted := e => WantsEvent(want, deviceID, e);
      var i := |events|;
      while i > 0
        invariant 0 <= i <= |events|
        invariant out == Reversed(Matching(events[i..], wanted)) && (limit > 0 ==> |out| < limit)
      {
        i := i - 1;
        var e := events[i];
        ScanStep(events, i, wanted);
        if deviceID != "" && e.deviceID != deviceID {
          continue;
        }
        if |want| > 0 && e.eventType !in want {
          continue;
        }
        out := out + [e];
        if limit > 0 && |out| >= limit {
          ScanIsEnough(events, i, wanted, limit);
          return;
        }
      }
      assert events[0..] == events;
    }

    method RecentEvents(deviceID: DeviceID, limit: int) returns (out: seq<SessionEvent>)
      ensures out == Reversed(Last(Matching(events, (e: SessionEvent) => e.deviceID == deviceID), limit))
    {
      out := [];
      ghost var wanted := (e: SessionEvent) => e.deviceID == deviceID;
      var i := |events|;
      while i > 0
        invariant 0 <= i <= |events|
        invariant out == Reversed(Matching(events[i..], wanted)) && (limit > 0 ==> |out| < limit)
      {
        i := i - 1;
        ScanStep(events, i, wanted);
        if events[i].deviceID == deviceID {
          out := out + [events[i]];
          if limit > 0 && |out| >= limit {
            ScanIsEnough(events, i, wanted, limit);
            return;
          }
        }
      }
      assert events[0..] == events;
    }

    method LatestTelemetry(deviceID: DeviceID) returns (r: Option<Reading>)
      ensures r == Latest(telemetry, deviceID)
    {
      var i := |telemetry|;
      assert telemetry[..i] == telemetry;
      while i > 0
        invariant 0 <= i <= |telemetry| && Latest(telemetry[..i], deviceID) == Latest(telemetry, deviceID)
      {
        assert telemetry[..i][..i - 1] == telemetry[..i - 1];
        i := i - 1;
        if telemetry[i].deviceID == deviceID {
          return Some(telemetry[i]);
        }
      }
      return None;
    }

    method LatestTelemetryAll() returns (out: map<DeviceID, Reading>)
      ensures out == LatestAll(telemetry)
    {
      out := map[];
      for i := 0 to |telemetry|
        invariant out == LatestAll(telemetry[..i])
      {
        out := out[telemetry[i].deviceID := telemetry[i]];
        assert telemetry[..i + 1][..i] == telemetry[..i];
      }
      assert telemetry[..|telemetry|] == telemetry;
    }
  }
}
