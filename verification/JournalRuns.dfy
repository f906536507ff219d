/** A journal after any sequence of appends and device deletions, against the journal that is never
    trimmed. The same holds for events, telemetry and rotations. */
module JournalRuns {
  import opened Journals
  import opened Options

  datatype Op<T> = Put(item: T) | Drop(device: DeviceID)

  function Next<T>(device: T -> DeviceID, limit: nat, items: seq<T>, op: Op<T>): seq<T> {
    match op
    case Put(x) => Trimmed(items + [x], limit)
    case Drop(d) => Matching(items, Except(device, d))
  }

  function After<T>(device: T -> DeviceID, limit: nat, ops: seq<Op<T>>): seq<T> {
    if ops == [] then [] else Next(device, limit, After(device, limit, ops[..|ops| - 1]), ops[|ops| - 1])
  }

  /** All the appended entries that were not deleted. */
  function Surviving<T>(device: T -> DeviceID, ops: seq<Op<T>>): seq<T> {
    if ops == [] then [] else
      var before := Surviving(device, ops[..|ops| - 1]);
      match ops[|ops| - 1]
      case Put(x) => before + [x]
      case Drop(d) => Matching(before, Except(device, d))
  }

  function Puts<T>(ops: seq<Op<T>>): nat {
    if ops == [] then 0 else Puts(ops[..|ops| - 1]) + if ops[|ops| - 1].Put? then 1 else 0
  }

  lemma MatchingSuffix<T>(part: seq<T>, whole: seq<T>, wanted: T -> bool)
    requires IsSuffix(part, whole)
    ensures IsSuffix(Matching(part, wanted), Matching(whole, wanted))
  {
    var older := whole[..|whole| - |part|];
    assert whole == older + part;
    MatchingSplits(older, part, wanted);
  }

  /** The journal is always the newest part of what survived. */
  lemma {:induction false} JournalIsSuffix<T>(device: T -> DeviceID, limit: nat, ops: seq<Op<T>>)
    ensures IsSuffix(After(device, limit, ops), Surviving(device, ops))
    ensures |After(device, limit, ops)| <= limit + SLACK
  {
    if ops != [] {
      var before := ops[..|ops| - 1];
      JournalIsSuffix(device, limit, before);
      match ops[|ops| - 1]
      case Put(x) =>
        var items, all := After(device, limit, before) + [x], Surviving(device, before) + [x];
        assert IsSuffix(items, all);
        assert IsSuffix(Trimmed(items, limit), all);
      case Drop(d) =>
        MatchingSuffix(After(device, limit, before), Surviving(device, before), Except(device, d));
    }
  }

  /** The appends after which their device was not deleted any more, from the first on. */
  ghost function Undeleted<T>(device: T -> DeviceID, ops: seq<Op<T>>): seq<T> {
    if ops == [] then []
    else if ops[0].Put? && Drop(device(ops[0].item)) !in ops[1..] then [ops[0].item] + Undeleted(device, ops[1..])
    else Undeleted(device, ops[1..])
  }

  lemma {:induction false} OneMoreUndeleted<T>(device: T -> DeviceID, ops: seq<Op<T>>, op: Op<T>)
    ensures Undeleted(device, ops + [op])
            == match op
               case Put(x) => Undeleted(device, ops) + [x]
               case Drop(d) => Matching(Undeleted(device, ops), Except(device, d))
  {
    if ops != [] {
      OneMoreUndeleted(device, ops[1..], op);
      assert (ops + [op])[1..] == ops[1..] + [op];
      if ops[0].Put? && op.Drop? {
        MatchingFirst(ops[0].item, Undeleted(device, ops[1..]), Except(device, op.device));
      }
    } else {
      assert [op][1..] == [];
    }
  }

  /** What survives is what was never deleted after it was appended, in the order of the appends. */
  lemma {:induction false} SurvivingAreUndeleted<T>(device: T -> DeviceID, ops: seq<Op<T>>)
    ensures Surviving(device, ops) == Undeleted(device, ops)
  {
    if ops != [] {
      var n := |ops| - 1;
      SurvivingAreUndeleted(device, ops[..n]);
      OneMoreUndeleted(device, ops[..n], ops[n]);
      assert ops == ops[..n] + [ops[n]];
    }
  }

  /** Right after its deletion nothing of a device is left, and appending something of another brings
      nothing back. */
  lemma DeletedIsGone<T>(device: T -> DeviceID, limit: nat, ops: seq<Op<T>>, d: DeviceID, x: T)
    requires device(x) != d
    ensures forall y | y in After(device, limit, ops + [Drop(d)]) :: device(y) != d
    ensures forall y | y in After(device, limit, ops + [Drop(d)] + [Put(x)]) :: device(y) != d
  {
    OneMore(device, limit, ops, Drop(d));
    OneMore(device, limit, ops + [Drop(d)], Put(x));
  }

  /** A query of readings selects exactly those of the device asked for, if any, from the times asked
      for, both ends included. */
  lemma ReadingsSelected(items: seq<Reading>, f: Filter, r: Reading)
    ensures r in Matching(items, f.Wanted())
            <==> r in items
                 && (f.deviceID == "" || r.deviceID == f.deviceID)
                 && (f.since == None || f.since.value <= r.at) && (f.until == None || r.at <= f.until.value)
    ensures f.Limit() == if f.limit > 0 then f.limit else 50_000
  {
    WantedAreThere(items, f.Wanted(), r);
  }

  lemma {:induction false} WantedAreThere<T>(items: seq<T>, wanted: T -> bool, x: T)
    ensures x in Matching(items, wanted) <==> x in items && wanted(x)
  {
    if items != [] {
      WantedAreThere(items[1..], wanted, x);
    }
  }

  /** A query of events selects exactly those of the types and the device asked for; no type and no
      device mean any. */
  lemma EventsSelected(items: seq<SessionEvent>, types: seq<string>, d: DeviceID, e: SessionEvent)
    ensures e in Matching(items, x => WantsEvent(Elements(types), d, x))
            <==> e in items && (d == "" || e.deviceID == d) && (types == [] || e.eventType in types)
  {
    WantedAreThere(items, x => WantsEvent(Elements(types), d, x), e);
    assert types != [] ==> types[0] in Elements(types);
  }

  lemma PutKeepsRecent<T>(kept: seq<T>, items: seq<T>, x: T, limit: nat)
    requires IsSuffix(kept, items) && |kept| + 1 <= limit
    ensures IsSuffix(kept + [x], Trimmed(items + [x], limit))
  {
    assert items + [x] == items[..|items| - |kept|] + (kept + [x]);
  }

  lemma OneMore<T>(device: T -> DeviceID, limit: nat, ops: seq<Op<T>>, op: Op<T>)
    ensures After(device, limit, ops + [op]) == Next(device, limit, After(device, limit, ops), op)
  {
    assert (ops + [op])[..|ops|] == ops;
  }

  /** Only entries with at least limit appends after them are ever trimmed: those of the last limit
      appends, unless deleted, are all there. */
  lemma {:induction false} RecentAreKept<T>(device: T -> DeviceID, limit: nat, before: seq<Op<T>>, recent: seq<Op<T>>)
    requires Puts(recent) <= limit
    ensures IsSuffix(Surviving(device, recent), After(device, limit, before + recent))
    ensures |Surviving(device, recent)| <= Puts(recent)
  {
    if recent != [] {
      var n := |recent| - 1;
      RecentAreKept(device, limit, before, recent[..n]);
      assert before + recent == (before + recent[..n]) + [recent[n]];
      OneMore(device, limit, before + recent[..n], recent[n]);
      var items, kept := After(device, limit, before + recent[..n]), Surviving(device, recent[..n]);
      match recent[n]
      case Put(x) =>
        PutKeepsRecent(kept, items, x, limit);
      case Drop(d) =>
        MatchingSuffix(kept, items, Except(device, d));
    }
  }

  lemma LastOfSuffix<T>(part: seq<T>, whole: seq<T>, n: int)
    requires IsSuffix(part, whole)
    ensures IsSuffix(Last(part, n), Last(whole, n))
    ensures 0 < n <= |part| ==> Last(part, n) == Last(whole, n)
  {
  }

  /** A query over the journal answers the newest part of what it would over everything, and all of
      that once it finds as many entries as it may return. */
  lemma AnswersAreRecent<T>(device: T -> DeviceID, limit: nat, ops: seq<Op<T>>, wanted: T -> bool, n: int)
    ensures var answer := Last(Matching(After(device, limit, ops), wanted), n);
            var untrimmed := Last(Matching(Surviving(device, ops), wanted), n);
            IsSuffix(answer, untrimmed) && (0 < n == |answer| ==> answer == untrimmed)
  {
    JournalIsSuffix(device, limit, ops);
    MatchingSuffix(After(device, limit, ops), Surviving(device, ops), wanted);
    LastOfSuffix(Matching(After(device, limit, ops), wanted), Matching(Surviving(device, ops), wanted), n);
  }

  lemma MatchingFirst<T>(x: T, rest: seq<T>, wanted: T -> bool)
    ensures Matching([x] + rest, wanted) == (if wanted(x) then [x] else []) + Matching(rest, wanted)
  {
    assert ([x] + rest)[1..] == rest;
  }

  /** Deleting a device changes no answer about others. */
  lemma {:induction false} DeletionIsLocal<T>(device: T -> DeviceID, items: seq<T>, d: DeviceID, wanted: T -> bool)
    requires forall i | 0 <= i < |items| && wanted(items[i]) :: device(items[i]) != d
    ensures Matching(Matching(items, Except(device, d)), wanted) == Matching(items, wanted)
  {
    if items != [] {
      var rest := items[1..];
      forall i | 0 <= i < |rest| && wanted(rest[i])
        ensures device(rest[i]) != d
      {
        assert rest[i] == items[i + 1];
      }
      DeletionIsLocal(device, rest, d, wanted);
      var left := Matching(rest, Except(device, d));
      if device(items[0]) != d {
        assert Matching(items, Except(device, d)) == [items[0]] + left;
        MatchingFirst(items[0], left, wanted);
      } else {
        assert !wanted(items[0]) && Matching(items, Except(device, d)) == left;
      }
    }
  }

  /** The latest reading is the last of the device's own. */
  lemma {:induction false} LatestIsLastMatch(items: seq<Reading>, d: DeviceID)
    ensures var own := Matching(items, (r: Reading) => r.deviceID == d);
            Latest(items, d) == if own == [] then None else Some(own[|own| - 1])
  {
    if items != [] {
      var n := |items| - 1;
      LatestIsLastMatch(items[..n], d);
      assert items == items[..n] + [items[n]];
      MatchingSplits(items[..n], [items[n]], (r: Reading) => r.deviceID == d);
    }
  }

  /** The two lookups of latest readings agree for every device. */
  lemma {:induction false} LatestLookupsAgree(items: seq<Reading>, d: DeviceID)
    ensures Latest(items, d) == if d in LatestAll(items) then Some(LatestAll(items)[d]) else None
  {
    if items != [] {
      LatestLookupsAgree(items[..|items| - 1], d);
    }
  }

  /** Deleting another device does not change the latest reading of this one. */
  lemma LatestUnchangedByDeletion(items: seq<Reading>, d: DeviceID, other: DeviceID)
    requires d != other
    ensures Latest(Matching(items, Except(ReadingDevice, other)), d) == Latest(items, d)
  {
    var left := Matching(items, Except(ReadingDevice, other));
    DeletionIsLocal(ReadingDevice, items, other, (r: Reading) => r.deviceID == d);
    LatestIsLastMatch(left, d);
    LatestIsLastMatch(items, d);
  }

  /** The last append left older entries behind. */
  ghost predicate TrimsNow<T>(device: T -> DeviceID, limit: nat, ops: seq<Op<T>>)
    requires ops != []
  {
    ops[|ops| - 1].Put?
    && After(device, limit, ops) != After(device, limit, ops[..|ops| - 1]) + [ops[|ops| - 1].item]
  }

  /** How many times the journal was trimmed, and how many entries that copied. */
  ghost function Trims<T>(device: T -> DeviceID, limit: nat, ops: seq<Op<T>>): nat {
    if ops == [] then 0 else
      Trims(device, limit, ops[..|ops| - 1]) + if TrimsNow(device, limit, ops) then 1 else 0
  }

  ghost function Copied<T>(device: T -> DeviceID, limit: nat, ops: seq<Op<T>>): nat {
    if ops == [] then 0 else
      Copied(device, limit, ops[..|ops| - 1])
      + if TrimsNow(device, limit, ops) then |After(device, limit, ops)| else 0
  }

  /** Every trim uses up slack + 1 appends, and the excess over the limit is paid for as well. */
  lemma {:induction false} TrimsArePaid<T>(device: T -> DeviceID, limit: nat, ops: seq<Op<T>>)
    ensures Trims(device, limit, ops) * (SLACK + 1) <= Puts(ops)
    ensures Trims(device, limit, ops) * (SLACK + 1) + |After(device, limit, ops)| - limit <= Puts(ops)
  {
    if ops != [] {
      var n := |ops| - 1;
      TrimsArePaid(device, limit, ops[..n]);
      var items := After(device, limit, ops[..n]);
      assert ops[n].Drop? ==> |Matching(items, Except(device, ops[n].device))| <= |items|;
    }
  }

  lemma TrimCopiesLimit<T>(device: T -> DeviceID, limit: nat, ops: seq<Op<T>>)
    requires ops != []
    ensures TrimsNow(device, limit, ops) ==> |After(device, limit, ops)| == limit
  {
  }

  /** The entries copied by so many trims. */
  function CopiedBy(trims: nat, limit: nat): nat {
    if trims == 0 then 0 else CopiedBy(trims - 1, limit) + limit
  }

  lemma {:induction false} TrimsCopyLimit<T>(device: T -> DeviceID, limit: nat, ops: seq<Op<T>>)
    ensures Copied(device, limit, ops) == CopiedBy(Trims(device, limit, ops), limit)
  {
    if ops != [] {
      TrimsCopyLimit(device, limit, ops[..|ops| - 1]);
      if TrimsNow(device, limit, ops) {
        TrimCopiesLimit(device, limit, ops);
      }
    }
  }

  lemma {:induction false} ScaledBound(limit: nat, trims: nat, n: int)
    requires trims * (SLACK + 1) <= n
    ensures CopiedBy(trims, limit) * (SLACK + 1) <= limit * n
  {
    if trims > 0 {
      ScaledBound(limit, trims - 1, n - (SLACK + 1));
      assert limit * n == limit * (n - (SLACK + 1)) + limit * (SLACK + 1);
    }
  }

  /** Trimming costs a constant per append, whatever deletions happen in between. */
  lemma TrimmingIsAmortised<T>(device: T -> DeviceID, limit: nat, ops: seq<Op<T>>)
    ensures Copied(device, limit, ops) * (SLACK + 1) <= limit * Puts(ops)
  {
    TrimsArePaid(device, limit, ops);
    TrimsCopyLimit(device, limit, ops);
    ScaledBound(limit, Trims(device, limit, ops), Puts(ops));
  }
}
