/** Which connection commands to a device reach, over all interleavings: the last one registered for it,
    until that one's own handler takes it off. */
module ServerEntries {
  import opened Options
  import opened Servers
  import opened ServerRuns

  /** Step i of the run put the connection on record for the device. */
  ghost predicate Registers(run: seq<Step>, limit: int, i: nat, c: Conn, d: DeviceID)
    requires i < |run|
  {
    && run[i] == Register(c) && IsRun(START, run[..i], limit)
    && c in After(START, run[..i], limit).handlers && After(START, run[..i], limit).handlers[c].device == d
  }

  lemma RegistersOfPrefix(run: seq<Step>, limit: int, i: nat, c: Conn, d: DeviceID)
    requires i < |run| - 1
    ensures Registers(run[..|run| - 1], limit, i, c, d) == Registers(run, limit, i, c, d)
  {
    assert run[..|run| - 1][..i] == run[..i];
  }

  /** An entry is left alone by every step but its own handler's departure and the registration of
      another handler of the device. */
  lemma EntryStays(w: World, step: Step, limit: int, d: DeviceID, e: Conn)
    requires Enabled(w, step) && Lookup(w.tables.conns, d) == Some(e)
    requires step != Unregister(e) && (step.Register? ==> w.handlers[step.conn].device != d)
    ensures Lookup(Apply(w, step, limit).tables.conns, d) == Some(e)
  {
  }

  /** Nor does one appear in any other way. */
  lemma EntryComes(w: World, step: Step, limit: int, d: DeviceID, e: Conn)
    requires Enabled(w, step) && ConnsOk(w) && Lookup(Apply(w, step, limit).tables.conns, d) == Some(e)
    ensures if step.Register? && w.handlers[step.conn].device == d then step.conn == e
            else Lookup(w.tables.conns, d) == Some(e) && step != Unregister(e)
  {
    assert d in w.tables.conns ==> Serves(w, d, w.tables.conns[d]);
  }

  /** Nothing has taken the connection off again, or put another in its place. */
  ghost predicate OnRecordSince(run: seq<Step>, limit: int, i: nat, c: Conn, d: DeviceID)
    requires i < |run|
  {
    && Registers(run, limit, i, c, d)
    && forall j | i < j < |run| :: run[j] != Unregister(c) && forall e :: !Registers(run, limit, j, e, d)
  }

  lemma SinceOfPrefix(run: seq<Step>, limit: int, i: nat, c: Conn, d: DeviceID)
    requires i < |run| - 1
    ensures var n := |run| - 1;
            OnRecordSince(run, limit, i, c, d)
            == (OnRecordSince(run[..n], limit, i, c, d)
                && run[n] != Unregister(c) && forall e :: !Registers(run, limit, n, e, d))
  {
    var n := |run| - 1;
    RegistersOfPrefix(run, limit, i, c, d);
    forall j, e | i < j < n
      ensures Registers(run[..n], limit, j, e, d) == Registers(run, limit, j, e, d)
    {
      RegistersOfPrefix(run, limit, j, e, d);
    }
    assert forall j | i < j < n :: run[..n][j] == run[j];
  }

  ghost predicate OnRecord(run: seq<Step>, limit: int, c: Conn, d: DeviceID) {
    exists i | 0 <= i < |run| :: OnRecordSince(run, limit, i, c, d)
  }

  lemma RecordStep(run: seq<Step>, limit: int, w: World, c: Conn, d: DeviceID)
    requires run != [] && IsRun(START, run[..|run| - 1], limit) && w == After(START, run[..|run| - 1], limit)
    requires Enabled(w, run[|run| - 1]) && ConnsOk(w)
    requires Lookup(w.tables.conns, d) == Some(c) <==> OnRecord(run[..|run| - 1], limit, c, d)
    ensures Lookup(Apply(w, run[|run| - 1], limit).tables.conns, d) == Some(c) <==> OnRecord(run, limit, c, d)
  {
    var n := |run| - 1;
    var v := Apply(w, run[n], limit);
    if Lookup(v.tables.conns, d) == Some(c) {
      EntryComes(w, run[n], limit, d, c);
      if run[n].Register? && w.handlers[run[n].conn].device == d {
        assert OnRecordSince(run, limit, n, c, d);
      } else {
        var i :| 0 <= i < n && OnRecordSince(run[..n], limit, i, c, d);
        SinceOfPrefix(run, limit, i, c, d);
      }
    }
    if i :| 0 <= i < |run| && OnRecordSince(run, limit, i, c, d) {
      if i < n {
        SinceOfPrefix(run, limit, i, c, d);
        assert run[n].Register? ==> !Registers(run, limit, n, run[n].conn, d);
        EntryStays(w, run[n], limit, d, c);
      }
    }
  }

  /** Main result: commands to a device reach the connection that was last registered for it, exactly
      as long as that one's own handler has not taken it off. */
  lemma {:induction false} EntriesExactly(run: seq<Step>, limit: int, c: Conn, d: DeviceID)
    requires IsRun(START, run, limit)
    ensures Lookup(After(START, run, limit).tables.conns, d) == Some(c) <==> OnRecord(run, limit, c, d)
  {
    if run != [] {
      var n := |run| - 1;
      LastStep(run, limit);
      EntriesExactly(run[..n], limit, c, d);
      RunKeepsInv(START, run[..n], limit);
      RecordStep(run, limit, After(START, run[..n], limit), c, d);
    }
  }

  predicate Serving(w: World, c: Conn) {
    c in w.handlers
    && (w.handlers[c].phase.Serving? || w.handlers[c].phase.Ended? || w.handlers[c].phase.Closed?)
  }

  /** The handler has registered and has not left since. */
  ghost predicate ServesSince(run: seq<Step>, limit: int, i: nat, c: Conn, d: DeviceID)
    requires i < |run|
  {
    Registers(run, limit, i, c, d) && forall j | i < j < |run| :: run[j] != Unregister(c)
  }

  lemma {:induction false} ServingSince(run: seq<Step>, limit: int, c: Conn)
    requires IsRun(START, run, limit) && Serving(After(START, run, limit), c)
    ensures exists i | 0 <= i < |run| ::
              ServesSince(run, limit, i, c, After(START, run, limit).handlers[c].device)
  {
    var n := |run| - 1;
    LastStep(run, limit);
    var w := After(START, run[..n], limit);
    var d := After(START, run, limit).handlers[c].device;
    if run[n] == Register(c) {
      assert ServesSince(run, limit, n, c, d);
    } else {
      ServingSince(run[..n], limit, c);
      var i :| 0 <= i < n && ServesSince(run[..n], limit, i, c, w.handlers[c].device);
      RegistersOfPrefix(run, limit, i, c, d);
      assert forall j | i < j < n :: run[..n][j] == run[j];
      assert ServesSince(run, limit, i, c, d);
    }
  }

  /** Main result: a handler that serves is the one commands reach, unless a later one of its device has
      registered; the departure of an older handler does not take it off. */
  lemma ServingIsOnRecord(run: seq<Step>, limit: int, c: Conn)
    requires IsRun(START, run, limit) && Serving(After(START, run, limit), c)
    ensures var w := After(START, run, limit);
            var d := w.handlers[c].device;
            exists i | 0 <= i < |run| ::
              && ServesSince(run, limit, i, c, d)
              && (Lookup(w.tables.conns, d) == Some(c)
                  <==> forall j, e | i < j < |run| :: !Registers(run, limit, j, e, d))
  {
    var w := After(START, run, limit);
    var d := w.handlers[c].device;
    EntriesExactly(run, limit, c, d);
    if Lookup(w.tables.conns, d) == Some(c) {
      var i :| 0 <= i < |run| && OnRecordSince(run, limit, i, c, d);
      assert ServesSince(run, limit, i, c, d);
    } else {
      ServingSince(run, limit, c);
      var i :| 0 <= i < |run| && ServesSince(run, limit, i, c, d);
      assert !OnRecordSince(run, limit, i, c, d);
    }
  }
}
