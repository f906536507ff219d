/** The TCP server of the gateway: one accept loop, one handler per connection, and a shutdown,
    all interleaved at their lock sections. */
module Servers {
  import opened Bytes
  import opened Options

  type DeviceID = Bytes

  /** Connections, like the session objects below, are told apart by number. */
  type Conn = nat

  datatype Admission = Refused | OverLimit | Admitted

  /** What the server keeps under its lock. */
  datatype Tables = Tables(conns: map<DeviceID, Conn>, accepted: set<Conn>, active: int, closing: bool) {
    function Admit(c: Conn, limit: int): (Tables, Admission) {
      if closing then (this, Refused)
      else if active >= limit then (this, OverLimit)
      else (this.(active := active + 1, accepted := accepted + {c}), Admitted)
    }

    function Release(c: Conn): Tables {
      this.(active := active - 1, accepted := accepted - {c})
    }

    function Register(d: DeviceID, c: Conn): Tables {
      this.(conns := conns[d := c])
    }

    /** Removes the entry only if it is still this connection's. */
    function Unregister(d: DeviceID, c: Conn): Tables {
      if d in conns && conns[d] == c then this.(conns := conns - {d}) else this
    }
  }

  class Server {
    var conns: map<DeviceID, Conn>
    var accepted: set<Conn>
    var active: int
    var closing: bool

    function State(): Tables
      reads this
    {
      Tables(conns, accepted, active, closing)
    }

    constructor ()
      ensures State() == Tables(map[], {}, 0, false)
    {
      conns, accepted, active, closing := map[], {}, 0, false;
    }

    /** The decision of the accept loop on a new connection. */
    method Admit(c: Conn, limit: int) returns (r: Admission)
      modifies this
      ensures (State(), r) == old(State()).Admit(c, limit)
    {
      if closing {
        return Refused;
      }
      var over := active >= limit;
      if !over {
        active := active + 1;
        accepted := accepted + {c};
        return Admitted;
      }
      return OverLimit;
    }

    method Release(c: Conn)
      modifies this
      ensures State() == old(State()).Release(c)
    {
      active := active - 1;
      accepted := accepted - {c};
    }

    /** A reconnecting device replaces its entry; the connection it had is returned to be closed. */
    method RegisterConn(d: DeviceID, c: Conn) returns (replaced: Option<Conn>)
      modifies this
      ensures State() == old(State()).Register(d, c)
      ensures replaced == if d in old(conns) then Some(old(conns)[d]) else None
    {
      replaced := None;
      if d in conns {
        replaced := Some(conns[d]);
      }
      conns := conns[d := c];
    }

    method UnregisterConn(d: DeviceID, c: Conn)
      modifies this
      ensures State() == old(State()).Unregister(d, c)
    {
      if d in conns {
        if conns[d] == c {
          conns := conns - {d};
        }
      }
    }

    /** Refuses connections from now on; all the accepted ones are to be closed. */
    method BeginShutdown() returns (toClose: set<Conn>)
      modifies this
      ensures State() == old(State()).(closing := true) && toClose == accepted
    {
      closing := true;
      toClose := accepted;
    }
  }

  /** Where a handler stands. From Established on, session is the one its handshake created; from
      Captured on, own is the one it will close. */
  datatype Phase =
    | Handshaking
    | Established(session: nat)
    | Captured(session: nat, own: Option<nat>)
    | Serving(session: nat, own: Option<nat>)
    | Ended(session: nat, own: Option<nat>)
    | Closed
    | Returned
    | Released

  datatype Handler = Handler(device: DeviceID, phase: Phase)

  datatype Loop = NotStarted | Accepting | Spawning(conn: Conn) | Draining | Exited(clean: bool)

  datatype World = World(
    tables: Tables,
    loop: Loop,
    handlers: map<Conn, Handler>,
    running: int,
    sessions: map<DeviceID, nat>,
    nextConn: nat,
    nextSession: nat,
    shutdown: Option<bool>)

  const START := World(Tables(map[], {}, 0, false), NotStarted, map[], 0, map[], 0, 0, None)

  datatype Step =
    | Serve
    | Accept
    | Spawn
    | AcceptFails(listenerClosed: bool)
    | Drained
    | Fail(conn: Conn)
    | FinishHandshake(conn: Conn, device: DeviceID)
    | Capture(conn: Conn)
    | Register(conn: Conn)
    | End(conn: Conn)
    | CloseOwn(conn: Conn)
    | Unregister(conn: Conn)
    | Release(conn: Conn)
    | Done(conn: Conn)
    | CloseSession(device: DeviceID)
    | BeginShutdown

  /** The handler whose step this is. */
  function Actor(step: Step): Option<Conn> {
    match step
    case Fail(c) => Some(c)
    case FinishHandshake(c, _) => Some(c)
    case Capture(c) => Some(c)
    case Register(c) => Some(c)
    case End(c) => Some(c)
    case CloseOwn(c) => Some(c)
    case Unregister(c) => Some(c)
    case Release(c) => Some(c)
    case Done(c) => Some(c)
    case _ => None
  }

  predicate At(step: Step, phase: Phase) {
    match step
    case Fail(_) => phase.Handshaking?
    case FinishHandshake(_, _) => phase.Handshaking?
    case Capture(_) => phase.Established?
    case Register(_) => phase.Captured?
    case End(_) => phase.Serving?
    case CloseOwn(_) => phase.Ended?
    case Unregister(_) => phase.Closed?
    case Release(_) => phase.Returned?
    case Done(_) => phase.Released?
    case _ => true
  }

  predicate Enabled(w: World, step: Step) {
    && (Actor(step).Some? ==> Actor(step).value in w.handlers && At(step, w.handlers[Actor(step).value].phase))
    && match step
       case Serve => w.loop.NotStarted?
       case Accept => w.loop.Accepting?
       case Spawn => w.loop.Spawning?
       case AcceptFails(_) => w.loop.Accepting?
       case Drained => w.loop.Draining? && w.running == 0
       case _ => true
  }

  function Lookup(sessions: map<DeviceID, nat>, d: DeviceID): Option<nat> {
    if d in sessions then Some(sessions[d]) else None
  }

  function Move(w: World, c: Conn, phase: Phase): (v: World)
    requires c in w.handlers
    ensures v.handlers.Keys == w.handlers.Keys
  {
    w.(handlers := w.handlers[c := w.handlers[c].(phase := phase)])
  }

  function Apply(w: World, step: Step, limit: int): World
    requires Enabled(w, step)
  {
    match step
    case Serve => w.(loop := Accepting)
    case Accept =>
      var (t, admission) := w.tables.Admit(w.nextConn, limit);
      w.(tables := t, nextConn := w.nextConn + 1,
         loop := if admission == Admitted then Spawning(w.nextConn) else Accepting)
    case Spawn =>
      w.(handlers := w.handlers[w.loop.conn := Handler([], Handshaking)], running := w.running + 1, loop := Accepting)
    case AcceptFails(listenerClosed) => w.(loop := if listenerClosed then Draining else Exited(false))
    case Drained => w.(loop := Exited(true))
    case Fail(c) => Move(w, c, Returned)
    case FinishHandshake(c, d) =>
      w.(handlers := w.handlers[c := Handler(d, Established(w.nextSession))],
         sessions := w.sessions[d := w.nextSession], nextSession := w.nextSession + 1)
    case Capture(c) =>
      Move(w, c, Captured(w.handlers[c].phase.session, Lookup(w.sessions, w.handlers[c].device)))
    case Register(c) =>
      var h := w.handlers[c];
      Move(w, c, Serving(h.phase.session, h.phase.own)).(tables := w.tables.Register(h.device, c))
    case End(c) => Move(w, c, Ended(w.handlers[c].phase.session, w.handlers[c].phase.own))
    case CloseOwn(c) =>
      var h := w.handlers[c];
      var mine := h.phase.own.Some? && Lookup(w.sessions, h.device) == h.phase.own;
      var left := if mine then w.sessions - {h.device} else w.sessions;
      Move(w, c, Closed).(sessions := left)
    case Unregister(c) => Move(w, c, Returned).(tables := w.tables.Unregister(w.handlers[c].device, c))
    case Release(c) => Move(w, c, Released).(tables := w.tables.Release(c))
    case Done(c) => w.(handlers := w.handlers - {c}, running := w.running - 1)
    case CloseSession(d) => w.(sessions := w.sessions - {d})
    case BeginShutdown => w.(tables := w.tables.(closing := true), shutdown := Some(!w.loop.NotStarted?))
  }

  ghost predicate IsRun(w: World, run: seq<Step>, limit: int)
    decreases |run|
  {
    run == [] || (Enabled(w, run[0]) && IsRun(Apply(w, run[0], limit), run[1..], limit))
  }

  ghost function After(w: World, run: seq<Step>, limit: int): World
    requires IsRun(w, run, limit)
    decreases |run|
  {
    if run == [] then w else After(Apply(w, run[0], limit), run[1..], limit)
  }

  /** Shutdown returns without an error: the accept loop has finished, or had not begun. */
  predicate ShutdownSucceeds(w: World) {
    w.shutdown.Some? && (w.shutdown.value ==> w.loop.Exited?)
  }
}
