/**
 * The session bookkeeping of pkg/browser/browser.go: the message-id
 * counter, the lazy reconnect, the write-then-read correlation loop, the
 * choice of the page target, the launch arguments and the teardown.
 *
 * Every operating-system, HTTP and websocket call is an oracle: the
 * outcomes of successive `GET /json` requests and websocket dials are
 * scripted sequences, a connection is a value holding the frames still to
 * arrive and the frames written to it, and the process, directory removal
 * and context are described by what their calls report.
 */
module Session {
  import opened Basics
  import opened Json

  /** What one `ReadMessage` yields: a text frame, decoded or not into a JSON object, or a read error. */
  datatype Inbound = Text(decoded: Option<map<string, Value>>) | Broken(reason: string)

  /** The outgoing message `{"id": id, "method": name, "params": params}`. */
  datatype Frame = Frame(id: int, name: string, params: Value)

  /**
   * A websocket connection: the frames still to arrive, the frames written
   * so far, the error every write reports once the socket has failed, the
   * error `Close` reports, and whether it was closed.
   */
  datatype Conn = Conn(url: string, inbox: seq<Inbound>, written: seq<Frame>,
                       writeFault: Option<string>, closeFault: Option<string>, closed: bool)

  /** What one `GET http://localhost:<port>/json` came to: a transport error, a body that is not a list of objects, or the targets. */
  datatype Listing = Unreachable(reason: string) | Garbled(reason: string) | Targets(pages: seq<map<string, Value>>)

  /** What one websocket dial came to. */
  datatype Dialled = Rejected(reason: string) | Opened(inbox: seq<Inbound>, writeFault: Option<string>, closeFault: Option<string>)

  /**
   * The browser process: its pid, how it had exited before the teardown
   * (`None` while it still runs; `Some(None)` for a clean exit,
   * `Some(Some(status))` otherwise), the error a kill reports, and whether
   * it was killed and reaped.
   */
  datatype Proc = Proc(pid: int, exited: Option<Option<string>>, killFault: Option<string>, killed: bool, reaped: bool)

  /** `exec.Cmd`: the program, its arguments, and the process once started. */
  datatype Command = Command(path: string, args: seq<string>, process: Option<Proc>)

  /** The connection state `attachToPage` works on, with the oracles it consumes. */
  datatype Link = Link(conn: Option<Conn>, endpoint: string, listings: seq<Listing>, dials: seq<Dialled>)

  datatype Attachment = Attachment(err: Option<string>, link: Link)

  const Refused := "connection refused"
  const ClosedConn := "use of closed network connection"
  const EndOfStream := "unexpected EOF"
  const NoSuitablePage := "no suitable page found"
  const ReconnectFailed := "failed to reconnect ws: "
  const SendFailed := "failed to send ws message: "
  const ReadFailed := "failed to read ws message: "
  const NotConnected := "ws connection not established, cannot create a new page"
  const Finished := "os: process already finished"
  const Killed := "signal: killed"

  /** The argument list of `launch`: five entries in a fixed order, and `--headless=new` exactly when headless. */
  function LaunchArgs(debugPort: string, userDataDir: string, startURL: string, isHeadless: bool): (args: seq<string>)
    ensures |args| == 6 <==> isHeadless
    ensures |args| == 5 || |args| == 6
    ensures args[..5] == ["--remote-debugging-port=" + debugPort, "--no-first-run",
                          "--user-data-dir=" + userDataDir, "--remote-allow-origins=*", startURL]
    ensures isHeadless ==> args[5] == "--headless=new"
  {
    var fixed := ["--remote-debugging-port=" + debugPort, "--no-first-run",
                  "--user-data-dir=" + userDataDir, "--remote-allow-origins=*", startURL];
    if isHeadless then fixed + ["--headless=new"] else fixed
  }

  /**
   * A target `attachToPage` accepts: `type` is the string "page", `url` is
   * not the empty string (a missing `url` passes, as nil is not ""), and
   * `webSocketDebuggerUrl` is a string.
   */
  predicate Suitable(page: map<string, Value>)
  {
    Lookup(page, "type") == Str("page") && Lookup(page, "url") != Str("") && Lookup(page, "webSocketDebuggerUrl").Str?
  }

  /** The index of the first suitable target; `|pages|` when there is none. */
  function FirstSuitable(pages: seq<map<string, Value>>): (k: nat)
    ensures k <= |pages|
    ensures k < |pages| ==> Suitable(pages[k])
    ensures forall j | 0 <= j < k :: !Suitable(pages[j])
  {
    if pages == [] then 0
    else if Suitable(pages[0]) then 0
    else 1 + FirstSuitable(pages[1..])
  }

  /** `Close` on a connection: the error it reports; the connection is closed afterwards either way. */
  function CloseError(c: Conn): Option<string>
  {
    if c.closed then Some(ClosedConn) else c.closeFault
  }

  /**
   * What `attachToPage` does to the connection state: one listing is
   * consumed; on a suitable target the old connection is closed, whatever
   * that reports, and one dial is consumed.
   */
  function Attach(l: Link): (a: Attachment)
    ensures |a.link.listings| == if l.listings == [] then 0 else |l.listings| - 1
    ensures a.err.None? ==>
      && a.link.conn.Some? && a.link.conn.value.url == a.link.endpoint
      && !a.link.conn.value.closed && a.link.conn.value.written == []
      && l.listings != [] && l.listings[0].Targets?
      && FirstSuitable(l.listings[0].pages) < |l.listings[0].pages|
      && a.link.endpoint == Lookup(l.listings[0].pages[FirstSuitable(l.listings[0].pages)], "webSocketDebuggerUrl").s
    ensures a.err == Some(NoSuitablePage) ==> a.link.conn == l.conn && a.link.endpoint == l.endpoint && a.link.dials == l.dials
    ensures l.listings != [] && l.listings[0].Targets? && FirstSuitable(l.listings[0].pages) == |l.listings[0].pages| ==>
      a.err == Some(NoSuitablePage) && a.link == l.(listings := l.listings[1..])
    ensures l.listings != [] && l.listings[0].Targets? && FirstSuitable(l.listings[0].pages) < |l.listings[0].pages|
            && l.dials != [] && l.dials[0].Opened? ==>
      var url := Lookup(l.listings[0].pages[FirstSuitable(l.listings[0].pages)], "webSocketDebuggerUrl").s;
      && a.err.None?
      && a.link.conn == Some(Conn(url, l.dials[0].inbox, [], l.dials[0].writeFault, l.dials[0].closeFault, false))
      && a.link.dials == l.dials[1..]
    ensures a.err.Some? ==> a.link.endpoint == l.endpoint && (a.link.conn.Some? <==> l.conn.Some?)
  {
    var listing := if l.listings == [] then Unreachable(Refused) else l.listings[0];
    var rest := l.(listings := if l.listings == [] then [] else l.listings[1..]);
    match listing
    case Unreachable(r) => Attachment(Some("failed to fetch active pages: " + r), rest)
    case Garbled(r) => Attachment(Some("failed to decode JSON: " + r), rest)
    case Targets(pages) =>
      var k := FirstSuitable(pages);
      if k == |pages| then Attachment(Some(NoSuitablePage), rest)
      else
        var url := Lookup(pages[k], "webSocketDebuggerUrl").s;
        var prior := if l.conn.Some? then Some(l.conn.value.(closed := true)) else None;
        var dial := if l.dials == [] then Rejected(Refused) else l.dials[0];
        var dials := if l.dials == [] then [] else l.dials[1..];
        match dial
        case Rejected(r) => Attachment(Some("failed to connect to page WebSocket: " + r), rest.(conn := prior, dials := dials))
        case Opened(inbox, wf, cf) => Attachment(None, rest.(conn := Some(Conn(url, inbox, [], wf, cf, false)), endpoint := url, dials := dials))
  }

  /** The connection a send writes on: the current one, or a new attachment when there is none. */
  function Reconnect(l: Link): (a: Attachment)
    ensures a.err.None? ==> a.link.conn.Some?
    ensures l.conn.Some? ==> a == Attachment(None, l)
  {
    if l.conn.Some? then Attachment(None, l) else Attach(l)
  }

  /** `WriteJSON`: fails on a closed or failed socket, and otherwise appends the frame. */
  function Write(c: Conn, f: Frame): (r: Result<Conn, string>)
    ensures r.Ok? <==> !c.closed && c.writeFault.None?
    ensures r.Ok? ==> r.value == c.(written := c.written + [f])
  {
    if c.closed then Err(ClosedConn)
    else if c.writeFault.Some? then Err(c.writeFault.value)
    else Ok(c.(written := c.written + [f]))
  }

  /** `response["id"].(float64)` succeeds and `int` of it is `id`. */
  predicate Matches(response: map<string, Value>, id: int)
  {
    Lookup(response, "id").Num? && Trunc(Lookup(response, "id").x) == id
  }

  /** The frames the read loop stops at: a read error, or a decoded object carrying the id. */
  predicate Stops(m: Inbound, id: int)
  {
    m.Broken? || (m.decoded.Some? && Matches(m.decoded.value, id))
  }

  /** Where the read loop for `id` stops: the first stopping frame, or `|inbox|` when it runs out. */
  function Stop(inbox: seq<Inbound>, id: int): (k: nat)
    ensures k <= |inbox|
    ensures k < |inbox| ==> Stops(inbox[k], id)
    ensures forall j | 0 <= j < k :: !Stops(inbox[j], id)
  {
    if inbox == [] then 0
    else if Stops(inbox[0], id) then 0
    else 1 + Stop(inbox[1..], id)
  }

  /**
   * The frames left on the connection once the read loop stopped at `k`:
   * a read error is permanent, so it stays at the head and every later read
   * reports it again.
   */
  function After(inbox: seq<Inbound>, k: nat): seq<Inbound>
    requires k <= |inbox|
  {
    if k == |inbox| then []
    else if inbox[k].Broken? then inbox[k..]
    else inbox[k + 1..]
  }

  /** What the read loop returns when it stops at `k`. */
  function Heard(inbox: seq<Inbound>, id: int, k: nat): (r: Result<map<string, Value>, string>)
    requires k <= |inbox| && (k < |inbox| ==> Stops(inbox[k], id))
    ensures r.Ok? ==> k < |inbox| && inbox[k] == Text(Some(r.value)) && Matches(r.value, id)
    ensures k < |inbox| && inbox[k].Text? ==> r == Ok(inbox[k].decoded.value)
    ensures k < |inbox| && inbox[k].Broken? ==> r == Err(ReadFailed + inbox[k].reason)
    ensures k == |inbox| ==> r == Err(ReadFailed + EndOfStream)
  {
    if k == |inbox| then Err(ReadFailed + EndOfStream)
    else if inbox[k].Broken? then Err(ReadFailed + inbox[k].reason)
    else Ok(inbox[k].decoded.value)
  }

  /** A read error is permanent: the next read loop on the same connection, for any id, stops at once with the same error. */
  lemma ReadErrorPersists(inbox: seq<Inbound>, id: int, next: int)
    requires Stop(inbox, id) < |inbox| && inbox[Stop(inbox, id)].Broken?
    ensures var rest := After(inbox, Stop(inbox, id));
      && Stop(rest, next) == 0 < |rest|
      && Heard(rest, next, 0) == Heard(inbox, id, Stop(inbox, id))
      && After(rest, 0) == rest
  {
  }

  /** The teardown steps of `RedLight`, in the order it takes them. */
  datatype Step = CloseWs | KillProcess | WaitProcess | RemoveDir | Cancel

  function Rank(s: Step): nat
  {
    match s
    case CloseWs => 0
    case KillProcess => 1
    case WaitProcess => 2
    case RemoveDir => 3
    case Cancel => 4
  }

  /** What the teardown works on. */
  datatype Scene = Scene(conn: Option<Conn>, cmd: Option<Command>, userDataDir: string, removeFault: Option<string>)

  predicate Started(s: Scene)
  {
    s.cmd.Some? && s.cmd.value.process.Some?
  }

  /** Steps in strictly increasing rank. */
  predicate Ordered(steps: seq<Step>)
  {
    forall i, j | 0 <= i < j < |steps| :: Rank(steps[i]) < Rank(steps[j])
  }

  function CloseSteps(s: Scene): seq<Step>
  {
    if s.conn.Some? then [CloseWs] else []
  }

  function ProcessSteps(s: Scene): seq<Step>
  {
    if Started(s) then [KillProcess, WaitProcess] else []
  }

  function DirSteps(s: Scene): seq<Step>
  {
    if s.userDataDir != "" then [RemoveDir] else []
  }

  /** The steps that apply: those whose resource is absent (no connection, no process, no directory) are skipped. */
  function Plan(s: Scene): (plan: seq<Step>)
    ensures plan != [] && plan[|plan| - 1] == Cancel
  {
    CloseSteps(s) + (ProcessSteps(s) + (DirSteps(s) + [Cancel]))
  }

  /** The plan lists the steps in the fixed order, each present exactly when its resource is. */
  lemma PlanShape(s: Scene)
    ensures Ordered(Plan(s))
    ensures CloseWs in Plan(s) <==> s.conn.Some?
    ensures KillProcess in Plan(s) <==> Started(s)
    ensures WaitProcess in Plan(s) <==> Started(s)
    ensures RemoveDir in Plan(s) <==> s.userDataDir != ""
  {
    PlanOrdered(s);
    var c, p, d := CloseSteps(s), ProcessSteps(s), DirSteps(s);
    assert Plan(s) == c + (p + (d + [Cancel]));
    assert forall x :: x in Plan(s) <==> x in c || x in p || x in d || x == Cancel;
  }

  lemma PlanOrdered(s: Scene)
    ensures Ordered(Plan(s))
  {
    var c, p, d := CloseSteps(s), ProcessSteps(s), DirSteps(s);
    OrderedAppend(d, [Cancel], 4);
    OrderedAppend(p, d + [Cancel], 3);
    OrderedAppend(c, p + (d + [Cancel]), 1);
  }

  /** Two ordered runs, the first entirely below rank `r` and the second entirely from it, make an ordered run. */
  lemma OrderedAppend(a: seq<Step>, b: seq<Step>, r: nat)
    requires Ordered(a) && Ordered(b)
    requires forall i | 0 <= i < |a| :: Rank(a[i]) < r
    requires forall j | 0 <= j < |b| :: r <= Rank(b[j])
    ensures Ordered(a + b)
  {
    forall i, j | 0 <= i < j < |a + b|
      ensures Rank((a + b)[i]) < Rank((a + b)[j])
    {
      if j < |a| {
        assert (a + b)[i] == a[i] && (a + b)[j] == a[j];
      } else if i < |a| {
        assert (a + b)[i] == a[i] && (a + b)[j] == b[j - |a|];
      } else {
        assert (a + b)[i] == b[i - |a|] && (a + b)[j] == b[j - |a|];
      }
    }
  }

  /** The error the closing step reports; none without a connection. */
  function CloseFault(s: Scene): Option<string>
  {
    if s.conn.Some? && CloseError(s.conn.value).Some? then Some("error closing ws: " + CloseError(s.conn.value).value) else None
  }

  /** The error the kill reports: a reaped process is already finished; none without a process. */
  function KillFault(s: Scene): Option<string>
  {
    if !Started(s) then None
    else if s.cmd.value.process.value.reaped then Some("error killing browser process: " + Finished)
    else if s.cmd.value.process.value.killFault.Some? then Some("error killing browser process: " + s.cmd.value.process.value.killFault.value)
    else None
  }

  /**
   * What `Wait` reports: how the process ended, which after the kill of a
   * running process is "signal: killed"; `intended` counts that exit, the
   * one the kill itself caused, as success.
   */
  function WaitFault(s: Scene, intended: bool): Option<string>
  {
    if !Started(s) then None
    else match s.cmd.value.process.value.exited
      case None => if intended then None else Some(Killed)
      case Some(status) => status
  }

  /** The error the removal reports; none without a directory. */
  function RemoveFault(s: Scene): Option<string>
  {
    if s.userDataDir != "" && s.removeFault.Some? then Some("error removing user data directory: " + s.removeFault.value) else None
  }

  function Fault(step: Step, s: Scene, intended: bool): Option<string>
  {
    match step
    case CloseWs => CloseFault(s)
    case KillProcess => KillFault(s)
    case WaitProcess => WaitFault(s, intended)
    case RemoveDir => RemoveFault(s)
    case Cancel => None
  }

  /** The steps taken and the error returned. */
  datatype Teardown = Teardown(steps: seq<Step>, err: Option<string>)

  /** `t` preceded by steps that succeeded. */
  function Then(done: seq<Step>, t: Teardown): Teardown
  {
    Teardown(done + t.steps, t.err)
  }

  /** Takes the planned steps in order and returns at the first one that fails. */
  function Perform(plan: seq<Step>, s: Scene, intended: bool): (t: Teardown)
    ensures |t.steps| <= |plan|
    ensures t.err.Some? ==> t.steps != []
    decreases |plan|
  {
    if plan == [] then Teardown([], None)
    else if Fault(plan[0], s, intended).Some? then Teardown([plan[0]], Fault(plan[0], s, intended))
    else Then([plan[0]], Perform(plan[1..], s, intended))
  }

  /**
   * The steps taken are a prefix of the plan, all of it when nothing
   * failed; every step before the last succeeded, and the error returned
   * is the last step's.
   */
  lemma PerformMeaning(plan: seq<Step>, s: Scene, intended: bool)
    ensures var t := Perform(plan, s, intended);
      && t.steps == plan[..|t.steps|]
      && (t.err.None? ==> t.steps == plan)
      && (t.err.Some? ==> t.err == Fault(t.steps[|t.steps| - 1], s, intended))
      && forall i | 0 <= i < |t.steps| - (if t.err.Some? then 1 else 0) :: Fault(t.steps[i], s, intended).None?
  {
    PerformTakesPrefix(plan, s, intended);
    PerformStopsAtFault(plan, s, intended);
  }

  lemma {:induction false} PerformTakesPrefix(plan: seq<Step>, s: Scene, intended: bool)
    ensures var t := Perform(plan, s, intended);
      && t.steps == plan[..|t.steps|]
      && (t.err.None? ==> t.steps == plan)
    decreases |plan|
  {
    if plan != [] && Fault(plan[0], s, intended).None? {
      PerformTakesPrefix(plan[1..], s, intended);
      var rest := Perform(plan[1..], s, intended);
      assert [plan[0]] + plan[1..][..|rest.steps|] == plan[..1 + |rest.steps|];
      assert [plan[0]] + plan[1..] == plan;
    }
  }

  lemma {:induction false} PerformStopsAtFault(plan: seq<Step>, s: Scene, intended: bool)
    ensures var t := Perform(plan, s, intended);
      && (t.err.Some? ==> t.err == Fault(t.steps[|t.steps| - 1], s, intended))
      && forall i | 0 <= i < |t.steps| - (if t.err.Some? then 1 else 0) :: Fault(t.steps[i], s, intended).None?
    decreases |plan|
  {
    if plan != [] && Fault(plan[0], s, intended).None? {
      PerformStopsAtFault(plan[1..], s, intended);
      var rest := Perform(plan[1..], s, intended);
      var t := Perform(plan, s, intended);
      assert t.steps == [plan[0]] + rest.steps;
      forall i | 1 <= i < |t.steps|
        ensures t.steps[i] == rest.steps[i - 1]
      {
      }
    }
  }

  /** Taking `a + b` is taking `a`, then, unless that failed, `b`. */
  lemma {:induction false} PerformAppend(a: seq<Step>, b: seq<Step>, s: Scene, intended: bool)
    ensures Perform(a + b, s, intended) ==
      var t := Perform(a, s, intended);
      if t.err.Some? then t else Then(a, Perform(b, s, intended))
    decreases |a|
  {
    if a == [] {
      assert a + b == b;
    } else {
      assert (a + b)[0] == a[0];
      assert (a + b)[1..] == a[1..] + b;
      if Fault(a[0], s, intended).None? {
        PerformAppend(a[1..], b, s, intended);
        AppendAssoc([a[0]], a[1..], Perform(b, s, intended).steps);
        assert [a[0]] + a[1..] == a;
      }
    }
  }

  /** In an ordered plan ending in `Cancel`, `Cancel` occurs only at its end. */
  lemma CancelOnlyLast(plan: seq<Step>, i: nat)
    requires plan != [] && plan[|plan| - 1] == Cancel && Ordered(plan)
    requires i < |plan| && plan[i] == Cancel
    ensures i == |plan| - 1
  {
  }

  /** Any prefix of an ordered plan is ordered. */
  lemma OrderedPrefix(plan: seq<Step>, k: nat)
    requires k <= |plan| && Ordered(plan)
    ensures Ordered(plan[..k])
  {
    forall i, j | 0 <= i < j < k
      ensures Rank(plan[..k][i]) < Rank(plan[..k][j])
    {
      assert plan[..k][i] == plan[i] && plan[..k][j] == plan[j];
    }
  }

  /** Taking an ordered plan that ends in `Cancel`: `Cancel` is reached exactly when nothing failed, and the order is kept. */
  lemma PerformCancelsIffClean(plan: seq<Step>, s: Scene, intended: bool)
    requires plan != [] && plan[|plan| - 1] == Cancel && Ordered(plan)
    ensures var t := Perform(plan, s, intended);
      && (Cancel in t.steps <==> t.err.None?)
      && (t.err.None? ==> forall step | step in plan :: Fault(step, s, intended).None?)
      && Ordered(t.steps)
  {
    PerformMeaning(plan, s, intended);
    TakenCancelsIffClean(plan, Perform(plan, s, intended), s, intended);
  }

  /** The same, for any teardown that has the shape `PerformMeaning` gives. */
  lemma TakenCancelsIffClean(plan: seq<Step>, t: Teardown, s: Scene, intended: bool)
    requires plan != [] && plan[|plan| - 1] == Cancel && Ordered(plan)
    requires |t.steps| <= |plan| && t.steps == plan[..|t.steps|]
    requires t.err.None? ==> t.steps == plan
    requires t.err.Some? ==> t.steps != [] && t.err == Fault(t.steps[|t.steps| - 1], s, intended)
    requires forall i | 0 <= i < |t.steps| - (if t.err.Some? then 1 else 0) :: Fault(t.steps[i], s, intended).None?
    ensures Cancel in t.steps <==> t.err.None?
    ensures t.err.None? ==> forall step | step in plan :: Fault(step, s, intended).None?
    ensures Ordered(t.steps)
  {
    OrderedPrefix(plan, |t.steps|);
    if Cancel in t.steps {
      CancelReachedOnlyAtEnd(plan, t.steps);
    }
    if t.err.None? {
      assert t.steps[|plan| - 1] == Cancel;
      forall step | step in plan
        ensures Fault(step, s, intended).None?
      {
        var i :| 0 <= i < |plan| && plan[i] == step;
        assert t.steps[i] == step;
      }
    }
  }

  /** A prefix of an ordered plan ending in `Cancel` that holds `Cancel` is the whole plan. */
  lemma CancelReachedOnlyAtEnd(plan: seq<Step>, taken: seq<Step>)
    requires plan != [] && plan[|plan| - 1] == Cancel && Ordered(plan)
    requires |taken| <= |plan| && taken == plan[..|taken|] && Cancel in taken
    ensures taken == plan && taken[|taken| - 1] == Cancel
  {
    var i :| 0 <= i < |taken| && taken[i] == Cancel;
    assert plan[i] == Cancel;
    CancelOnlyLast(plan, i);
  }

  /** Closing the connection, when there is one. */
  function CloseStage(s: Scene): Teardown
  {
    Teardown(CloseSteps(s), CloseFault(s))
  }

  /** Killing and reaping the process, when there is one; a failed kill skips the wait. */
  function ProcessStage(s: Scene, intended: bool): Teardown
  {
    if KillFault(s).Some? then Teardown([KillProcess], KillFault(s))
    else Teardown(ProcessSteps(s), WaitFault(s, intended))
  }

  /** Removing the profile directory, when there is one. */
  function DirStage(s: Scene): Teardown
  {
    Teardown(DirSteps(s), RemoveFault(s))
  }

  /**
   * The teardown as `RedLight` takes it: the three stages in turn, the
   * first that fails ending it, and the cancel when none failed;
   * `intended` decides whether the exit the kill causes is a failure.
   */
  function Staged(s: Scene, intended: bool): Teardown
  {
    var c := CloseStage(s);
    var p := ProcessStage(s, intended);
    var d := DirStage(s);
    if c.err.Some? then c
    else if p.err.Some? then Then(c.steps, p)
    else if d.err.Some? then Then(c.steps, Then(p.steps, d))
    else Then(c.steps, Then(p.steps, Then(d.steps, Teardown([Cancel], None))))
  }

  /** The staged teardown is the plan taken step by step up to the first failure. */
  lemma StagedFollowsPlan(s: Scene, intended: bool)
    ensures Staged(s, intended) == Perform(Plan(s), s, intended)
  {
    var c, p, d := CloseSteps(s), ProcessSteps(s), DirSteps(s);
    PerformAppend(c, p + (d + [Cancel]), s, intended);
    PerformAppend(p, d + [Cancel], s, intended);
    PerformAppend(d, [Cancel], s, intended);
    CloseStagePerformed(s, intended);
    ProcessStagePerformed(s, intended);
    DirStagePerformed(s, intended);
    PerformOne(Cancel, s, intended);
    if CloseStage(s).err.None? && ProcessStage(s, intended).err.None? {
      if DirStage(s).err.None? {
        assert Perform(d + [Cancel], s, intended) == Then(d, Teardown([Cancel], None));
      }
      assert Perform(p + (d + [Cancel]), s, intended) == Then(p, Perform(d + [Cancel], s, intended));
    }
  }

  lemma CloseStagePerformed(s: Scene, intended: bool)
    ensures Perform(CloseSteps(s), s, intended) == CloseStage(s)
  {
    PerformOne(CloseWs, s, intended);
  }

  lemma ProcessStagePerformed(s: Scene, intended: bool)
    ensures Perform(ProcessSteps(s), s, intended) == ProcessStage(s, intended)
  {
    PerformTwo(KillProcess, WaitProcess, s, intended);
  }

  lemma DirStagePerformed(s: Scene, intended: bool)
    ensures Perform(DirSteps(s), s, intended) == DirStage(s)
  {
    PerformOne(RemoveDir, s, intended);
  }

  lemma PerformOne(x: Step, s: Scene, intended: bool)
    ensures Perform([x], s, intended) == Teardown([x], Fault(x, s, intended))
  {
    assert [x][1..] == [];
  }

  lemma PerformTwo(x: Step, y: Step, s: Scene, intended: bool)
    ensures Perform([x, y], s, intended) ==
      if Fault(x, s, intended).Some? then Teardown([x], Fault(x, s, intended)) else Teardown([x, y], Fault(y, s, intended))
  {
    assert [x, y][1..] == [y];
    PerformOne(y, s, intended);
  }

  /** The context is cancelled exactly when every applicable step succeeded, and the steps keep their order. */
  lemma CancelExactlyWhenAllSucceeded(s: Scene, intended: bool)
    ensures var t := Staged(s, intended);
      && (Cancel in t.steps <==> t.err.None?)
      && (t.err.None? ==> forall step | step in Plan(s) :: Fault(step, s, intended).None?)
      && Ordered(t.steps)
  {
    StagedFollowsPlan(s, intended);
    PlanShape(s);
    PerformCancelsIffClean(Plan(s), s, intended);
  }

  /** A healthy session whose browser still runs when the teardown starts. */
  predicate Healthy(s: Scene)
  {
    && s.conn.Some? && !s.conn.value.closed && s.conn.value.closeFault.None?
    && Started(s) && s.cmd.value.process.value == Proc(s.cmd.value.process.value.pid, None, None, false, false)
    && s.userDataDir != "" && s.removeFault.None?
  }

  /**
   * As written, tearing down a healthy session stops at `Wait`: killing the
   * running browser makes `Wait` report "signal: killed", so the profile
   * directory is never removed and the context never cancelled.
   */
  lemma AsWrittenStopsAfterKill(s: Scene)
    requires Healthy(s)
    ensures Staged(s, false) == Teardown([CloseWs, KillProcess, WaitProcess], Some(Killed))
  {
  }

  /** With the kill's own exit not counted as a failure, a healthy session is torn down completely. */
  lemma IntendedCleansUp(s: Scene)
    requires Healthy(s)
    ensures Staged(s, true) == Teardown([CloseWs, KillProcess, WaitProcess, RemoveDir, Cancel], None)
  {
  }

  /** Frame ids strictly increase along a history. */
  ghost predicate Ascending(h: seq<Frame>)
  {
    forall i, j | 0 <= i < j < |h| :: h[i].id < h[j].id
  }

  class Browser {
    const execPath: string
    const userDataDir: string
    const isHeadless: bool
    /** `os.Getenv("DEBUG_PORT")`. */
    const debugPort: string
    /** What `cmd.Start()` yields: the process, or the error. */
    const spawn: Result<Proc, string>
    /** What `os.RemoveAll(userDataDir)` reports. */
    const removeFault: Option<string>

    var messageID: int
    var conn: Option<Conn>
    var wsEndpoint: string
    var cmd: Option<Command>
    var pid: int
    /** Whether the profile directory was removed. */
    var removed: bool
    /** Whether the context was cancelled. */
    var cancelled: bool
    /** The `GET /json` outcomes and dials still to come. */
    var listings: seq<Listing>
    var dials: seq<Dialled>

    /** Every frame written, on any connection, in order. */
    ghost var history: seq<Frame>
    /** The teardown steps taken, in order. */
    ghost var effects: seq<Step>

    /** Ids are never reused: the written ones ascend and none is above the counter. */
    ghost predicate Valid()
      reads this
    {
      Ascending(history) && forall i | 0 <= i < |history| :: history[i].id <= messageID
    }

    function Links(): Link
      reads this
    {
      Link(conn, wsEndpoint, listings, dials)
    }

    function Scenery(): Scene
      reads this
    {
      Scene(conn, cmd, userDataDir, removeFault)
    }

    /** The `Browser` literal of `GreenLight`, before `launch`. */
    constructor (execPath: string, isHeadless: bool, userDataDir: string, debugPort: string,
                 spawn: Result<Proc, string>, removeFault: Option<string>, listings: seq<Listing>, dials: seq<Dialled>)
      ensures this.execPath == execPath && this.isHeadless == isHeadless && this.userDataDir == userDataDir
      ensures this.debugPort == debugPort && this.spawn == spawn && this.removeFault == removeFault
      ensures this.listings == listings && this.dials == dials
      ensures messageID == 0 && conn.None? && wsEndpoint == "" && cmd.None? && pid == 0
      ensures !removed && !cancelled && history == [] && effects == []
      ensures Valid()
    {
      this.execPath := execPath;
      this.isHeadless := isHeadless;
      this.userDataDir := userDataDir;
      this.debugPort := debugPort;
      this.spawn := spawn;
      this.removeFault := removeFault;
      this.listings := listings;
      this.dials := dials;
      messageID := 0;
      conn := None;
      wsEndpoint := "";
      cmd := None;
      pid := 0;
      removed := false;
      cancelled := false;
      history := [];
      effects := [];
    }

    /** Builds the arguments, starts the process, and attaches to a page. */
    method Launch(startURL: string) returns (err: Option<string>)
      modifies this`cmd, this`pid, this`conn, this`wsEndpoint, this`listings, this`dials
      ensures var args := LaunchArgs(debugPort, userDataDir, startURL, isHeadless);
        match spawn
        case Err(e) =>
          && cmd == Some(Command(execPath, args, None)) && err == Some("failed to start browser: " + e)
          && pid == old(pid) && Links() == old(Links())
        case Ok(p) =>
          var a := Attach(old(Links()));
          && cmd == Some(Command(execPath, args, Some(p))) && pid == p.pid
          && err == a.err && Links() == a.link
    {
      var args := ["--remote-debugging-port=" + debugPort, "--no-first-run",
                   "--user-data-dir=" + userDataDir, "--remote-allow-origins=*", startURL];
      if isHeadless {
        args := args + ["--headless=new"];
      }
      cmd := Some(Command(execPath, args, None));
      match spawn
      case Err(e) =>
        return Some("failed to start browser: " + e);
      case Ok(p) =>
        cmd := Some(Command(execPath, args, Some(p)));
        pid := p.pid;
        err := AttachToPage();
    }

    /** Fetches the target list and connects to the first suitable page. */
    method AttachToPage() returns (err: Option<string>)
      modifies this`conn, this`wsEndpoint, this`listings, this`dials
      ensures var a := Attach(old(Links()));
        err == a.err && Links() == a.link
    {
      var listing := Unreachable(Refused);
      if listings != [] {
        listing := listings[0];
        listings := listings[1..];
      }
      match listing
      case Unreachable(r) =>
        return Some("failed to fetch active pages: " + r);
      case Garbled(r) =>
        return Some("failed to decode JSON: " + r);
      case Targets(pages) =>
        var i := 0;
        while i < |pages|
          invariant 0 <= i <= |pages|
          invariant forall j | 0 <= j < i :: !Suitable(pages[j])
          invariant conn == old(conn) && wsEndpoint == old(wsEndpoint) && dials == old(dials)
          invariant listings == if old(listings) == [] then [] else old(listings)[1..]
        {
          var page := pages[i];
          if Lookup(page, "type") == Str("page") && Lookup(page, "url") != Str("") {
            var ws := Lookup(page, "webSocketDebuggerUrl");
            if ws.Str? {
              if conn.Some? {
                conn := Some(conn.value.(closed := true));
              }
              var dial := Rejected(Refused);
              if dials != [] {
                dial := dials[0];
                dials := dials[1..];
              }
              match dial
              case Rejected(r) =>
                return Some("failed to connect to page WebSocket: " + r);
              case Opened(inbox, wf, cf) =>
                conn := Some(Conn(ws.s, inbox, [], wf, cf, false));
                wsEndpoint := ws.s;
                return None;
            }
          }
          i := i + 1;
        }
        return Some(NoSuitablePage);
    }

    /** The reconnect and the write shared by both sends. */
    method Deliver(f: Frame) returns (err: Option<string>)
      requires Ascending(history) && forall i | 0 <= i < |history| :: history[i].id < f.id
      modifies this`conn, this`wsEndpoint, this`listings, this`dials, this`history
      ensures var a := Reconnect(old(Links()));
        && (a.err.Some? ==> err == Some(ReconnectFailed + a.err.value) && Links() == a.link && history == old(history))
        && (a.err.None? ==>
              match Write(a.link.conn.value, f)
              case Err(e) => err == Some(SendFailed + e) && Links() == a.link && history == old(history)
              case Ok(c) => err.None? && Links() == a.link.(conn := Some(c)) && history == old(history) + [f])
      ensures Ascending(history)
    {
      if conn.None? {
        var e := AttachToPage();
        if e.Some? {
          return Some(ReconnectFailed + e.value);
        }
      }
      var c := conn.value;
      if c.closed {
        return Some(SendFailed + ClosedConn);
      }
      if c.writeFault.Some? {
        return Some(SendFailed + c.writeFault.value);
      }
      conn := Some(c.(written := c.written + [f]));
      history := history + [f];
      return None;
    }

    /** The read loop: discards undecodable frames and frames for other ids, and stops at a read error, which it leaves in place. */
    method Await(id: int) returns (r: Result<map<string, Value>, string>)
      requires conn.Some?
      modifies this`conn
      ensures var inbox := old(conn.value.inbox);
        var k := Stop(inbox, id);
        && conn == Some(old(conn.value).(inbox := After(inbox, k)))
        && r == Heard(inbox, id, k)
    {
      ghost var c0 := conn.value;
      ghost var inbox := c0.inbox;
      ghost var skipped := 0;
      while true
        invariant skipped <= |inbox| && conn == Some(c0.(inbox := inbox[skipped..]))
        invariant forall j | 0 <= j < skipped :: !Stops(inbox[j], id)
        decreases |conn.value.inbox|
      {
        var c := conn.value;
        if c.inbox == [] {
          assert skipped == |inbox|;
          return Err(ReadFailed + EndOfStream);
        }
        var m := c.inbox[0];
        assert m == inbox[skipped];
        if m.Broken? {
          return Err(ReadFailed + m.reason);
        }
        conn := Some(c.(inbox := c.inbox[1..]));
        assert inbox[skipped..][1..] == inbox[skipped + 1..];
        if m.decoded.Some? && Matches(m.decoded.value, id) {
          return Ok(m.decoded.value);
        }
        skipped := skipped + 1;
      }
    }

    /** Takes the next id, reconnects if needed, and writes the command; the id is spent even when that fails. */
    method SendCommandWithoutResponse(name: string, params: Value) returns (err: Option<string>)
      requires Valid()
      modifies this`messageID, this`conn, this`wsEndpoint, this`listings, this`dials, this`history
      ensures Valid()
      ensures messageID == old(messageID) + 1
      ensures var f := Frame(messageID, name, params);
        var a := Reconnect(old(Links()));
        && (a.err.Some? ==> err == Some(ReconnectFailed + a.err.value) && Links() == a.link && history == old(history))
        && (a.err.None? ==>
              match Write(a.link.conn.value, f)
              case Err(e) => err == Some(SendFailed + e) && Links() == a.link && history == old(history)
              case Ok(c) => err.None? && Links() == a.link.(conn := Some(c)) && history == old(history) + [f])
    {
      messageID := messageID + 1;
      var id := messageID;
      err := Deliver(Frame(id, name, params));
    }

    /** As `SendCommandWithoutResponse`, then reads until the frame carrying the id. */
    method SendCommandWithResponse(name: string, params: Value) returns (r: Result<map<string, Value>, string>)
      requires Valid()
      modifies this`messageID, this`conn, this`wsEndpoint, this`listings, this`dials, this`history
      ensures Valid()
      ensures messageID == old(messageID) + 1
      ensures var f := Frame(messageID, name, params);
        var a := Reconnect(old(Links()));
        && (a.err.Some? ==> r == Err(ReconnectFailed + a.err.value) && Links() == a.link && history == old(history))
        && (a.err.None? ==>
              match Write(a.link.conn.value, f)
              case Err(e) => r == Err(SendFailed + e) && Links() == a.link && history == old(history)
              case Ok(c) =>
                var k := Stop(c.inbox, messageID);
                && history == old(history) + [f]
                && r == Heard(c.inbox, messageID, k)
                && Links() == a.link.(conn := Some(c.(inbox := After(c.inbox, k)))))
    {
      messageID := messageID + 1;
      var id := messageID;
      var err := Deliver(Frame(id, name, params));
      if err.Some? {
        return Err(err.value);
      }
      r := Await(id);
    }

    /** A page handle is available exactly when a connection is. */
    method NewPage() returns (r: Result<Browser, string>)
      ensures r.Err? <==> conn.None?
      ensures r.Ok? ==> r.value == this
      ensures r.Err? ==> r.error == NotConnected
    {
      if conn.None? {
        return Err(NotConnected);
      }
      return Ok(this);
    }

    /** Closes the connection, when there is one. */
    method Disconnect() returns (err: Option<string>)
      modifies this`conn, this`effects
      ensures var t := CloseStage(old(Scenery()));
        err == t.err && effects == old(effects) + t.steps
      ensures conn == if old(conn).Some? then Some(old(conn).value.(closed := true)) else None
    {
      if conn.Some? {
        var c := conn.value;
        conn := Some(c.(closed := true));
        effects := effects + [CloseWs];
        var e := CloseError(c);
        if e.Some? {
          return Some("error closing ws: " + e.value);
        }
      }
      return None;
    }

    /** Kills and reaps the process, when one was started; the exit the kill causes is not a failure. */
    method StopProcess() returns (err: Option<string>)
      modifies this`cmd, this`effects
      ensures var t := ProcessStage(old(Scenery()), true);
        err == t.err && effects == old(effects) + t.steps
      ensures cmd == if WaitProcess in ProcessStage(old(Scenery()), true).steps
                     then Some(old(cmd).value.(process := Some(old(cmd).value.process.value.(killed := true, reaped := true))))
                     else old(cmd)
    {
      if cmd.Some? && cmd.value.process.Some? {
        var p := cmd.value.process.value;
        effects := effects + [KillProcess];
        if p.reaped {
          return Some("error killing browser process: " + Finished);
        }
        if p.killFault.Some? {
          return Some("error killing browser process: " + p.killFault.value);
        }
        cmd := Some(cmd.value.(process := Some(p.(killed := true, reaped := true))));
        effects := effects + [WaitProcess];
        match p.exited
        case Some(status) =>
          return status;
        case None =>
      }
      return None;
    }

    /** Removes the profile directory, when there is one. */
    method RemoveProfile() returns (err: Option<string>)
      modifies this`removed, this`effects
      ensures var t := DirStage(old(Scenery()));
        err == t.err && effects == old(effects) + t.steps
      ensures removed == (old(removed) || (userDataDir != "" && err.None?))
    {
      if userDataDir != "" {
        effects := effects + [RemoveDir];
        if removeFault.Some? {
          return Some("error removing user data directory: " + removeFault.value);
        }
        removed := true;
      }
      return None;
    }

    /**
     * Closes the connection, kills and reaps the process, removes the
     * profile directory and cancels the context, in that order, returning
     * at the first failure; the exit the kill itself causes is not one.
     */
    method RedLight() returns (err: Option<string>)
      modifies this`conn, this`cmd, this`removed, this`cancelled, this`effects
      ensures var t := Staged(old(Scenery()), true);
        err == t.err && effects == old(effects) + t.steps
      ensures conn == if old(conn).Some? then Some(old(conn).value.(closed := true)) else None
      ensures var s := old(Scenery());
        cmd == if Started(s) && CloseFault(s).None? && KillFault(s).None?
               then Some(old(cmd).value.(process := Some(old(cmd).value.process.value.(killed := true, reaped := true))))
               else old(cmd)
      ensures removed == (old(removed) || (userDataDir != "" && err.None?))
      ensures cancelled == (old(cancelled) || err.None?)
    {
      ghost var s := Scenery();
      ghost var e0 := effects;
      err := Disconnect();
      if err.Some? {
        return;
      }
      ghost var e1 := effects;
      err := StopProcess();
      AppendAssoc(e0, CloseStage(s).steps, ProcessStage(s, true).steps);
      if err.Some? {
        return;
      }
      ghost var e2 := effects;
      err := RemoveProfile();
      AppendAssoc(e1, ProcessStage(s, true).steps, DirStage(s).steps);
      AppendAssoc(e0, CloseStage(s).steps, ProcessStage(s, true).steps + DirStage(s).steps);
      if err.Some? {
        return;
      }
      effects := effects + [Cancel];
      AppendAssoc(e2, DirStage(s).steps, [Cancel]);
      AppendAssoc(e1, ProcessStage(s, true).steps, DirStage(s).steps + [Cancel]);
      AppendAssoc(e0, CloseStage(s).steps, ProcessStage(s, true).steps + (DirStage(s).steps + [Cancel]));
      cancelled := true;
    }
  }

  /** `GreenLight`: a new browser, launched; the error of the launch when it fails. */
  method GreenLight(execPath: string, isHeadless: bool, startURL: string, userDataDir: string, debugPort: string,
                    spawn: Result<Proc, string>, removeFault: Option<string>, listings: seq<Listing>, dials: seq<Dialled>)
    returns (r: Result<Browser, string>)
    ensures r.Ok? ==> fresh(r.value) && r.value.Valid() && r.value.messageID == 0 && r.value.conn.Some?
    ensures r.Ok? <==> spawn.Ok? && Attach(Link(None, "", listings, dials)).err.None?
    ensures r.Err? ==> r.error == (if spawn.Err? then "failed to start browser: " + spawn.error
                                   else Attach(Link(None, "", listings, dials)).err.value)
  {
    var b := new Browser(execPath, isHeadless, userDataDir, debugPort, spawn, removeFault, listings, dials);
    var err := b.Launch(startURL);
    if err.Some? {
      return Err(err.value);
    }
    return Ok(b);
  }
}
