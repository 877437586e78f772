/** Controller and monitors joined by one in-order command queue per card: whatever is still in flight, running
    it through the monitor gives the recording and the log the controller believes in. */
module TwoDaemons {
  import opened Controller
  import opened Database
  import opened Following
  import opened Ipc
  import opened Monitor
  import opened SavedStatuses
  import opened Schedules
  import opened Wrappers

  // ----- the joined system ------------------------------------------------------------------------------------------------

  /** The controller, what is in flight to each monitor, and the monitors. */
  datatype System = System(controller: State, queues: seq<seq<Command>>, monitors: seq<Machine>)

  datatype Move = Act(event: Event) | Take(card: nat, outcome: Outcome)

  predicate ValidSystem(y: System)
  {
    |y.queues| == |y.monitors| == |y.controller.cards|
  }

  /** Any event, restarts of the controller included; any monitor may take a command, however its opens turn out. */
  predicate CanMove(y: System, move: Move)
    requires ValidSystem(y)
  {
    match move
    case Act(ev) => ValidEvent(y.controller, ev)
    case Take(i, o) => i < |y.queues| && y.queues[i] != []
  }

  /** The controller's events append what they send; a monitor takes the oldest command of its queue. */
  function MoveSystem(y: System, move: Move, w: World): (r: System)
    requires ValidSystem(y) && CanMove(y, move) && ShortPaths(w)
    ensures ValidSystem(r)
  {
    match move
    case Act(ev) =>
      StepSentGrows(y.controller, ev, w);
      var s := Step(y.controller, ev, w);
      System(s, seq(|y.queues|, i requires 0 <= i < |y.queues| =>
                      y.queues[i] + s.cards[i].sent[|y.controller.cards[i].sent|..]), y.monitors)
    case Take(i, o) =>
      System(y.controller, y.queues[i := y.queues[i][1..]],
             y.monitors[i := Handle(y.monitors[i], y.queues[i][0], o)])
  }

  /** A system just after both daemons started. */
  function Begin(n: nat, w: World): (y: System)
    requires ShortPaths(w)
    ensures ValidSystem(y)
  {
    var s := Startup(Empty(n), w);
    System(s, seq(n, i requires 0 <= i < n => s.cards[i].sent), seq(n, _ => FRESH))
  }

  ghost predicate ValidMoves(y: System, moves: seq<Move>, w: World)
    requires ValidSystem(y) && ShortPaths(w)
    decreases |moves|
  {
    moves == [] || (CanMove(y, moves[0]) && ValidMoves(MoveSystem(y, moves[0], w), moves[1..], w))
  }

  function RunSystem(y: System, moves: seq<Move>, w: World): (r: System)
    requires ValidSystem(y) && ShortPaths(w) && ValidMoves(y, moves, w)
    ensures ValidSystem(r)
    decreases |moves|
  {
    if moves == [] then y else RunSystem(MoveSystem(y, moves[0], w), moves[1..], w)
  }

  /** The monitor, run through what is in flight, is where the commands sent so far lead. */
  ghost predicate Connected(y: System, w: World)
    requires ValidSystem(y)
  {
    && AllFollow(y.controller, w)
    && forall i :: 0 <= i < |y.queues| ==>
         Replay(y.monitors[i].devices, y.queues[i]) == Remote(y.controller.cards[i])
  }

  lemma {:induction false} ReplayFirst(m: Devices, commands: seq<Command>, o: Outcome)
    requires commands != [] && Succeeds(o)
    ensures Replay(HandleDevices(m, commands[0], o), commands[1..]) == Replay(m, commands)
  {
    assert commands == [commands[0]] + commands[1..];
    ReplayAppend(m, [commands[0]], commands[1..]);
    ReplayLast(m, [], commands[0]);
    assert [] + [commands[0]] == [commands[0]];
    assert HandleDevices(m, commands[0], o) == HandleDevices(m, commands[0], SUCCESS);
  }

  /** Opens succeed, and a restart finds the recordings saved. */
  ghost predicate Undisturbed(y: System, move: Move)
    requires ValidSystem(y)
  {
    match move
    case Act(ev) => ev.Restart? ==> FindsRecordings(y.controller)
    case Take(_, o) => Succeeds(o)
  }

  ghost predicate UndisturbedRun(y: System, moves: seq<Move>, w: World)
    requires ValidSystem(y) && ShortPaths(w) && ValidMoves(y, moves, w)
    decreases |moves|
  {
    moves != [] ==> Undisturbed(y, moves[0]) && UndisturbedRun(MoveSystem(y, moves[0], w), moves[1..], w)
  }

  lemma ActConnected(y: System, ev: Event, w: World)
    requires ValidSystem(y) && ValidEvent(y.controller, ev) && SendsSucceed(w) && Connected(y, w)
    requires ev.Restart? ==> FindsRecordings(y.controller)
    ensures Connected(MoveSystem(y, Act(ev), w), w)
  {
    hide Step, Startup, Follows, FindsRecordings;
    if ev.Restart? {
      RestartFollows(y.controller, w);
      RestartIsStartup(y.controller, w);
    } else {
      StepFollows(y.controller, ev, w);
    }
    StepSentGrows(y.controller, ev, w);
    var r := MoveSystem(y, Act(ev), w);
    forall i | 0 <= i < |r.queues|
      ensures Replay(r.monitors[i].devices, r.queues[i]) == Remote(r.controller.cards[i])
    {
      QueueGrows(y.monitors[i].devices, y.queues[i], y.controller.cards[i].sent, r.controller.cards[i].sent);
    }
  }

  lemma QueueGrows(m: Devices, queue: seq<Command>, before: seq<Command>, after: seq<Command>)
    requires before <= after && Replay(m, queue) == Replay(CLOSED, before)
    ensures Replay(m, queue + after[|before|..]) == Replay(CLOSED, after)
  {
    hide HandleDevices;
    var more := after[|before|..];
    assert after == before + more;
    ReplayAppend(m, queue, more);
    ReplayAppend(CLOSED, before, more);
  }

  lemma RestartIsStartup(s: State, w: World)
    requires ShortPaths(w)
    ensures Step(s, Restart, w) == Startup(s, w)
  {
    hide Startup;
  }

  lemma MoveConnected(y: System, move: Move, w: World)
    requires ValidSystem(y) && CanMove(y, move) && SendsSucceed(w) && Connected(y, w) && Undisturbed(y, move)
    ensures Connected(MoveSystem(y, move, w), w)
  {
    hide HandleDevices, Step, Follows;
    match move
    case Act(ev) => ActConnected(y, ev, w);
    case Take(i, o) => ReplayFirst(y.monitors[i].devices, y.queues[i], o);
  }

  lemma {:induction false} RunConnected(y: System, moves: seq<Move>, w: World)
    requires ValidSystem(y) && SendsSucceed(w) && Connected(y, w) && ValidMoves(y, moves, w)
    requires UndisturbedRun(y, moves, w)
    ensures Connected(RunSystem(y, moves, w), w)
    decreases |moves|
  {
    if moves == [] {
    } else {
      MoveConnected(y, moves[0], w);
      RunConnected(MoveSystem(y, moves[0], w), moves[1..], w);
    }
  }

  lemma {:induction false} DrainedMachine(m: Machine, queue: seq<Command>)
    ensures Replay(m.devices, queue) == Drain(m, queue).devices
  {
    if queue == [] {
    } else {
      DrainedMachine(m, queue[..|queue| - 1]);
    }
  }

  /** The monitor after everything in flight. */
  function Drain(m: Machine, queue: seq<Command>): Machine
  {
    if queue == [] then m else Handle(Drain(m, queue[..|queue| - 1]), queue[|queue| - 1], SUCCESS)
  }

  /** A monitor's recording and log are those of the controller's status. */
  predicate Agree(m: Devices, status: Status, w: World)
  {
    && m.avFlag == status.recording
    && (m.avFlag ==> status.avRecordName != "" && m.avName == w.recordPath + "/" + status.avRecordName)
    && m.logFlag == (status.loudnessLogName != "")
    && (m.logFlag ==> m.logName == w.logPath + "/" + status.loudnessLogName)
    && m.audioFlag == m.logFlag
  }

  lemma ConnectedAgrees(y: System, w: World, i: nat)
    requires ValidSystem(y) && Connected(y, w) && i < |y.queues|
    ensures Agree(Drain(y.monitors[i], y.queues[i]).devices, y.controller.cards[i].status, w)
  {
    DrainedMachine(y.monitors[i], y.queues[i]);
    assert Follows(y.controller.cards[i], w);
  }

  lemma BeginConnected(n: nat, w: World)
    requires SendsSucceed(w)
    ensures Connected(Begin(n, w), w)
  {
    StartupFollows(n, w);
  }

  /** In every state the two daemons can reach, in any interleaving: running a monitor over what is in flight to it
      gives a recording flag and file name, and a log flag and file name, equal to the controller's; restarts of the
      controller included, as long as each finds the recordings saved. */
  lemma DaemonsAgree(n: nat, moves: seq<Move>, w: World, i: nat)
    requires i < n && SendsSucceed(w) && ValidMoves(Begin(n, w), moves, w) && UndisturbedRun(Begin(n, w), moves, w)
    ensures var y := RunSystem(Begin(n, w), moves, w);
            |y.queues| == n && Agree(Drain(y.monitors[i], y.queues[i]).devices, y.controller.cards[i].status, w)
  {
    BeginConnected(n, w);
    RunConnected(Begin(n, w), moves, w);
    RunSize(Begin(n, w), moves, w);
    ConnectedAgrees(RunSystem(Begin(n, w), moves, w), w, i);
  }

  /** The monitors' opens succeed. */
  ghost predicate Smooth(moves: seq<Move>)
  {
    forall k :: 0 <= k < |moves| && moves[k].Take? ==> Succeeds(moves[k].outcome)
  }

  lemma SavedFindsRecordings(s: State)
    requires Saved(s)
    ensures FindsRecordings(s)
  {
    forall j | 0 <= j < |s.cards| ensures FindsRecording(s, j) {
      LoadFindsSaved(s, j);
    }
  }

  lemma {:induction false} SavedUndisturbed(y: System, moves: seq<Move>, w: World)
    requires ValidSystem(y) && ShortPaths(w) && WritesSucceed(w) && Saved(y.controller)
    requires ValidMoves(y, moves, w) && Smooth(moves)
    ensures UndisturbedRun(y, moves, w)
    decreases |moves|
  {
    if moves == [] {
    } else {
      SavedFindsRecordings(y.controller);
      if moves[0].Act? {
        StepSaved(y.controller, moves[0].event, w);
      }
      SavedUndisturbed(MoveSystem(y, moves[0], w), moves[1..], w);
    }
  }

  /** With a database that executes its statements, however often the controller restarts while the monitors keep
      running. */
  lemma DaemonsAgreeAcrossRestarts(n: nat, moves: seq<Move>, w: World, i: nat)
    requires i < n && SendsSucceed(w) && WritesSucceed(w) && ValidMoves(Begin(n, w), moves, w) && Smooth(moves)
    ensures var y := RunSystem(Begin(n, w), moves, w);
            |y.queues| == n && Agree(Drain(y.monitors[i], y.queues[i]).devices, y.controller.cards[i].status, w)
  {
    StartupSaved(Empty(n), w);
    SavedUndisturbed(Begin(n, w), moves, w);
    DaemonsAgree(n, moves, w, i);
  }

  lemma {:induction false} RunSize(y: System, moves: seq<Move>, w: World)
    requires ValidSystem(y) && ShortPaths(w) && ValidMoves(y, moves, w)
    ensures |RunSystem(y, moves, w).queues| == |y.queues|
    decreases |moves|
  {
    if moves == [] {
    } else {
      RunSize(MoveSystem(y, moves[0], w), moves[1..], w);
    }
  }

  // ----- a restart after a save that failed -------------------------------------------------------------------------------

  /** A world in which every command is sent and no statement is executed. */
  const NO_WRITES := World(_ => true, _ => false, _ => true, _ => "1970-01-01 00:00:00", _ => "", _ => "", _ => 0.0,
                           _ => "", "", "", 0)

  const ENTRY := Schedule(0, 1, 9, 0)

  /** One card: an entry arrives and becomes active, and the controller restarts; its monitor takes no command. */
  const ARRIVES := Act(ScheduleMessage([ENTRY]))
  const STARTS := Act(Tick([Clocks(5, 5)]))
  const RESTARTS := Act(Restart)

  /** Nothing has been taken yet. */
  ghost predicate Untaken(y: System)
    requires ValidSystem(y)
  {
    forall i :: 0 <= i < |y.queues| ==> y.queues[i] == y.controller.cards[i].sent && y.monitors[i] == FRESH
  }

  lemma ActUntaken(y: System, ev: Event, w: World)
    requires ValidSystem(y) && ValidEvent(y.controller, ev) && ShortPaths(w) && Untaken(y)
    ensures var r := MoveSystem(y, Act(ev), w);
            Untaken(r) && r.controller == Step(y.controller, ev, w) && |r.queues| == |y.queues|
  {
    hide Step;
    StepSentGrows(y.controller, ev, w);
    var r := MoveSystem(y, Act(ev), w);
    forall i | 0 <= i < |r.queues| ensures r.queues[i] == r.controller.cards[i].sent {
      var before, after := y.controller.cards[i].sent, r.controller.cards[i].sent;
      assert after == before + after[|before|..];
    }
  }

  lemma EntryArrives(s: State)
    requires |s.cards| == 1 && s.statusTable == []
    ensures var r := Step(s, ARRIVES.event, NO_WRITES);
            r.cards == s.cards && r.schedule == [ENTRY] && r.guide == s.guide && r.statusTable == []
  {
    assert [ENTRY][1..] == [] && Entries([ENTRY]) == [ENTRY];
  }

  lemma EntryStarts(s: State)
    requires |s.cards| == 1 && s.schedule == [ENTRY] && s.guide == [] && s.statusTable == []
    requires s.cards[0].currentSchedule == NO_SCHEDULE && s.cards[0].status.channel == 0
    ensures var r := Step(s, STARTS.event, NO_WRITES); r.cards[0].status.recording && r.statusTable == []
  {
    assert CurrentSchedule([ENTRY], 0, 5) == Some(ENTRY);
    var r := CardTick(s, 0, Clocks(5, 5), NO_WRITES);
    assert TickFrom(s, 0, [Clocks(5, 5)], NO_WRITES) == TickFrom(r, 1, [Clocks(5, 5)], NO_WRITES) == r;
  }

  lemma Beginning()
    ensures var s := Startup(Empty(1), NO_WRITES);
            |s.cards| == 1 && s.statusTable == [] && s.guide == []
            && s.cards[0].currentSchedule == NO_SCHEDULE && s.cards[0].status.channel == 0
  {
    var s := Load(Empty(1));
    assert StartLogs(s, 0, NO_WRITES) == Put(s, 0, StartLog(CloseLog(At(s, 0), NO_WRITES), 0, NO_WRITES));
  }

  /** The first two moves: the card records, nothing is saved. */
  lemma RecordsUnsaved() returns (y1: System, y2: System)
    ensures var y0 := Begin(1, NO_WRITES);
            && CanMove(y0, ARRIVES) && y1 == MoveSystem(y0, ARRIVES, NO_WRITES)
            && CanMove(y1, STARTS) && y2 == MoveSystem(y1, STARTS, NO_WRITES)
    ensures |y2.controller.cards| == 1 && Untaken(y2) && AllFollow(y2.controller, NO_WRITES)
            && y2.controller.cards[0].status.recording && y2.controller.statusTable == []
  {
    hide Step, Startup, MoveSystem, Follows;
    var w := NO_WRITES;
    var y0 := Begin(1, w);
    Beginning();
    StartupFollows(1, w);
    EntryArrives(y0.controller);
    ActUntaken(y0, ARRIVES.event, w);
    y1 := MoveSystem(y0, ARRIVES, w);
    StepFollows(y0.controller, ARRIVES.event, w);
    EntryStarts(y1.controller);
    ActUntaken(y1, STARTS.event, w);
    y2 := MoveSystem(y1, STARTS, w);
    StepFollows(y1.controller, STARTS.event, w);
  }

  /** A recording that the table does not hold. */
  lemma ForgottenRecording(s: State, w: World, j: nat)
    requires SendsSucceed(w) && j < |s.cards| && Follows(s.cards[j], w) && s.cards[j].status.recording
    requires !Load(s).cards[j].status.recording
    ensures var r := Startup(s, w).cards[j]; Remote(r).avFlag && !r.status.recording
  {
    hide StartLogs, StartLog;
    StartLogsSameRecording(Load(s), 0, w, j);
    assert Remote(Load(s).cards[j]) == Remote(s.cards[j]);
  }

  /** After a restart that does not find the save, the monitor records and the controller does not know. */
  lemma RestartForgets() returns (y: System)
    ensures SendsSucceed(NO_WRITES) && Smooth([ARRIVES, STARTS, RESTARTS])
    ensures var moves := [ARRIVES, STARTS, RESTARTS];
            ValidMoves(Begin(1, NO_WRITES), moves, NO_WRITES) && y == RunSystem(Begin(1, NO_WRITES), moves, NO_WRITES)
    ensures ValidSystem(y) && |y.queues| == 1
            && Drain(y.monitors[0], y.queues[0]).devices.avFlag && !y.controller.cards[0].status.recording
  {
    hide Step, Startup, MoveSystem, Follows;
    var y1, y2 := RecordsUnsaved();
    ActUntaken(y2, Restart, NO_WRITES);
    RestartIsStartup(y2.controller, NO_WRITES);
    y := MoveSystem(y2, RESTARTS, NO_WRITES);
    ThreeMoves(Begin(1, NO_WRITES), ARRIVES, STARTS, RESTARTS, NO_WRITES);
    ForgottenRecording(y2.controller, NO_WRITES, 0);
    DrainedMachine(FRESH, y.queues[0]);
  }

  lemma ThreeMoves(y: System, a: Move, b: Move, c: Move, w: World)
    requires ValidSystem(y) && ShortPaths(w) && CanMove(y, a) && CanMove(MoveSystem(y, a, w), b)
    requires CanMove(MoveSystem(MoveSystem(y, a, w), b, w), c)
    ensures ValidMoves(y, [a, b, c], w)
            && RunSystem(y, [a, b, c], w) == MoveSystem(MoveSystem(MoveSystem(y, a, w), b, w), c, w)
  {
    hide MoveSystem, CanMove;
    assert [a, b, c][1..] == [b, c] && [b, c][1..] == [c] && [c][1..] == [];
    var y1 := MoveSystem(y, a, w);
    var y2 := MoveSystem(y1, b, w);
    var y3 := MoveSystem(y2, c, w);
    assert ValidMoves(y3, [], w) && RunSystem(y3, [], w) == y3;
    assert ValidMoves(y2, [c], w) && RunSystem(y2, [c], w) == y3;
    assert ValidMoves(y1, [b, c], w) && RunSystem(y1, [b, c], w) == RunSystem(y2, [c], w);
  }
}
