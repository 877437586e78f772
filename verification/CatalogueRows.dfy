/** What the rows of the catalogue say: a row's name is the one its own start, card, channel and channel name make,
    and every file a command has asked for has a row. */
module CatalogueRows {
  import CatalogueAgreement
  import opened Controller
  import opened Database
  import opened FileNames
  import opened Ipc
  import opened Schedules
  import opened Tables
  import opened Wrappers

  /** A recording's row and file: made for card `i` while it was tuned to channel `c`, whose name the row keeps as far
      as its field holds it. */
  predicate MadeRecording(name: string, start: string, channel: int, channelName: string, i: nat, c: int, w: World)
    requires ShortPaths(w)
  {
    && channelName == ChannelField(w.channelName(c))
    && name == RecordName(w.recordPath, start, i, channel, w.channelName(c), ".ts")
  }

  /** A log's row and file: the row's channel is the tuned one. */
  predicate MadeLog(name: string, start: string, channel: int, channelName: string, i: nat, w: World)
    requires ShortPaths(w)
  {
    && channelName == ChannelField(w.channelName(channel))
    && name == RecordName(w.logPath, start, i, channel, w.channelName(channel), ".log")
  }

  ghost predicate RecordingMade(name: string, row: PlaybackRow, w: World)
    requires ShortPaths(w)
  {
    exists i: nat, c: int :: MadeRecording(name, row.start, row.channel, row.channelName, i, c, w)
  }

  ghost predicate LogMade(name: string, row: LogRow, w: World)
    requires ShortPaths(w)
  {
    exists i: nat :: MadeLog(name, row.start, row.channel, row.channelName, i, w)
  }

  /** Every recorded row and every log row was made with its file. */
  ghost predicate Described(playback: Playback, log: Logs, w: World)
    requires ShortPaths(w)
  {
    && (forall q :: Get(playback, q).Some? && Get(playback, q).value.rowType == Recorded
          ==> RecordingMade(q, Get(playback, q).value, w))
    && (forall q :: Get(log, q).Some? ==> LogMade(q, Get(log, q).value, w))
  }

  /** The name behind `path/` in the argument of a command. */
  function NameOf(path: string, arg: string): string
  {
    if |path| < |arg| then arg[|path| + 1..] else ""
  }

  lemma NameBehindPath(path: string, name: string)
    ensures NameOf(path, path + "/" + name) == name
  {
  }

  /** The file a start command asks for has a row. */
  predicate HasRow(c: Command, playback: Playback, log: Logs, w: World)
  {
    && (c.AvRecordStart? ==>
          var name := NameOf(w.recordPath, c.arg); c.arg == w.recordPath + "/" + name && Get(playback, name).Some?)
    && (c.LoudnessLogStart? ==>
          var name := NameOf(w.logPath, c.arg); c.arg == w.logPath + "/" + name && Get(log, name).Some?)
  }

  ghost predicate AllListed(commands: seq<Command>, playback: Playback, log: Logs, w: World)
  {
    forall k :: 0 <= k < |commands| ==> HasRow(commands[k], playback, log, w)
  }

  /** Rows do not vanish. */
  ghost predicate RowsStay(d: Desk, r: Desk)
  {
    && (forall q :: Get(d.playback, q).Some? ==> Get(r.playback, q).Some?)
    && (forall q :: Get(d.log, q).Some? ==> Get(r.log, q).Some?)
  }

  /** What every action of one card keeps. */
  ghost predicate Keeps(d: Desk, r: Desk, w: World)
    requires ShortPaths(w)
  {
    && RowsStay(d, r)
    && (Described(d.playback, d.log, w) ==> Described(r.playback, r.log, w))
    && (WritesSucceed(w) && AllListed(d.card.sent, d.playback, d.log, w) ==> AllListed(r.card.sent, r.playback, r.log, w))
  }

  lemma Then(d: Desk, e: Desk, r: Desk, w: World)
    requires ShortPaths(w) && Keeps(d, e, w) && Keeps(e, r, w)
    ensures Keeps(d, r, w)
  {
  }

  /** Files keep their rows. */
  lemma StillListed(commands: seq<Command>, d: Desk, r: Desk, w: World)
    requires RowsStay(d, r) && AllListed(commands, d.playback, d.log, w)
    ensures AllListed(commands, r.playback, r.log, w)
  {
    forall k | 0 <= k < |commands| ensures HasRow(commands[k], r.playback, r.log, w) {
      assert HasRow(commands[k], d.playback, d.log, w);
    }
  }

  // ----- single actions -------------------------------------------------------------------------------------------

  /** Any command but the two that ask for catalogued files. */
  lemma SendKeeps(d: Desk, c: Command, w: World)
    requires ShortPaths(w) && !c.AvRecordStart? && !c.LoudnessLogStart?
    ensures Keeps(d, Send(d, c, w).0, w)
  {
  }

  lemma CloseRecordingKeeps(d: Desk, w: World)
    requires ShortPaths(w)
    ensures Keeps(d, CloseRecording(d, w), w)
  {
    var name, end := d.card.status.avRecordName, w.stamp(d.turn);
    forall q ensures Get(EndPlayback(d.playback, name, end), q) ==
                     match Get(d.playback, q) case None => None
                                              case Some(r) => Some(if q == name then r.(end := end) else r)
    {
      GetUpdate(d.playback, name, (r: PlaybackRow) => r.(end := end), q);
    }
  }

  lemma CloseLogKeeps(d: Desk, w: World)
    requires ShortPaths(w)
    ensures Keeps(d, CloseLog(d, w), w)
  {
    var name, end := d.card.status.loudnessLogName, w.stamp(d.turn);
    forall q ensures Get(EndLog(d.log, name, end), q) ==
                     match Get(d.log, q) case None => None
                                         case Some(r) => Some(if q == name then r.(end := end) else r)
    {
      GetUpdate(d.log, name, (r: LogRow) => r.(end := end), q);
    }
  }

  lemma WriteProgramKeeps(d: Desk, e: Epg, w: World)
    requires ShortPaths(w)
    ensures Keeps(d, WriteProgram(d, e, w), w)
  {
    var name := d.card.status.avRecordName;
    var f := (r: PlaybackRow) => r.(programName := e.name, programStart := w.text(e.start), programEnd := w.text(e.end));
    forall q ensures Get(SetProgram(d.playback, name, e, w.text), q) ==
                     match Get(d.playback, q) case None => None case Some(r) => Some(if q == name then f(r) else r)
    {
      GetUpdate(d.playback, name, f, q);
    }
  }

  lemma UpsertRecording(d: Desk, i: nat, channel: int, w: World)
    requires ShortPaths(w) && Described(d.playback, d.log, w)
    ensures Described(Upsert(d.playback, RecordingName(d, i, channel, w), RecordingRow(d, i, channel, w)), d.log, w)
  {
    var name, row := RecordingName(d, i, channel, w), RecordingRow(d, i, channel, w);
    assert MadeRecording(name, row.start, row.channel, row.channelName, i, d.card.status.channel, w);
    forall q ensures Get(Upsert(d.playback, name, row), q) == if q == name then Some(row) else Get(d.playback, q) {
      GetUpsert(d.playback, name, row, q);
    }
  }

  lemma StartRecordingKeeps(d: Desk, i: nat, channel: int, w: World)
    requires ShortPaths(w)
    ensures Keeps(d, StartRecording(d, i, channel, w), w)
  {
    var name, row := RecordingName(d, i, channel, w), RecordingRow(d, i, channel, w);
    forall q ensures Get(Upsert(d.playback, name, row), q) == if q == name then Some(row) else Get(d.playback, q) {
      GetUpsert(d.playback, name, row, q);
    }
    if Described(d.playback, d.log, w) {
      UpsertRecording(d, i, channel, w);
    }
    NameBehindPath(w.recordPath, name);
  }

  lemma UpsertLog(d: Desk, i: nat, w: World)
    requires ShortPaths(w) && Described(d.playback, d.log, w)
    ensures Described(d.playback, Upsert(d.log, LogName(d, i, w), NewLogRow(d, i, w)), w)
  {
    var name, row := LogName(d, i, w), NewLogRow(d, i, w);
    assert MadeLog(name, row.start, row.channel, row.channelName, i, w);
    forall q ensures Get(Upsert(d.log, name, row), q) == if q == name then Some(row) else Get(d.log, q) {
      GetUpsert(d.log, name, row, q);
    }
  }

  /** The commands of a new log: what was sent before, and a start whose log has a row now. */
  lemma LogListed(d: Desk, i: nat, w: World)
    requires ShortPaths(w) && WritesSucceed(w) && AllListed(d.card.sent, d.playback, d.log, w)
    ensures var r := StartLog(d, i, w); AllListed(r.card.sent, r.playback, r.log, w)
  {
    var name, r := LogName(d, i, w), StartLog(d, i, w);
    NameBehindPath(w.logPath, name);
    LogRowsStay(d, i, w);
    GetUpsert(d.log, name, NewLogRow(d, i, w), name);
    StillListed(d.card.sent, d, r, w);
    forall k | 0 <= k < |r.card.sent| ensures HasRow(r.card.sent[k], r.playback, r.log, w) {
      if k < |d.card.sent| {
        assert r.card.sent[k] == d.card.sent[k];
      }
    }
  }

  lemma LogRowsStay(d: Desk, i: nat, w: World)
    requires ShortPaths(w)
    ensures RowsStay(d, StartLog(d, i, w))
  {
    var name, row := LogName(d, i, w), NewLogRow(d, i, w);
    forall q ensures Get(Upsert(d.log, name, row), q) == if q == name then Some(row) else Get(d.log, q) {
      GetUpsert(d.log, name, row, q);
    }
  }

  lemma StartLogKeeps(d: Desk, i: nat, w: World)
    requires ShortPaths(w)
    ensures Keeps(d, StartLog(d, i, w), w)
  {
    LogRowsStay(d, i, w);
    if Described(d.playback, d.log, w) {
      UpsertLog(d, i, w);
    }
    if WritesSucceed(w) && AllListed(d.card.sent, d.playback, d.log, w) {
      LogListed(d, i, w);
    }
  }

  // ----- composed actions -------------------------------------------------------------------------------------------

  lemma StopLogKeeps(d: Desk, w: World)
    requires ShortPaths(w)
    ensures Keeps(d, StopLog(d, w), w)
  {
    var d1 := Send(d, AudioRecordEnd, w).0;
    SendKeeps(d, AudioRecordEnd, w);
    var d2 := Send(d1, LoudnessLogEnd, w).0;
    SendKeeps(d1, LoudnessLogEnd, w);
    Then(d, d1, d2, w);
    CloseLogKeeps(d2, w);
    Then(d, d2, CloseLog(d2, w), w);
    SendKeeps(CloseLog(d2, w), AnalyzerReset, w);
    Then(d, CloseLog(d2, w), StopLog(d, w), w);
  }

  lemma RetuneKeeps(d: Desk, i: nat, channel: int, w: World)
    requires ShortPaths(w)
    ensures Keeps(d, Retune(d, i, channel, w), w)
  {
    var d1 := Tuned(d, i, channel, w);
    StopLogKeeps(d1, w);
    StartLogKeeps(StopLog(d1, w), i, w);
    Then(d, d1, StopLog(d1, w), w);
    Then(d, StopLog(d1, w), Retune(d, i, channel, w), w);
  }

  lemma BeginEntryKeeps(d: Desk, i: nat, channel: int, w: World)
    requires ShortPaths(w)
    ensures Keeps(d, BeginEntry(d, i, channel, w), w)
  {
    var d1 := if channel == d.card.status.channel then d else Retune(d, i, channel, w);
    RetuneKeeps(d, i, channel, w);
    CloseRecordingKeeps(d1, w);
    StartRecordingKeeps(CloseRecording(d1, w), i, channel, w);
    Then(d, d1, CloseRecording(d1, w), w);
    Then(d, CloseRecording(d1, w), BeginEntry(d, i, channel, w), w);
  }

  lemma FinishEntryKeeps(d: Desk, w: World)
    requires ShortPaths(w)
    ensures Keeps(d, FinishEntry(d, w), w)
  {
    var d1 := Send(d, AvRecordEnd, w).0;
    SendKeeps(d, AvRecordEnd, w);
    CloseRecordingKeeps(d1, w);
    Then(d, d1, CloseRecording(d1, w), w);
    Then(d, CloseRecording(d1, w), FinishEntry(d, w), w);
  }

  lemma SplitRecordingKeeps(d: Desk, i: nat, e: Epg, w: World)
    requires ShortPaths(w)
    ensures Keeps(d, SplitRecording(d, i, e, w), w)
  {
    var d1 := Send(d, AnalyzerReset, w).0;
    SendKeeps(d, AnalyzerReset, w);
    if d1.card.status.recording {
      CloseRecordingKeeps(d1, w);
      Then(d, d1, CloseRecording(d1, w), w);
      var d2 := StartRecording(CloseRecording(d1, w), i, d.card.currentSchedule.channel, w);
      StartRecordingKeeps(CloseRecording(d1, w), i, d.card.currentSchedule.channel, w);
      Then(d, CloseRecording(d1, w), d2, w);
      WriteProgramKeeps(d2, e, w);
      Then(d, d2, WriteProgram(d2, e, w), w);
    }
  }

  // ----- the whole state ------------------------------------------------------------------------------------------------

  ghost predicate InOrder(s: State, w: World)
    requires ShortPaths(w)
  {
    && Described(s.playback, s.log, w)
    && (WritesSucceed(w) ==> forall i :: 0 <= i < |s.cards| ==> AllListed(s.cards[i].sent, s.playback, s.log, w))
  }

  lemma PutInOrder(s: State, i: nat, d: Desk, w: World)
    requires i < |s.cards| && ShortPaths(w) && InOrder(s, w) && Keeps(At(s, i), d, w)
    ensures InOrder(Put(s, i, d), w)
  {
    if WritesSucceed(w) {
      forall j | 0 <= j < |s.cards| ensures AllListed(Put(s, i, d).cards[j].sent, d.playback, d.log, w) {
        if j != i {
          StillListed(s.cards[j].sent, At(s, i), d, w);
        }
      }
    }
  }

  /** Neither the status table nor a card's other fields matter. */
  lemma SameRows(s: State, r: State, w: World)
    requires ShortPaths(w) && InOrder(s, w) && |r.cards| == |s.cards| && r.playback == s.playback && r.log == s.log
    requires forall i :: 0 <= i < |s.cards| ==> r.cards[i].sent == s.cards[i].sent
    ensures InOrder(r, w)
  {
  }

  lemma ScheduleStepInOrder(s: State, i: nat, now: int, w: World)
    requires i < |s.cards| && ShortPaths(w) && InOrder(s, w)
    ensures InOrder(ScheduleStep(s, i, now, w), w)
  {
    hide BeginEntry, FinishEntry, Keeps, SetStatus;
    match CurrentSchedule(s.schedule, i, now)
    case Some(entry) =>
      if Differs(s.cards[i], entry) {
        var s1 := Put(s, i, BeginEntry(At(s, i), i, entry.channel, w));
        BeginEntryKeeps(At(s, i), i, entry.channel, w);
        PutInOrder(s, i, BeginEntry(At(s, i), i, entry.channel, w), w);
        SameRows(s1, NewSchedule(s, i, entry, w), w);
      }
    case None =>
      if s.cards[i].status.recording {
        var s1 := Put(s, i, FinishEntry(At(s, i), w));
        FinishEntryKeeps(At(s, i), w);
        PutInOrder(s, i, FinishEntry(At(s, i), w), w);
        SameRows(s1, SaveStatus(s1, w), w);
      }
  }

  lemma FirstProgramInOrder(s: State, i: nat, e: Epg, w: World)
    requires i < |s.cards| && ShortPaths(w) && InOrder(s, w)
    ensures InOrder(FirstProgram(s, i, e, w), w)
  {
    var s1 := Put(s, i, WriteProgram(At(s, i), e, w));
    WriteProgramKeeps(At(s, i), e, w);
    PutInOrder(s, i, WriteProgram(At(s, i), e, w), w);
    SameRows(s1, SaveStatus(s1, w), w);
  }

  lemma NewProgramInOrder(s: State, i: nat, e: Epg, w: World)
    requires i < |s.cards| && ShortPaths(w) && InOrder(s, w)
    ensures InOrder(NewProgram(s, i, e, w), w)
  {
    var d := SplitRecording(At(s, i), i, e, w);
    SplitRecordingKeeps(At(s, i), i, e, w);
    PutInOrder(s, i, d, w);
    SameRows(Put(s, i, d), NewProgram(s, i, e, w), w);
  }

  lemma GuideStepInOrder(s: State, i: nat, now: int, w: World)
    requires i < |s.cards| && ShortPaths(w) && InOrder(s, w)
    ensures InOrder(GuideStep(s, i, now, w), w)
  {
    match CurrentEpg(s.guide, i, now)
    case None =>
    case Some(e) =>
      var s1 := FirstProgram(s, i, e, w);
      FirstProgramInOrder(s, i, e, w);
      var s2 := WithEpg(s1, i, Remembered(s1.cards[i], e));
      SameRows(s1, s2, w);
      NewProgramInOrder(s2, i, e, w);
  }

  lemma {:induction false} TickInOrder(s: State, i: nat, now: seq<Clocks>, w: World)
    requires i <= |s.cards| == |now| && ShortPaths(w) && InOrder(s, w)
    ensures InOrder(TickFrom(s, i, now, w), w)
    decreases |s.cards| - i
  {
    if i == |s.cards| {
    } else {
      ScheduleStepInOrder(s, i, now[i].schedule, w);
      GuideStepInOrder(ScheduleStep(s, i, now[i].schedule, w), i, now[i].guide, w);
      TickInOrder(CardTick(s, i, now[i], w), i + 1, now, w);
    }
  }

  lemma {:induction false} ChangeChannelsInOrder(s: State, items: seq<(nat, int)>, w: World)
    requires ShortPaths(w) && InOrder(s, w)
    ensures InOrder(ChangeChannels(s, items, w), w)
    decreases |items|
  {
    if items == [] {
    } else {
      var (i, channel) := items[0];
      if i < |s.cards| && channel != s.cards[i].status.channel {
        RetuneKeeps(At(s, i), i, channel, w);
        PutInOrder(s, i, Retune(At(s, i), i, channel, w), w);
        ChangeChannelsInOrder(Put(s, i, Retune(At(s, i), i, channel, w)), items[1..], w);
      } else {
        ChangeChannelsInOrder(s, items[1..], w);
      }
    }
  }

  lemma {:induction false} StartLogsInOrder(s: State, i: nat, w: World)
    requires i <= |s.cards| && ShortPaths(w) && InOrder(s, w)
    ensures InOrder(StartLogs(s, i, w), w)
    decreases |s.cards| - i
  {
    if i == |s.cards| {
    } else {
      var d := CloseLog(At(s, i), w);
      CloseLogKeeps(At(s, i), w);
      StartLogKeeps(d, i, w);
      Then(At(s, i), d, StartLog(d, i, w), w);
      PutInOrder(s, i, StartLog(d, i, w), w);
      StartLogsInOrder(Put(s, i, StartLog(d, i, w)), i + 1, w);
    }
  }

  lemma StartupInOrder(s: State, w: World)
    requires ShortPaths(w) && InOrder(s, w)
    ensures InOrder(Startup(s, w), w)
  {
    SameRows(s, Load(s), w);
    StartLogsInOrder(Load(s), 0, w);
    SameRows(StartLogs(Load(s), 0, w), Startup(s, w), w);
  }

  /** Rows a user adds are not recorded rows, and take away no name. */
  lemma {:induction false} UserRowsInOrder(playback: Playback, rows: seq<(string, PlaybackRow)>, log: Logs, ok: Answers,
                                           n: nat, w: World)
    requires ShortPaths(w) && Described(playback, log, w)
    requires forall k :: 0 <= k < |rows| ==> rows[k].1.rowType == User
    ensures var r := UpsertRows(playback, rows, ok, n);
            Described(r, log, w) && forall q :: Get(playback, q).Some? ==> Get(r, q).Some?
    decreases |rows|
  {
    if rows == [] {
    } else if ok(n) {
      var (name, row) := rows[0];
      forall q ensures Get(Upsert(playback, name, row), q) == if q == name then Some(row) else Get(playback, q) {
        GetUpsert(playback, name, row, q);
      }
      UserRowsInOrder(Upsert(playback, name, row), rows[1..], log, ok, n + 1, w);
    }
  }

  lemma AddUserRowsInOrder(s: State, files: seq<UserFile>, w: World)
    requires ShortPaths(w) && InOrder(s, w)
    ensures InOrder(AddUserRows(s, files, w), w)
  {
    var r := AddUserRows(s, files, w);
    CatalogueAgreement.UserRowsAreUsers(s.playback, files);
    UserRowsInOrder(s.playback, UserRows(s.playback, files), s.log, w.writes, s.turn + |files|, w);
    if WritesSucceed(w) {
      forall i | 0 <= i < |s.cards| ensures AllListed(r.cards[i].sent, r.playback, r.log, w) {
        StillListed(s.cards[i].sent, At(s, i), At(r, i), w);
      }
    }
  }

  lemma LoudnessInOrder(s: State, name: string, loudness: real, w: World)
    requires ShortPaths(w) && InOrder(s, w)
    ensures InOrder(Step(s, LoudnessReply(name, loudness), w), w)
  {
    var r := Step(s, LoudnessReply(name, loudness), w);
    forall q ensures Get(SetLoudness(s.playback, name, loudness), q) ==
                     match Get(s.playback, q)
                     case None => None case Some(row) => Some(if q == name then row.(loudness := loudness) else row)
    {
      GetUpdate(s.playback, name, (row: PlaybackRow) => row.(loudness := loudness), q);
    }
    if WritesSucceed(w) {
      forall i | 0 <= i < |s.cards| ensures AllListed(r.cards[i].sent, r.playback, r.log, w) {
        StillListed(s.cards[i].sent, At(s, i), At(r, i), w);
      }
    }
  }

  lemma StepInOrder(s: State, ev: Event, w: World)
    requires ValidEvent(s, ev) && ShortPaths(w) && InOrder(s, w)
    ensures InOrder(Step(s, ev, w), w)
  {
    match ev
    case Tick(now) => TickInOrder(s, 0, now, w);
    case ChannelChange(items) =>
      ChangeChannelsInOrder(s, items, w);
      SameRows(ChangeChannels(s, items, w), Step(s, ev, w), w);
    case UserLoudness(files) => AddUserRowsInOrder(s, files, w);
    case ScheduleMessage(entries) => SameRows(s, Step(s, ev, w), w);
    case GuideRefresh(guide) => SameRows(s, Step(s, ev, w), w);
    case Forward(card, c) =>
      SendKeeps(At(s, card), c, w);
      PutInOrder(s, card, Send(At(s, card), c, w).0, w);
    case LoudnessReply(name, loudness) => LoudnessInOrder(s, name, loudness, w);
    case Restart => StartupInOrder(s, w);
  }

  lemma {:induction false} RunInOrder(s: State, events: seq<Event>, w: World)
    requires ShortPaths(w) && InOrder(s, w) && ValidRun(s, events, w)
    ensures InOrder(Run(s, events, w), w)
    decreases |events|
  {
    if events == [] {
    } else {
      StepInOrder(s, events[0], w);
      RunInOrder(Step(s, events[0], w), events[1..], w);
    }
  }

  // ----- the theorems ---------------------------------------------------------------------------------------------------

  /** The row describes its file: the name is the one that the row's own start, channel and channel name make. */
  predicate Describes(name: string, row: PlaybackRow, i: nat, w: World)
    requires ShortPaths(w)
  {
    name == RecordName(w.recordPath, row.start, i, row.channel, row.channelName, ".ts")
  }

  predicate DescribesLog(name: string, row: LogRow, i: nat, w: World)
    requires ShortPaths(w)
  {
    name == RecordName(w.logPath, row.start, i, row.channel, row.channelName, ".log")
  }

  lemma CatalogueInOrder(n: nat, events: seq<Event>, w: World)
    requires ShortPaths(w) && ValidRun(Startup(Empty(n), w), events, w)
    ensures var s := Run(Startup(Empty(n), w), events, w); InOrder(s, w) && |s.cards| == n
  {
    hide Startup, Step;
    EmptyInOrder(n, w);
    StartupInOrder(Empty(n), w);
    RunInOrder(Startup(Empty(n), w), events, w);
  }

  /** From an empty catalogue, over any events, whichever sends and writes fail: a recorded row was made with its file,
      for a card tuned to some channel, and it describes the file exactly if cutting that channel's name to the row's
      field does no harm. */
  lemma RowsDescribeFiles(n: nat, events: seq<Event>, w: World, name: string) returns (i: nat, c: int)
    requires ShortPaths(w) && ValidRun(Startup(Empty(n), w), events, w)
    requires var s := Run(Startup(Empty(n), w), events, w);
             Get(s.playback, name).Some? && Get(s.playback, name).value.rowType == Recorded
    ensures var row := Get(Run(Startup(Empty(n), w), events, w).playback, name).value;
            && MadeRecording(name, row.start, row.channel, row.channelName, i, c, w)
            && (Describes(name, row, i, w)
                <==> CutHarmless(w.recordPath, row.start, i, row.channel, w.channelName(c), ".ts", CHANNEL_NAME_SIZE))
  {
    hide Run, Startup, RecordName, CutHarmless;
    CatalogueInOrder(n, events, w);
    var row := Get(Run(Startup(Empty(n), w), events, w).playback, name).value;
    i, c :| MadeRecording(name, row.start, row.channel, row.channelName, i, c, w);
    CutNameIff(w.recordPath, row.start, i, row.channel, w.channelName(c), ".ts", CHANNEL_NAME_SIZE);
  }

  /** Likewise a log row. */
  lemma LogRowsDescribeFiles(n: nat, events: seq<Event>, w: World, name: string) returns (i: nat)
    requires ShortPaths(w) && ValidRun(Startup(Empty(n), w), events, w)
    requires Get(Run(Startup(Empty(n), w), events, w).log, name).Some?
    ensures var row := Get(Run(Startup(Empty(n), w), events, w).log, name).value;
            && MadeLog(name, row.start, row.channel, row.channelName, i, w)
            && (DescribesLog(name, row, i, w)
                <==> CutHarmless(w.logPath, row.start, i, row.channel, w.channelName(row.channel), ".log",
                                 CHANNEL_NAME_SIZE))
  {
    hide Run, Startup, RecordName, CutHarmless;
    CatalogueInOrder(n, events, w);
    var row := Get(Run(Startup(Empty(n), w), events, w).log, name).value;
    i :| MadeLog(name, row.start, row.channel, row.channelName, i, w);
    CutNameIff(w.logPath, row.start, i, row.channel, w.channelName(row.channel), ".log", CHANNEL_NAME_SIZE);
  }

  /** A recording that does not describe itself: the row of the channel with the 25-byte name. */
  lemma LongChannelRow(d: Desk, i: nat, w: World)
    requires ShortPaths(w) && |w.recordPath| < 76 && IsStamp(w.stamp(d.turn)) && i < IPC_SOCKET_COUNT
    requires w.channelName(d.card.status.channel) == DISCOVERY_ASIA
    ensures var name, row := RecordingName(d, i, DISCOVERY_ASIA_CHANNEL, w), RecordingRow(d, i, DISCOVERY_ASIA_CHANNEL, w);
            |row.channelName| == 24 && !Describes(name, row, i, w)
  {
    LongChannelName(w.recordPath, w.stamp(d.turn), i);
  }

  /** When writes succeed, every recording and log a monitor has been asked for has a row. */
  lemma EveryStartHasARow(n: nat, events: seq<Event>, w: World, i: nat)
    requires i < n && ShortPaths(w) && WritesSucceed(w) && ValidRun(Startup(Empty(n), w), events, w)
    ensures var s := Run(Startup(Empty(n), w), events, w);
            |s.cards| == n && AllListed(s.cards[i].sent, s.playback, s.log, w)
  {
    hide Run, Startup, RecordName, CutHarmless;
    CatalogueInOrder(n, events, w);
  }

  lemma EmptyInOrder(n: nat, w: World)
    requires ShortPaths(w)
    ensures InOrder(Empty(n), w)
  {
  }
}
