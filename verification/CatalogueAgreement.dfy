/** With a database that executes its statements, the open rows of the catalogue are exactly the recordings and
    logs the cards believe to be running, over any run and across restarts. */
module CatalogueAgreement {
  import opened Controller
  import opened Database
  import opened FileNames
  import opened Ipc
  import opened SavedStatuses
  import opened Schedules
  import opened Tables
  import opened Wrappers

  /** Within the names of card `i`, the open rows are the card's recording and the card's log. */
  ghost predicate CardAgrees(i: nat, status: Status, playback: Playback, log: Logs)
  {
    && (status.avRecordName != "" ==> CardOf(status.avRecordName) == i)
    && (status.loudnessLogName != "" ==> CardOf(status.loudnessLogName) == i)
    && (forall name :: CardOf(name) == i ==> (OpenPlayback(playback, name) <==> status.avRecordName == name))
    && (forall name :: CardOf(name) == i ==> (OpenLog(log, name) <==> status.loudnessLogName == name))
  }

  ghost predicate Agreement(s: State)
  {
    && |s.cards| <= IPC_SOCKET_COUNT
    && UniqueKeys(s.playback) && UniqueKeys(s.log)
    && (forall i :: 0 <= i < |s.cards| ==> CardAgrees(i, s.cards[i].status, s.playback, s.log))
    && (forall name :: OpenPlayback(s.playback, name) || OpenLog(s.log, name) ==> 0 <= CardOf(name) < |s.cards|)
  }

  ghost predicate Reliable(w: World)
  {
    TellsCards(w) && WritesSucceed(w)
  }

  // ----- the tables ------------------------------------------------------------------------------------------------------

  /** The names of the rows without an end. */
  ghost function OpenRecordings(s: State): set<string>
  {
    set row | row in s.playback && row.1.rowType == Recorded && row.1.end == "" :: row.0
  }

  ghost function OpenLogs(s: State): set<string>
  {
    set row | row in s.log && row.1.end == "" :: row.0
  }

  ghost function RecordingNames(s: State): set<string>
  {
    set j | 0 <= j < |s.cards| && s.cards[j].status.avRecordName != "" :: s.cards[j].status.avRecordName
  }

  ghost function LogNames(s: State): set<string>
  {
    set j | 0 <= j < |s.cards| && s.cards[j].status.loudnessLogName != "" :: s.cards[j].status.loudnessLogName
  }

  lemma OpenRecordingsAgree(s: State)
    requires Agreement(s)
    ensures OpenRecordings(s) == RecordingNames(s)
  {
    forall name ensures name in OpenRecordings(s) <==> name in RecordingNames(s) {
      if name in OpenRecordings(s) {
        var row :| row in s.playback && row.1.rowType == Recorded && row.1.end == "" && row.0 == name;
        GetIsMembership(s.playback, name, row.1);
        assert OpenPlayback(s.playback, name);
        assert CardAgrees(CardOf(name), s.cards[CardOf(name)].status, s.playback, s.log);
      }
      if name in RecordingNames(s) {
        var j :| 0 <= j < |s.cards| && s.cards[j].status.avRecordName != "" && s.cards[j].status.avRecordName == name;
        assert CardAgrees(j, s.cards[j].status, s.playback, s.log);
        GetMember(s.playback, name);
      }
    }
  }

  lemma OpenLogsAgree(s: State)
    requires Agreement(s)
    ensures OpenLogs(s) == LogNames(s)
  {
    forall name ensures name in OpenLogs(s) <==> name in LogNames(s) {
      if name in OpenLogs(s) {
        var row :| row in s.log && row.1.end == "" && row.0 == name;
        GetIsMembership(s.log, name, row.1);
        assert OpenLog(s.log, name);
        assert CardAgrees(CardOf(name), s.cards[CardOf(name)].status, s.playback, s.log);
      }
      if name in LogNames(s) {
        var j :| 0 <= j < |s.cards| && s.cards[j].status.loudnessLogName != "" && s.cards[j].status.loudnessLogName == name;
        assert CardAgrees(j, s.cards[j].status, s.playback, s.log);
        GetMember(s.log, name);
      }
    }
  }

  // ----- single actions ---------------------------------------------------------------------------------------------------

  ghost predicate DeskAgrees(i: nat, d: Desk)
  {
    && UniqueKeys(d.playback) && UniqueKeys(d.log)
    && CardAgrees(i, d.card.status, d.playback, d.log)
  }

  /** The names of other cards are open or not as before. */
  ghost predicate OthersOpen(i: nat, d: Desk, r: Desk)
  {
    && (forall name :: CardOf(name) != i ==> (OpenPlayback(r.playback, name) <==> OpenPlayback(d.playback, name)))
    && (forall name :: CardOf(name) != i ==> (OpenLog(r.log, name) <==> OpenLog(d.log, name)))
  }

  /** An action of card `i` that keeps its part of the agreement and does not touch anybody else's. */
  ghost predicate Keeps(i: nat, d: Desk, r: Desk)
  {
    DeskAgrees(i, r) && OthersOpen(i, d, r)
  }

  lemma PutAgrees(s: State, i: nat, d: Desk)
    requires Agreement(s) && i < |s.cards| && Keeps(i, At(s, i), d)
    ensures Agreement(Put(s, i, d))
  {
    var r := Put(s, i, d);
    forall j | 0 <= j < |r.cards| ensures CardAgrees(j, r.cards[j].status, r.playback, r.log) {
      assert CardAgrees(j, s.cards[j].status, s.playback, s.log);
    }
  }

  lemma CloseRecordingKeeps(i: nat, d: Desk, w: World)
    requires DeskAgrees(i, d) && Reliable(w)
    ensures var r := CloseRecording(d, w); Keeps(i, d, r) && r.card.status.avRecordName == ""
  {
    var name, end := d.card.status.avRecordName, w.stamp(d.turn);
    assert IsStamp(end);
    UpdateUnique(d.playback, name, (row: PlaybackRow) => row.(end := end));
    forall q ensures OpenPlayback(EndPlayback(d.playback, name, end), q) <==> OpenPlayback(d.playback, q) && q != name {
      EndPlaybackOpen(d.playback, name, end, q);
    }
  }

  lemma CloseLogKeeps(i: nat, d: Desk, w: World)
    requires DeskAgrees(i, d) && Reliable(w)
    ensures var r := CloseLog(d, w); Keeps(i, d, r) && r.card.status.loudnessLogName == ""
  {
    var name, end := d.card.status.loudnessLogName, w.stamp(d.turn);
    assert IsStamp(end);
    UpdateUnique(d.log, name, (row: LogRow) => row.(end := end));
    forall q ensures OpenLog(EndLog(d.log, name, end), q) <==> OpenLog(d.log, q) && q != name {
      EndLogOpen(d.log, name, end, q);
    }
  }

  lemma StartRecordingKeeps(i: nat, d: Desk, channel: int, w: World)
    requires i < IPC_SOCKET_COUNT && DeskAgrees(i, d) && Reliable(w) && d.card.status.avRecordName == ""
    ensures Keeps(i, d, StartRecording(d, i, channel, w))
  {
    var name, row := RecordingName(d, i, channel, w), RecordingRow(d, i, channel, w);
    RecordNameNamesCard(w.recordPath, w.stamp(d.turn), i, channel, w.channelName(d.card.status.channel), ".ts");
    UpsertUnique(d.playback, name, row);
    forall q ensures OpenPlayback(Upsert(d.playback, name, row), q) <==> q == name || OpenPlayback(d.playback, q) {
      GetUpsert(d.playback, name, row, q);
    }
  }

  lemma UpsertedLog(log: Logs, name: string, row: LogRow)
    requires UniqueKeys(log) && row.end == ""
    ensures UniqueKeys(Upsert(log, name, row))
    ensures forall q :: OpenLog(Upsert(log, name, row), q) <==> q == name || OpenLog(log, q)
  {
    UpsertUnique(log, name, row);
    forall q ensures OpenLog(Upsert(log, name, row), q) <==> q == name || OpenLog(log, q) {
      GetUpsert(log, name, row, q);
    }
  }

  lemma StartLogKeeps(i: nat, d: Desk, w: World)
    requires i < IPC_SOCKET_COUNT && DeskAgrees(i, d) && Reliable(w) && d.card.status.loudnessLogName == ""
    ensures Keeps(i, d, StartLog(d, i, w))
  {
    hide RecordName, Upsert, UniqueKeys, OpenLog, OpenPlayback;
    var name, row, channel := LogName(d, i, w), NewLogRow(d, i, w), d.card.status.channel;
    RecordNameNamesCard(w.logPath, w.stamp(d.turn), i, channel, w.channelName(channel), ".log");
    UpsertedLog(d.log, name, row);
  }

  lemma WriteProgramKeeps(i: nat, d: Desk, e: Epg, w: World)
    requires DeskAgrees(i, d)
    ensures Keeps(i, d, WriteProgram(d, e, w))
  {
    var name := d.card.status.avRecordName;
    UpdateUnique(d.playback, name, (row: PlaybackRow) =>
      row.(programName := e.name, programStart := w.text(e.start), programEnd := w.text(e.end)));
    forall q ensures OpenPlayback(SetProgram(d.playback, name, e, w.text), q) <==> OpenPlayback(d.playback, q) {
      SetProgramOpen(d.playback, name, e, w.text, q);
    }
  }

  lemma RetuneKeeps(i: nat, d: Desk, channel: int, w: World)
    requires i < IPC_SOCKET_COUNT && DeskAgrees(i, d) && Reliable(w)
    ensures Keeps(i, d, Retune(d, i, channel, w))
  {
    var d1 := Send(Send(Tuned(d, i, channel, w), AudioRecordEnd, w).0, LoudnessLogEnd, w).0;
    assert Keeps(i, d, d1);
    CloseLogKeeps(i, d1, w);
    StartLogKeeps(i, Send(CloseLog(d1, w), AnalyzerReset, w).0, w);
  }

  lemma BeginEntryKeeps(i: nat, d: Desk, channel: int, w: World)
    requires i < IPC_SOCKET_COUNT && DeskAgrees(i, d) && Reliable(w)
    ensures Keeps(i, d, BeginEntry(d, i, channel, w))
  {
    var d1 := if channel == d.card.status.channel then d else Retune(d, i, channel, w);
    RetuneKeeps(i, d, channel, w);
    CloseRecordingKeeps(i, d1, w);
    StartRecordingKeeps(i, CloseRecording(d1, w), channel, w);
  }

  lemma FinishEntryKeeps(i: nat, d: Desk, w: World)
    requires DeskAgrees(i, d) && Reliable(w)
    ensures Keeps(i, d, FinishEntry(d, w))
  {
    CloseRecordingKeeps(i, Send(d, AvRecordEnd, w).0, w);
  }

  lemma SplitRecordingKeeps(i: nat, d: Desk, e: Epg, w: World)
    requires i < IPC_SOCKET_COUNT && DeskAgrees(i, d) && Reliable(w)
    ensures Keeps(i, d, SplitRecording(d, i, e, w))
  {
    var d1 := Send(d, AnalyzerReset, w).0;
    if d1.card.status.recording {
      CloseRecordingKeeps(i, d1, w);
      var d2 := CloseRecording(d1, w);
      StartRecordingKeeps(i, d2, d.card.currentSchedule.channel, w);
      WriteProgramKeeps(i, StartRecording(d2, i, d.card.currentSchedule.channel, w), e, w);
    }
  }

  lemma SaveAgrees(s: State, w: World)
    requires Agreement(s) && Reliable(w) && UniqueKeys(s.statusTable)
    ensures Good(SaveStatus(s, w))
  {
    SaveSaves(s, w);
  }

  // ----- one turn ----------------------------------------------------------------------------------------------------------

  /** Agreement, with everything saved. */
  ghost predicate Good(s: State) { Agreement(s) && Saved(s) }

  /** An action of card `i`, then a save. */
  lemma PutAndSaveGood(s: State, i: nat, d: Desk, w: World)
    requires Good(s) && i < |s.cards| && Keeps(i, At(s, i), d) && Reliable(w)
    ensures Good(SaveStatus(Put(s, i, d), w))
  {
    PutAgrees(s, i, d);
    SaveAgrees(Put(s, i, d), w);
  }

  lemma DeskOf(s: State, i: nat)
    requires Agreement(s) && i < |s.cards|
    ensures DeskAgrees(i, At(s, i))
  {
  }

  lemma SameStatusGood(s: State, i: nat, card: Card)
    requires Good(s) && i < |s.cards| && card.status == s.cards[i].status
    ensures Good(s.(cards := s.cards[i := card]))
  {
  }

  lemma ScheduleStepGood(s: State, i: nat, now: int, w: World)
    requires i < |s.cards| && Good(s) && Reliable(w)
    ensures Good(ScheduleStep(s, i, now, w))
  {
    var d := At(s, i);
    DeskOf(s, i);
    match CurrentSchedule(s.schedule, i, now)
    case Some(entry) =>
      BeginEntryKeeps(i, d, entry.channel, w);
      var d1 := BeginEntry(d, i, entry.channel, w);
      PutAndSaveGood(s, i, d1, w);
      var s1 := SaveStatus(Put(s, i, d1), w);
      var card := s1.cards[i];
      SameStatusGood(s1, i, card.(currentSchedule := entry, started := card.started + [entry]));
    case None =>
      FinishEntryKeeps(i, d, w);
      PutAndSaveGood(s, i, FinishEntry(d, w), w);
  }

  lemma NewProgramGood(s: State, i: nat, e: Epg, w: World)
    requires i < |s.cards| && Good(s) && Reliable(w)
    ensures Good(NewProgram(s, i, e, w))
  {
    DeskOf(s, i);
    SplitRecordingKeeps(i, At(s, i), e, w);
    PutAndSaveGood(s, i, SplitRecording(At(s, i), i, e, w), w);
    var s1 := SaveStatus(Put(s, i, SplitRecording(At(s, i), i, e, w)), w);
    SameStatusGood(s1, i, s1.cards[i].(currentEpg := e));
  }

  lemma FirstProgramGood(s: State, i: nat, e: Epg, w: World)
    requires i < |s.cards| && Good(s) && Reliable(w)
    ensures Good(FirstProgram(s, i, e, w))
  {
    DeskOf(s, i);
    WriteProgramKeeps(i, At(s, i), e, w);
    PutAndSaveGood(s, i, WriteProgram(At(s, i), e, w), w);
  }

  lemma GuideStepGood(s: State, i: nat, now: int, w: World)
    requires i < |s.cards| && Good(s) && Reliable(w)
    ensures Good(GuideStep(s, i, now, w))
  {
    match CurrentEpg(s.guide, i, now)
    case None =>
    case Some(e) =>
      FirstProgramGood(s, i, e, w);
      var s1 := FirstProgram(s, i, e, w);
      SameStatusGood(s1, i, s1.cards[i].(currentEpg := Remembered(s1.cards[i], e)));
      NewProgramGood(WithEpg(s1, i, Remembered(s1.cards[i], e)), i, e, w);
  }

  lemma CardTickGood(s: State, i: nat, now: Clocks, w: World)
    requires i < |s.cards| && Good(s) && Reliable(w)
    ensures Good(CardTick(s, i, now, w))
  {
    ScheduleStepGood(s, i, now.schedule, w);
    GuideStepGood(ScheduleStep(s, i, now.schedule, w), i, now.guide, w);
  }

  lemma {:induction false} TickGood(s: State, i: nat, now: seq<Clocks>, w: World)
    requires i <= |s.cards| == |now| && Good(s) && Reliable(w)
    ensures Good(TickFrom(s, i, now, w))
    decreases |s.cards| - i
  {
    if i == |s.cards| {
    } else {
      CardTickGood(s, i, now[i], w);
      TickGood(CardTick(s, i, now[i], w), i + 1, now, w);
    }
  }

  // ----- the other events ----------------------------------------------------------------------------------------------------

  lemma {:induction false} ChangeChannelsAgrees(s: State, items: seq<(nat, int)>, w: World)
    requires Agreement(s) && Reliable(w)
    ensures var r := ChangeChannels(s, items, w); Agreement(r) && r.statusTable == s.statusTable
    decreases |items|
  {
    if items == [] {
    } else {
      var (i, channel) := items[0];
      if i < |s.cards| && channel != s.cards[i].status.channel {
        DeskOf(s, i);
        RetuneKeeps(i, At(s, i), channel, w);
        PutAgrees(s, i, Retune(At(s, i), i, channel, w));
        ChangeChannelsAgrees(Put(s, i, Retune(At(s, i), i, channel, w)), items[1..], w);
      } else {
        ChangeChannelsAgrees(s, items[1..], w);
      }
    }
  }

  lemma LoadAgrees(s: State)
    requires Good(s)
    ensures Agreement(Load(s))
  {
    var blank := seq(|s.cards|, _ => NO_STATUS);
    forall j | 0 <= j < |s.cards| ensures Load(s).cards[j].status == s.cards[j].status {
      LoadedStatus(s.statusTable, blank, j);
    }
  }

  lemma OneLogAgrees(s: State, i: nat, w: World)
    requires i < |s.cards| && Agreement(s) && Reliable(w)
    ensures Agreement(Put(s, i, StartLog(CloseLog(At(s, i), w), i, w)))
  {
    var d := At(s, i);
    DeskOf(s, i);
    CloseLogKeeps(i, d, w);
    StartLogKeeps(i, CloseLog(d, w), w);
    PutAgrees(s, i, StartLog(CloseLog(d, w), i, w));
  }

  lemma {:induction false} StartLogsAgrees(s: State, i: nat, w: World)
    requires i <= |s.cards| && Agreement(s) && Reliable(w)
    ensures var r := StartLogs(s, i, w); Agreement(r) && r.statusTable == s.statusTable
    decreases |s.cards| - i
  {
    hide StartLog, CloseLog, Agreement;
    if i == |s.cards| {
    } else {
      OneLogAgrees(s, i, w);
      StartLogsAgrees(Put(s, i, StartLog(CloseLog(At(s, i), w), i, w)), i + 1, w);
    }
  }

  lemma StartupGood(s: State, w: World)
    requires Good(s) && Reliable(w)
    ensures Good(Startup(s, w))
  {
    LoadAgrees(s);
    StartLogsAgrees(Load(s), 0, w);
    SaveAgrees(StartLogs(Load(s), 0, w), w);
  }

  /** None of the rows a user-loudness message adds takes the name of a running recording. */
  ghost predicate NamesApart(playback: Playback, rows: seq<(string, PlaybackRow)>)
  {
    forall k :: 0 <= k < |rows| ==> !OpenPlayback(playback, rows[k].0)
  }

  lemma {:induction false} UserRowsAreUsers(playback: Playback, files: seq<UserFile>)
    ensures forall k :: 0 <= k < |UserRows(playback, files)| ==> UserRows(playback, files)[k].1.rowType == User
  {
    if files == [] {
    } else {
      UserRowsAreUsers(playback, files[1..]);
    }
  }

  /** None of the rows has the name. */
  predicate NoneNamed(rows: seq<(string, PlaybackRow)>, q: string)
  {
    forall k :: 0 <= k < |rows| ==> rows[k].0 != q
  }

  lemma NoneNamedHead(rows: seq<(string, PlaybackRow)>, q: string)
    requires rows != []
    ensures NoneNamed(rows, q) <==> rows[0].0 != q && NoneNamed(rows[1..], q)
  {
    if rows[0].0 != q && NoneNamed(rows[1..], q) {
      forall k | 0 <= k < |rows| ensures rows[k].0 != q {
        if k > 0 { assert rows[1..][k - 1] == rows[k]; }
      }
    }
  }

  /** Adding the user's rows closes exactly the names they take. */
  lemma {:induction false} UpsertRowsOpen(playback: Playback, rows: seq<(string, PlaybackRow)>, ok: Answers, n: nat, q: string)
    requires forall m :: ok(m)
    requires forall k :: 0 <= k < |rows| ==> rows[k].1.rowType == User
    ensures var r := UpsertRows(playback, rows, ok, n);
            && (OpenPlayback(r, q) <==> OpenPlayback(playback, q) && NoneNamed(rows, q))
            && (UniqueKeys(playback) ==> UniqueKeys(r))
    decreases |rows|
  {
    if rows == [] {
    } else {
      var (name, row) := rows[0];
      GetUpsert(playback, name, row, q);
      if UniqueKeys(playback) {
        UpsertUnique(playback, name, row);
      }
      UpsertRowsOpen(Upsert(playback, name, row), rows[1..], ok, n + 1, q);
      NoneNamedHead(rows, q);
    }
  }

  lemma {:induction false} AllSucceedAlways(ok: Answers, turn: nat, n: nat)
    requires forall m :: ok(m)
    ensures AllSucceed(ok, turn, n)
    decreases n
  {
    if n > 0 {
      AllSucceedAlways(ok, turn + 1, n - 1);
    }
  }

  /** The playback rows after a user-loudness message. */
  lemma AddedRows(s: State, files: seq<UserFile>, w: World)
    requires WritesSucceed(w) && UniqueKeys(s.playback)
    ensures var rows, r := UserRows(s.playback, files), AddUserRows(s, files, w);
            && UniqueKeys(r.playback)
            && forall q :: OpenPlayback(r.playback, q) <==> OpenPlayback(s.playback, q) && NoneNamed(rows, q)
  {
    hide OpenPlayback, UniqueKeys, NoneNamed;
    var rows := UserRows(s.playback, files);
    AllSucceedAlways(w.writes, s.turn, |files|);
    UserRowsAreUsers(s.playback, files);
    forall q
      ensures var r := AddUserRows(s, files, w);
              UniqueKeys(r.playback)
              && (OpenPlayback(r.playback, q) <==> OpenPlayback(s.playback, q) && NoneNamed(rows, q))
    {
      UpsertRowsOpen(s.playback, rows, w.writes, s.turn + |files|, q);
    }
    UpsertRowsOpen(s.playback, rows, w.writes, s.turn + |files|, "");
  }

  lemma UserRowsKeepGood(s: State, files: seq<UserFile>, w: World)
    requires Good(s) && WritesSucceed(w) && NamesApart(s.playback, UserRows(s.playback, files))
    ensures Good(AddUserRows(s, files, w))
  {
    AddedRows(s, files, w);
    SameOpenGood(s, AddUserRows(s, files, w));
  }

  /** A row of the user's that takes the name of a running recording: the recording's row is open no longer. */
  lemma NameTaken(s: State, files: seq<UserFile>, w: World, k: nat)
    requires Good(s) && WritesSucceed(w) && k < |UserRows(s.playback, files)|
    requires OpenPlayback(s.playback, UserRows(s.playback, files)[k].0)
    ensures var r, name := AddUserRows(s, files, w), UserRows(s.playback, files)[k].0;
            name in RecordingNames(r) && name !in OpenRecordings(r)
  {
    var r, name := AddUserRows(s, files, w), UserRows(s.playback, files)[k].0;
    AddedRows(s, files, w);
    var j := CardOf(name);
    assert CardAgrees(j, s.cards[j].status, s.playback, s.log);
    if name in OpenRecordings(r) {
      var row :| row in r.playback && row.1.rowType == Recorded && row.1.end == "" && row.0 == name;
      GetIsMembership(r.playback, name, row.1);
    }
  }

  /** The exact condition on user-loudness names: after the message the open rows are still those the cards name if and
      only if none of the added rows takes the name of a running recording. */
  lemma UserRowsAgreeIff(s: State, files: seq<UserFile>, w: World)
    requires Good(s) && WritesSucceed(w)
    ensures var r := AddUserRows(s, files, w);
            OpenRecordings(r) == RecordingNames(r) && OpenLogs(r) == LogNames(r)
            <==> NamesApart(s.playback, UserRows(s.playback, files))
  {
    var rows, r := UserRows(s.playback, files), AddUserRows(s, files, w);
    if NamesApart(s.playback, rows) {
      UserRowsKeepGood(s, files, w);
      OpenRecordingsAgree(r);
      OpenLogsAgree(r);
    } else {
      var k :| 0 <= k < |rows| && OpenPlayback(s.playback, rows[k].0);
      NameTaken(s, files, w, k);
    }
  }

  /** One card that records, and nothing else. */
  function Recording(name: string): State
  {
    var status := Status(0, true, name, "", true);
    State([Card(status, NO_SCHEDULE, NO_EPG, [], [])], [], [], [(0, status)], [],
          [(name, PlaybackRow("", "", 0, "", "", "", "", 0.0, 0.0, Recorded))], [], 0)
  }

  /** A message on which the agreement fails: a file under the name of the recording it was measured on. */
  lemma SameNameTakesRow(w: World)
    requires WritesSucceed(w)
    ensures var name := "19700101000000_0_0_.ts";
            var r := AddUserRows(Recording(name), [UserFile(name, name)], w);
            Good(Recording(name)) && OpenRecordings(r) != RecordingNames(r)
  {
    var name := "19700101000000_0_0_.ts";
    var s := Recording(name);
    assert CardOf(name) == 0;
    assert Get(s.playback, name) == Some(s.playback[0].1) && s.playback[1..] == [];
    assert Good(s);
    var files := [UserFile(name, name)];
    assert files[1..] == [] && UserRows(s.playback, []) == [];
    assert UserRows(s.playback, files)[0].0 == name;
    NameTaken(s, files, w, 0);
  }

  lemma SameOpenGood(s: State, r: State)
    requires Good(s) && r.cards == s.cards && r.statusTable == s.statusTable && r.log == s.log
    requires UniqueKeys(r.playback) && forall q :: OpenPlayback(r.playback, q) <==> OpenPlayback(s.playback, q)
    ensures Good(r)
  {
    forall j | 0 <= j < |r.cards| ensures CardAgrees(j, r.cards[j].status, r.playback, r.log) {
      assert CardAgrees(j, s.cards[j].status, s.playback, s.log);
    }
  }

  lemma LoudnessGood(s: State, name: string, loudness: real, w: World)
    requires Good(s) && Sane(w)
    ensures Good(Step(s, LoudnessReply(name, loudness), w))
  {
    UpdateUnique(s.playback, name, (row: PlaybackRow) => row.(loudness := loudness));
    forall q ensures OpenPlayback(SetLoudness(s.playback, name, loudness), q) <==> OpenPlayback(s.playback, q) {
      SetLoudnessOpen(s.playback, name, loudness, q);
    }
    SameOpenGood(s, Step(s, LoudnessReply(name, loudness), w));
  }

  /** The user's names stay apart from the names of running recordings throughout the run. */
  ghost predicate NamesApartThroughout(s: State, events: seq<Event>, w: World)
    requires Sane(w)
    decreases |events|
  {
    events == [] ||
    (&& ValidEvent(s, events[0])
     && (events[0].UserLoudness? ==> NamesApart(s.playback, UserRows(s.playback, events[0].files)))
     && NamesApartThroughout(Step(s, events[0], w), events[1..], w))
  }

  lemma StepGood(s: State, ev: Event, w: World)
    requires ValidEvent(s, ev) && Good(s) && Reliable(w)
    requires ev.UserLoudness? ==> NamesApart(s.playback, UserRows(s.playback, ev.files))
    ensures Good(Step(s, ev, w))
  {
    match ev
    case Tick(now) => TickGood(s, 0, now, w);
    case ChannelChange(items) =>
      ChangeChannelsAgrees(s, items, w);
      SaveAgrees(ChangeChannels(s, items, w), w);
    case UserLoudness(files) => UserRowsKeepGood(s, files, w);
    case ScheduleMessage(entries) =>
    case GuideRefresh(guide) =>
    case Forward(card, c) => SameStatusGood(s, card, Send(At(s, card), c, w).0.card);
    case LoudnessReply(name, loudness) => LoudnessGood(s, name, loudness, w);
    case Restart => StartupGood(s, w);
  }

  lemma {:induction false} RunGood(s: State, events: seq<Event>, w: World)
    requires Good(s) && Reliable(w) && ValidRun(s, events, w) && NamesApartThroughout(s, events, w)
    ensures Good(Run(s, events, w))
    decreases |events|
  {
    if events == [] {
    } else {
      StepGood(s, events[0], w);
      RunGood(Step(s, events[0], w), events[1..], w);
    }
  }

  lemma EmptyGood(n: nat)
    requires n <= IPC_SOCKET_COUNT
    ensures Good(Empty(n))
  {
  }

  /** From an empty database, whatever sends fail: after start-up and any events, restarts included, the recorded
      rows without an end are those named by the cards' recordings, and the log rows without an end those named
      by the cards' logs. */
  lemma CatalogueAgrees(n: nat, events: seq<Event>, w: World)
    requires n <= IPC_SOCKET_COUNT && Reliable(w)
    requires ValidRun(Startup(Empty(n), w), events, w) && NamesApartThroughout(Startup(Empty(n), w), events, w)
    ensures var s := Run(Startup(Empty(n), w), events, w);
            OpenRecordings(s) == RecordingNames(s) && OpenLogs(s) == LogNames(s)
  {
    EmptyGood(n);
    StartupGood(Empty(n), w);
    RunGood(Startup(Empty(n), w), events, w);
    var s := Run(Startup(Empty(n), w), events, w);
    OpenRecordingsAgree(s);
    OpenLogsAgree(s);
  }
}
