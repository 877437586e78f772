/** The controller's main loop as the program it is (controller/main.c): arrays of statuses, schedule entries and
    guide entries, changed in place. Every action is proved to do to the state what the functions of `Controller`
    say, so that what is proved about runs of those functions holds of this program. */
module ControllerMain {
  import opened Controller
  import opened Database
  import opened FileNames
  import opened Ipc
  import opened Schedules
  import opened Tables
  import opened Wrappers

  /** Two changes to one card. */
  lemma PutTwice(s: State, i: nat, d: Desk, e: Desk)
    requires i < |s.cards|
    ensures At(Put(s, i, d), i) == d && Put(Put(s, i, d), i, e) == Put(s, i, e)
  {
  }

  lemma PutBack(s: State, i: nat)
    requires i < |s.cards|
    ensures Put(s, i, At(s, i)) == s
  {
  }

  class Main {
    const status: array<Status>
    const currentSchedule: array<Schedule>
    const currentEpg: array<Epg>
    ghost var sent: seq<seq<Command>>
    ghost var started: seq<seq<Schedule>>
    var schedule: array?<Schedule>
    var guide: Guide
    var statusTable: Table<int, Status>
    var scheduleTable: seq<Schedule>
    var playback: Playback
    var log: Logs
    var turn: nat

    ghost predicate Sized()
      reads this
    {
      status.Length == currentSchedule.Length == currentEpg.Length == |sent| == |started|
    }

    ghost predicate Valid()
      reads this, guide, schedule
    {
      && Sized()
      && (schedule != null ==> schedule != currentSchedule && Terminated(schedule[..]))
      && guide.Valid() && guide.epg != currentEpg
    }

    ghost function Cards(): (cards: seq<Card>)
      reads this, status, currentSchedule, currentEpg
      requires Sized()
      ensures |cards| == status.Length
      ensures forall i :: 0 <= i < status.Length ==>
                cards[i] == Card(status[i], currentSchedule[i], currentEpg[i], sent[i], started[i])
    {
      seq(status.Length, i requires 0 <= i < status.Length reads this, status, currentSchedule, currentEpg
                           requires Sized() =>
        Card(status[i], currentSchedule[i], currentEpg[i], sent[i], started[i]))
    }

    ghost function Value(): (s: State)
      reads this, guide, guide.epg, schedule, status, currentSchedule, currentEpg
      requires Valid()
      ensures |s.cards| == status.Length
    {
      State(Cards(), if schedule == null then [] else Entries(schedule[..]), guide.Contents(), statusTable, scheduleTable, playback, log, turn)
    }

    /** A process with an empty database. */
    constructor (n: nat)
      ensures Valid() && fresh(status) && fresh(currentSchedule) && fresh(currentEpg)
      ensures Value() == Empty(n)
    {
      status := new Status[n](_ => NO_STATUS);
      currentSchedule := new Schedule[n](_ => NO_SCHEDULE);
      currentEpg := new Epg[n](_ => NO_EPG);
      sent, started := seq(n, _ => []), seq(n, _ => []);
      schedule, statusTable, scheduleTable, playback, log, turn := null, [], [], [], [], 0;
      guide := new Guide();
      new;
      assert Cards() == Empty(n).cards;
    }

    // ----- single changes ----------------------------------------------------------------------------------------

    /** `ipc_send_message`. */
    method Transmit(i: nat, c: Command, w: World) returns (ok: bool)
      requires Valid() && i < status.Length
      modifies this
      ensures Valid()
      ensures var r := Send(old(At(Value(), i)), c, w); ok == r.1 && Value() == Put(old(Value()), i, r.0)
    {
      ok := w.sends(turn);
      turn := turn + 1;
      if ok {
        sent := sent[i := sent[i] + [c]];
      }
      assert Cards() == old(Cards())[i := Send(old(At(Value(), i)), c, w).0.card];
    }

    method StoreStatus(i: nat, st: Status)
      requires Valid() && i < status.Length
      modifies status
      ensures Valid() && Value() == Put(old(Value()), i, WithStatus(old(At(Value(), i)), st))
    {
      status[i] := st;
      assert Cards() == old(Cards())[i := old(Cards())[i].(status := st)];
    }

    method StoreEpg(i: nat, e: Epg)
      requires Valid() && i < status.Length
      modifies currentEpg
      ensures Valid() && Value() == WithEpg(old(Value()), i, e)
    {
      currentEpg[i] := e;
      assert Cards() == old(Cards())[i := old(Cards())[i].(currentEpg := e)];
    }

    method StoreSchedule(i: nat, entry: Schedule)
      requires Valid() && i < status.Length
      modifies this`started, currentSchedule
      ensures Valid()
      ensures var card := old(Cards())[i];
              Value() == old(Value()).(cards :=
                old(Cards())[i := card.(currentSchedule := entry, started := card.started + [entry])])
    {
      currentSchedule[i] := entry;
      started := started[i := started[i] + [entry]];
      var card := old(Cards())[i];
      assert Cards() == old(Cards())[i := card.(currentSchedule := entry, started := card.started + [entry])];
    }

    /** A statement on the playback list, if SQLite executes it. */
    method WritePlayback(i: nat, rows: Playback, w: World)
      requires Valid() && i < status.Length
      modifies this`playback, this`turn
      ensures Valid()
      ensures var d := old(At(Value(), i));
              Value() == Put(old(Value()), i, d.(playback := if w.writes(d.turn) then rows else d.playback, turn := d.turn + 1))
    {
      if w.writes(turn) {
        playback := rows;
      }
      turn := turn + 1;
      assert Cards() == old(Cards()) == old(Cards())[i := old(Cards())[i]];
    }

    method WriteLog(i: nat, rows: Logs, w: World)
      requires Valid() && i < status.Length
      modifies this`log, this`turn
      ensures Valid()
      ensures var d := old(At(Value(), i));
              Value() == Put(old(Value()), i, d.(log := if w.writes(d.turn) then rows else d.log, turn := d.turn + 1))
    {
      if w.writes(turn) {
        log := rows;
      }
      turn := turn + 1;
      assert Cards() == old(Cards()) == old(Cards())[i := old(Cards())[i]];
    }

    // ----- actions for one card ------------------------------------------------------------------------------------

    method EndRecordingRow(i: nat, w: World)
      requires Valid() && i < status.Length
      modifies this, status
      ensures Valid() && Value() == Put(old(Value()), i, CloseRecording(old(At(Value(), i)), w))
    {
      ghost var s := Value();
      PutBack(s, i);
      var st := status[i];
      if |st.avRecordName| > 0 {
        WritePlayback(i, EndPlayback(playback, st.avRecordName, w.stamp(turn)), w);
        PutTwice(s, i, At(Value(), i), CloseRecording(At(s, i), w));
        StoreStatus(i, st.(avRecordName := ""));
      }
    }

    method EndLogRow(i: nat, w: World)
      requires Valid() && i < status.Length
      modifies this, status
      ensures Valid() && Value() == Put(old(Value()), i, CloseLog(old(At(Value(), i)), w))
    {
      ghost var s := Value();
      PutBack(s, i);
      var st := status[i];
      if |st.loudnessLogName| > 0 {
        WriteLog(i, EndLog(log, st.loudnessLogName, w.stamp(turn)), w);
        PutTwice(s, i, At(Value(), i), CloseLog(At(s, i), w));
        StoreStatus(i, st.(loudnessLogName := ""));
      }
    }

    /** `av_record_start`, its row, and the status. */
    method AvRecordStart(i: nat, channel: int, w: World)
      requires Valid() && i < status.Length && ShortPaths(w)
      modifies this, status
      ensures Valid() && Value() == Put(old(Value()), i, StartRecording(old(At(Value(), i)), i, channel, w))
    {
      hide RecordName, Terminated, Entries;
      ghost var s := Value();
      ghost var d := At(s, i);
      var st := status[i];
      var row := PlaybackRow(w.stamp(turn), "", channel, ChannelField(w.channelName(st.channel)), "", "", "", 0.0, w.offset(i), Recorded);
      var name := RecordName(w.recordPath, w.stamp(turn), i, channel, w.channelName(st.channel), ".ts");
      var ok := Transmit(i, Command.AvRecordStart(w.recordPath + "/" + name), w);
      PutTwice(s, i, At(Value(), i), At(Value(), i));
      if ok {
        WritePlayback(i, Upsert(playback, name, row), w);
        PutTwice(s, i, Send(d, Command.AvRecordStart(w.recordPath + "/" + name), w).0, At(Value(), i));
        PutTwice(s, i, At(Value(), i), StartRecording(d, i, channel, w));
        StoreStatus(i, st.(recording := true, avRecordName := name, programDataUpdated := false));
      } else {
        PutTwice(s, i, At(Value(), i), StartRecording(d, i, channel, w));
        StoreStatus(i, st.(recording := false, avRecordName := "", programDataUpdated := true));
      }
    }

    /** `update_playback_list_program_data`. */
    method UpdateProgram(i: nat, e: Epg, w: World)
      requires Valid() && i < status.Length
      modifies this, status
      ensures Valid() && Value() == Put(old(Value()), i, WriteProgram(old(At(Value(), i)), e, w))
    {
      ghost var s := Value();
      var st := status[i];
      WritePlayback(i, SetProgram(playback, st.avRecordName, e, w.text), w);
      PutTwice(s, i, At(Value(), i), WriteProgram(At(s, i), e, w));
      StoreStatus(i, st.(programDataUpdated := true));
    }

    /** The row of a log that has started, and its name in the status. */
    method AddLogRow(i: nat, name: string, row: LogRow, w: World)
      requires Valid() && i < status.Length
      modifies this, status
      ensures Valid()
      ensures var d := old(At(Value(), i));
              Value() == Put(old(Value()), i,
                             WithStatus(d.(log := if w.writes(d.turn) then Upsert(d.log, name, row) else d.log,
                                           turn := d.turn + 1),
                                        d.card.status.(loudnessLogName := name)))
    {
      hide Upsert, Cards, Terminated, Entries;
      ghost var s := Value();
      var st := status[i];
      WriteLog(i, Upsert(log, name, row), w);
      ghost var d1 := At(Value(), i);
      PutTwice(s, i, d1, WithStatus(d1, st.(loudnessLogName := name)));
      StoreStatus(i, st.(loudnessLogName := name));
    }

    /** `loudness_log_start`, `audio_record_start`, and the row. */
    method LoudnessLogStart(i: nat, w: World)
      requires Valid() && i < status.Length && ShortPaths(w)
      modifies this, status
      ensures Valid() && Value() == Put(old(Value()), i, StartLog(old(At(Value(), i)), i, w))
    {
      hide RecordName, Upsert, Cards, Terminated, Entries;
      ghost var s := Value();
      ghost var d := At(s, i);
      var st := status[i];
      var start, channelName := w.stamp(turn), w.channelName(st.channel);
      var name := RecordName(w.logPath, start, i, st.channel, channelName, ".log");
      var ok := Transmit(i, Command.LoudnessLogStart(w.logPath + "/" + name), w);
      ghost var d1 := At(Value(), i);
      PutTwice(s, i, d1, d1);
      if ok {
        var audio := RecordName(w.recordPath, w.stamp(turn), i, st.channel, channelName, "_audio.ts");
        var unset := w.unset(turn);
        var audioOk := Transmit(i, Command.AudioRecordStart(w.recordPath + "/" + audio), w);
        PutTwice(s, i, d1, At(Value(), i));
        PutTwice(s, i, At(Value(), i), StartLog(d, i, w));
        AddLogRow(i, name, LogRow(start, "", st.channel, ChannelField(channelName), if audioOk then audio else unset), w);
      } else {
        PutTwice(s, i, d1, StartLog(d, i, w));
        StoreStatus(i, st.(loudnessLogName := ""));
      }
    }

    method EndLoudnessLog(i: nat, w: World)
      requires Valid() && i < status.Length
      modifies this, status
      ensures Valid() && Value() == Put(old(Value()), i, StopLog(old(At(Value(), i)), w))
    {
      ghost var s := Value();
      var _ := Transmit(i, AudioRecordEnd, w);
      ghost var d1 := At(Value(), i);
      PutTwice(s, i, d1, d1);
      var _ := Transmit(i, LoudnessLogEnd, w);
      ghost var d2 := At(Value(), i);
      PutTwice(s, i, d1, d2);
      EndLogRow(i, w);
      ghost var d3 := At(Value(), i);
      PutTwice(s, i, d2, d3);
      var _ := Transmit(i, AnalyzerReset, w);
      PutTwice(s, i, d3, At(Value(), i));
    }

    /** `change_channel`: the keys are pressed, and the log and the audio recording start over. */
    method ChangeChannel(i: nat, channel: int, w: World)
      requires Valid() && i < status.Length && ShortPaths(w)
      modifies this, status
      ensures Valid() && Value() == Put(old(Value()), i, Retune(old(At(Value(), i)), i, channel, w))
    {
      hide Tuned, StopLog, StartLog, Terminated, Entries, Cards;
      ghost var s := Value();
      Tune(i, channel, w);
      ghost var d1 := At(Value(), i);
      PutTwice(s, i, d1, d1);
      EndLoudnessLog(i, w);
      ghost var d2 := At(Value(), i);
      PutTwice(s, i, d1, d2);
      LoudnessLogStart(i, w);
      PutTwice(s, i, d2, At(Value(), i));
    }

    method Tune(i: nat, channel: int, w: World)
      requires Valid() && i < status.Length
      modifies this`turn, status
      ensures Valid() && Value() == Put(old(Value()), i, Tuned(old(At(Value(), i)), i, channel, w))
    {
      var ok := w.tunes(turn);
      turn := turn + 1;
      if i < w.lircdCount && ok {
        status[i] := status[i].(channel := channel);
      }
      assert Cards() == old(Cards())[i := Tuned(old(At(Value(), i)), i, channel, w).card];
    }

    /** A new schedule entry: another channel if need be, the end of what is being recorded, the new recording. */
    method TakeUp(i: nat, channel: int, w: World)
      requires Valid() && i < status.Length && ShortPaths(w)
      modifies this, status
      ensures Valid() && Value() == Put(old(Value()), i, BeginEntry(old(At(Value(), i)), i, channel, w))
    {
      hide Retune, CloseRecording, StartRecording, Terminated, Entries;
      ghost var s := Value();
      PutBack(s, i);
      if channel != status[i].channel {
        ChangeChannel(i, channel, w);
      }
      ghost var d1 := At(Value(), i);
      PutTwice(s, i, d1, d1);
      EndRecordingRow(i, w);
      ghost var d2 := At(Value(), i);
      PutTwice(s, i, d1, d2);
      AvRecordStart(i, channel, w);
      PutTwice(s, i, d2, At(Value(), i));
    }

    /** No entry any more: the recording ends. */
    method GiveUp(i: nat, w: World)
      requires Valid() && i < status.Length
      modifies this, status
      ensures Valid() && Value() == Put(old(Value()), i, FinishEntry(old(At(Value(), i)), w))
    {
      ghost var s := Value();
      var _ := Transmit(i, AvRecordEnd, w);
      ghost var d1 := At(Value(), i);
      PutTwice(s, i, d1, d1);
      EndRecordingRow(i, w);
      ghost var d2 := At(Value(), i);
      PutTwice(s, i, d1, d2);
      PutTwice(s, i, d2, FinishEntry(At(s, i), w));
      StoreStatus(i, status[i].(recording := false, avRecordName := "", programDataUpdated := true));
    }

    /** Another programme: the loudness starts over, and so does a running recording. */
    method Split(i: nat, e: Epg, w: World)
      requires Valid() && i < status.Length && ShortPaths(w)
      modifies this, status
      ensures Valid() && Value() == Put(old(Value()), i, SplitRecording(old(At(Value(), i)), i, e, w))
    {
      ghost var s := Value();
      var _ := Transmit(i, AnalyzerReset, w);
      ghost var d1 := At(Value(), i);
      PutTwice(s, i, d1, d1);
      if status[i].recording {
        EndRecordingRow(i, w);
        ghost var d2 := At(Value(), i);
        PutTwice(s, i, d1, d2);
        AvRecordStart(i, currentSchedule[i].channel, w);
        ghost var d3 := At(Value(), i);
        PutTwice(s, i, d2, d3);
        if status[i].recording {
          UpdateProgram(i, e, w);
          PutTwice(s, i, d3, At(Value(), i));
        }
      }
    }

    // ----- the main loop ---------------------------------------------------------------------------------------------

    /** `save_status_data`: one upsert per card, up to the first that fails. */
    method SaveStatusData(w: World)
      requires Valid()
      modifies this`statusTable, this`turn
      ensures Valid() && Value() == SaveStatus(old(Value()), w)
    {
      hide Terminated, Entries;
      ghost var ok, all := From(w.writes, turn), Statuses(Cards());
      var k, more := 0, true;
      while k < status.Length && more
        invariant 0 <= k <= status.Length && turn == old(turn) && Cards() == old(Cards())
        invariant if more then SetStatus(statusTable, all, k, ok) == SetStatus(old(statusTable), all, 0, ok)
                  else SetStatus(old(statusTable), all, 0, ok).0 == statusTable
        decreases status.Length - k, more
      {
        if w.writes(turn + k) {
          statusTable := Upsert(statusTable, k, status[k]);
          k := k + 1;
        } else {
          more := false;
        }
      }
      turn := turn + status.Length;
    }

    /** The schedule's part of a card's turn. */
    method ScheduleTurn(i: nat, now: int, w: World)
      requires Valid() && i < status.Length && ShortPaths(w)
      modifies this, status, currentSchedule
      ensures Valid() && Value() == ScheduleStep(old(Value()), i, now, w)
    {
      hide BeginEntry, FinishEntry, SetStatus, Terminated;
      ghost var s := Value();
      var entry := GetCurrentSchedule(schedule, i, now);
      if entry.Some? {
        if currentSchedule[i].start != entry.value.start || currentSchedule[i].channel != entry.value.channel {
          TakeUp(i, entry.value.channel, w);
          SaveStatusData(w);
          StoreSchedule(i, entry.value);
        }
      } else if status[i].recording {
        GiveUp(i, w);
        SaveStatusData(w);
      }
    }

    /** The guide's part. */
    method GuideTurn(i: nat, now: int, w: World)
      requires Valid() && i < status.Length && ShortPaths(w)
      modifies this, status, currentEpg
      ensures Valid() && Value() == GuideStep(old(Value()), i, now, w)
    {
      hide SplitRecording, WriteProgram, SetStatus, Terminated, Entries;
      var entry := guide.GetCurrentEpg(i, now);
      if entry.None? || entry.value.channel != status[i].channel {
        return;
      }
      var e := entry.value;
      ProgramOfNewRecording(i, e, w);
      if e.channel != currentEpg[i].channel || e.start == currentSchedule[i].start {
        StoreEpg(i, e);
      } else {
        StoreEpg(i, currentEpg[i]);
      }
      if currentEpg[i].start != e.start {
        Split(i, e, w);
        SaveStatusData(w);
        StoreEpg(i, e);
      }
    }

    method ProgramOfNewRecording(i: nat, e: Epg, w: World)
      requires Valid() && i < status.Length
      modifies this, status
      ensures Valid() && Value() == FirstProgram(old(Value()), i, e, w)
    {
      if status[i].recording && |status[i].avRecordName| > 0 && !status[i].programDataUpdated {
        UpdateProgram(i, e, w);
        SaveStatusData(w);
      }
    }

    /** One turn of the main loop. */
    method Tick(now: seq<Clocks>, w: World)
      requires Valid() && |now| == status.Length && ShortPaths(w)
      modifies this, status, currentSchedule, currentEpg
      ensures Valid() && Value() == Step(old(Value()), Event.Tick(now), w)
    {
      var i := 0;
      while i < status.Length
        invariant 0 <= i <= status.Length && Valid()
        invariant TickFrom(Value(), i, now, w) == TickFrom(old(Value()), 0, now, w)
      {
        ScheduleTurn(i, now[i].schedule, w);
        GuideTurn(i, now[i].guide, w);
        i := i + 1;
      }
    }

    /** A channel-change message. */
    method ChangeChannelMessage(items: seq<(nat, int)>, w: World)
      requires Valid() && ShortPaths(w)
      modifies this, status
      ensures Valid() && Value() == Step(old(Value()), ChannelChange(items), w)
    {
      var k := 0;
      assert items[0..] == items;
      while k < |items|
        invariant 0 <= k <= |items| && Valid()
        invariant ChangeChannels(Value(), items[k..], w) == ChangeChannels(old(Value()), items, w)
      {
        var (i, channel) := items[k];
        assert items[k..][0] == items[k] && items[k..][1..] == items[k + 1..];
        if i < status.Length && channel != status[i].channel {
          ChangeChannel(i, channel, w);
        }
        k := k + 1;
      }
      SaveStatusData(w);
    }

    /** The end of the log a card is said to have, and a new one. */
    method RestartLog(i: nat, w: World)
      requires Valid() && i < status.Length && ShortPaths(w)
      modifies this, status
      ensures Valid() && Value() == Put(old(Value()), i, StartLog(CloseLog(old(At(Value(), i)), w), i, w))
    {
      ghost var s := Value();
      EndLogRow(i, w);
      ghost var d := At(Value(), i);
      PutTwice(s, i, d, d);
      LoudnessLogStart(i, w);
      PutTwice(s, i, d, At(Value(), i));
    }

    /** A start of the program over the database as it is: the statuses and the schedule are loaded, and what was
        running is ended and started over. */
    method Start(w: World)
      requires Valid() && ShortPaths(w)
      modifies this, status, currentSchedule, currentEpg
      ensures Valid() && Value() == Step(old(Value()), Restart, w)
    {
      hide StartLog, CloseLog, Load, SaveStatus, Terminated, Entries, Value;
      LoadAll();
      var i := 0;
      while i < status.Length
        invariant 0 <= i <= status.Length && Valid()
        invariant StartLogs(Value(), i, w) == StartLogs(Load(old(Value())), 0, w)
      {
        RestartLog(i, w);
        i := i + 1;
      }
      SaveStatusData(w);
    }

    /** `load_status_data`, over cleared cards. */
    method LoadStatuses()
      requires Valid()
      modifies status, currentSchedule, currentEpg
      ensures Valid()
      ensures status[..] == LoadStatus(statusTable, seq(status.Length, _ => NO_STATUS))
      ensures forall i :: 0 <= i < status.Length ==> currentSchedule[i] == NO_SCHEDULE && currentEpg[i] == NO_EPG
    {
      var j := 0;
      while j < status.Length
        invariant 0 <= j <= status.Length && Valid()
        invariant forall i :: 0 <= i < j ==>
                    status[i] == NO_STATUS && currentSchedule[i] == NO_SCHEDULE && currentEpg[i] == NO_EPG
      {
        status[j], currentSchedule[j], currentEpg[j] := NO_STATUS, NO_SCHEDULE, NO_EPG;
        j := j + 1;
      }
      assert status[..] == seq(status.Length, _ => NO_STATUS);
      var k := 0;
      assert statusTable[0..] == statusTable;
      while k < |statusTable|
        invariant 0 <= k <= |statusTable| && Valid()
        invariant forall i :: 0 <= i < status.Length ==> currentSchedule[i] == NO_SCHEDULE && currentEpg[i] == NO_EPG
        invariant LoadStatus(statusTable[k..], status[..]) == LoadStatus(statusTable, seq(status.Length, _ => NO_STATUS))
      {
        var (index, row) := statusTable[k];
        assert statusTable[k..][0] == statusTable[k] && statusTable[k..][1..] == statusTable[k + 1..];
        ghost var before := status[..];
        if 0 <= index < status.Length {
          status[index] := row;
          assert status[..] == before[index := row];
        }
        k := k + 1;
      }
      assert statusTable[k..] == [];
    }

    /** What a new process knows: the saved statuses and schedule, and no guide. */
    method LoadAll()
      requires Valid()
      modifies this, status, currentSchedule, currentEpg
      ensures Valid() && Value() == Load(old(Value()))
    {
      LoadStatuses();
      var rows, n := scheduleTable, |scheduleTable|;
      var loaded := new Schedule[n + 1](i => if 0 <= i < n then rows[i] else Schedule(-1, 0, 0, 0));
      assert loaded[..][n].index < 0 && loaded[..] == rows + [loaded[n]];
      EntriesAppend(rows, loaded[n]);
      schedule := loaded;
      guide := new Guide();
      assert Cards() == Load(old(Value())).cards;
    }

    /** A new guide for one card arrives. */
    method RefreshGuide(i: nat, channel: int, data: seq<EpgData>, read: string -> Option<int>, w: World)
      requires Valid() && ShortPaths(w)
      modifies guide
      ensures Valid()
      ensures var s := old(Value()); Value() == Step(s, GuideRefresh(Refresh(s.guide, i, channel, data, read)), w)
    {
      guide.RefreshCard(i, channel, data, read);
      assert Cards() == old(Cards());
    }

    /** An entry from the console, or its deletion. */
    method AddSchedule(e: Schedule)
      requires Valid()
      modifies this`schedule
      ensures Valid()
      ensures var s := old(Value()); Value() == s.(schedule := s.schedule + if 0 <= e.index then [e] else [])
    {
      schedule := ScheduleAdd(schedule, e);
      assert Cards() == old(Cards());
    }

    method DeleteSchedule(e: Schedule)
      requires Valid()
      modifies schedule
      ensures Valid()
      ensures var s := old(Value()); Value() == s.(schedule := Without(s.schedule, e))
    {
      if schedule != null {
        ScheduleDel(schedule, e);
      }
      assert Cards() == old(Cards());
    }
  }
}
