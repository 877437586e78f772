/** What start-up and the client's requests do: the channels the cards end on, the logs that start over, the rows that
    are copied or measured, and the schedule that survives a restart. */
module Requests {
  import opened CardTurns
  import opened Controller
  import opened Database
  import opened Ipc
  import opened Schedules
  import opened Tables
  import opened Wrappers

  // ----- a channel-change message ------------------------------------------------------------------------------------

  /** The last channel the items name for a card, or the one it has. */
  function Wanted(items: seq<(nat, int)>, j: nat, channel: int): int
  {
    if items == [] then channel else Wanted(items[1..], j, if items[0].0 == j then items[0].1 else channel)
  }

  /** One item. */
  function Changed(s: State, item: (nat, int), w: World): (r: State)
    requires ShortPaths(w)
    ensures |r.cards| == |s.cards|
  {
    if |s.cards| <= item.0 || item.1 == s.cards[item.0].status.channel then s
    else Put(s, item.0, Retune(At(s, item.0), item.0, item.1, w))
  }

  /** The channel of each card after one item, whatever fails. */
  lemma ItemTunes(s: State, item: (nat, int), j: nat, w: World)
    requires ShortPaths(w) && j < |s.cards|
    ensures Changed(s, item, w).cards[j].status.channel
            == if item.0 == j && j < w.lircdCount && w.tunes(s.turn) then item.1 else s.cards[j].status.channel
  {
    if item.0 == j && item.1 != s.cards[j].status.channel {
      RetuneTunes(At(s, j), j, item.1, w);
    }
  }

  /** When keys are always pressed, every card with a remote control ends on the last channel the message names for
      it, and no other card changes its channel. */
  lemma {:induction false} MessageTunes(s: State, items: seq<(nat, int)>, j: nat, w: World)
    requires ShortPaths(w) && j < |s.cards| && forall n :: w.tunes(n)
    ensures Step(s, ChannelChange(items), w).cards[j].status.channel
            == if j < w.lircdCount then Wanted(items, j, s.cards[j].status.channel) else s.cards[j].status.channel
    decreases |items|
  {
    if items == [] {
    } else {
      ItemTunes(s, items[0], j, w);
      MessageTunes(Changed(s, items[0], w), items[1..], j, w);
    }
  }

  /** `n` times the end of an audio recording and a log, a reset, and their new starts. */
  predicate Restarts(commands: seq<Command>, n: nat)
    decreases n
  {
    if n == 0 then commands == []
    else
      && 5 <= |commands| && commands[0].AudioRecordEnd? && commands[1].LoudnessLogEnd? && commands[2].AnalyzerReset?
      && commands[3].LoudnessLogStart? && commands[4].AudioRecordStart? && Restarts(commands[5..], n - 1)
  }

  /** How many items name another channel than the card has by then. */
  function Changes(items: seq<(nat, int)>, j: nat, channel: int, remote: bool): nat
  {
    if items == [] then 0
    else
      var (i, wanted) := items[0];
      if i != j || wanted == channel then Changes(items[1..], j, channel, remote)
      else 1 + Changes(items[1..], j, if remote then wanted else channel, remote)
  }

  lemma ItemSends(s: State, item: (nat, int), j: nat, w: World)
    requires ShortPaths(w) && j < |s.cards| && AllSent(w)
    ensures var sent, r := s.cards[j].sent, Changed(s, item, w).cards[j];
            if item.0 != j || item.1 == s.cards[j].status.channel then r == s.cards[j]
            else sent <= r.sent && Restarts(r.sent[|sent|..], 1) && r.status.loudnessLogName == NameIn(r.sent, w)
  {
    hide LogFile, AudioFile, Retune, TunedTo;
    if item.0 == j && item.1 != s.cards[j].status.channel {
      var d := At(s, j);
      Retunes(d, j, item.1, w);
      var c, n := TunedTo(d.card.status, j, item.1, s.turn, w), s.turn + 4 + Ending(d.card.status.loudnessLogName);
      var added := [AudioRecordEnd, LoudnessLogEnd, AnalyzerReset] + LogCommands(j, c, n, w);
      assert (d.card.sent + added)[|d.card.sent|..] == added && added[5..] == [];
      NameIsIn(d.card.sent, j, c, n, w);
    }
  }

  /** The log of the last but one command. */
  function NameIn(commands: seq<Command>, w: World): string
  {
    var n := |commands| - 2;
    if n < 0 || !commands[n].LoudnessLogStart? || |commands[n].arg| <= |w.logPath| then ""
    else commands[n].arg[|w.logPath| + 1..]
  }

  lemma NameIsIn(before: seq<Command>, i: nat, c: int, n: nat, w: World)
    requires ShortPaths(w)
    ensures NameIn(before + ([AudioRecordEnd, LoudnessLogEnd, AnalyzerReset] + LogCommands(i, c, n, w)), w)
            == LogFile(i, c, n, w)
  {
    var commands := before + ([AudioRecordEnd, LoudnessLogEnd, AnalyzerReset] + LogCommands(i, c, n, w));
    assert commands[|commands| - 2] == LoudnessLogStart(w.logPath + "/" + LogFile(i, c, n, w));
  }

  lemma {:induction false} RestartsAppend(a: seq<Command>, b: seq<Command>, n: nat, m: nat)
    requires Restarts(a, n) && Restarts(b, m)
    ensures Restarts(a + b, n + m)
    decreases n
  {
    if n == 0 {
      assert a + b == b;
    } else {
      assert (a + b)[5..] == a[5..] + b;
      RestartsAppend(a[5..], b, n - 1, m);
    }
  }

  /** When commands get through and keys are pressed, the message makes the log and the audio recording of a card start
      over as often as it names another channel for it, and sends nothing else. */
  lemma {:induction false} MessageSends(s: State, items: seq<(nat, int)>, j: nat, w: World)
    requires ShortPaths(w) && j < |s.cards| && AllSent(w) && forall n :: w.tunes(n)
    ensures var sent, r := s.cards[j].sent, Step(s, ChannelChange(items), w).cards[j].sent;
            && sent <= r
            && Restarts(r[|sent|..], Changes(items, j, s.cards[j].status.channel, j < w.lircdCount))
    decreases |items|
  {
    hide Retune, Put;
    var sent, r := s.cards[j].sent, Step(s, ChannelChange(items), w).cards[j].sent;
    if items == [] {
      assert r[|sent|..] == [];
    } else {
      var s1 := Changed(s, items[0], w);
      ItemTunes(s, items[0], j, w);
      ItemSends(s, items[0], j, w);
      MessageSends(s1, items[1..], j, w);
      assert r == Step(s1, ChannelChange(items[1..]), w).cards[j].sent;
      var sent1, rest := s1.cards[j].sent, Changes(items[1..], j, s1.cards[j].status.channel, j < w.lircdCount);
      if items[0].0 == j && items[0].1 != s.cards[j].status.channel {
        RestartsAppend(sent1[|sent|..], r[|sent1|..], 1, rest);
        assert sent1[|sent|..] + r[|sent1|..] == r[|sent|..];
      }
    }
  }

  // ----- start-up ------------------------------------------------------------------------------------------------------

  /** At start-up, when commands get through, every card starts a log and an audio recording for the channel that was
      saved, and keeps the rest of its saved status; the guide is empty, and which entry and programme were current is
      forgotten. */
  lemma StartupSends(s: State, j: nat, w: World)
    requires ShortPaths(w) && j < |s.cards| && AllSent(w)
    ensures var r, saved := Startup(s, w).cards[j], GetOr(Last(s.statusTable, j), NO_STATUS);
            && r.currentSchedule == NO_SCHEDULE && r.currentEpg == NO_EPG && Startup(s, w).guide == []
            && exists n :: r.sent == s.cards[j].sent + LogCommands(j, saved.channel, n, w)
                           && r.status == saved.(loudnessLogName := LogFile(j, saved.channel, n, w))
  {
    var loaded := Load(s);
    LoadTakesLast(s.statusTable, seq(|s.cards|, _ => NO_STATUS), j);
    StartLogsSends(loaded, 0, j, w);
    StartLogsKeep(loaded, 0, w);
  }

  lemma {:induction false} StartLogsSends(s: State, i: nat, j: nat, w: World)
    requires i <= |s.cards| && j < |s.cards| && ShortPaths(w) && AllSent(w)
    ensures var r, card := StartLogs(s, i, w).cards[j], s.cards[j];
            if j < i then r == card
            else r.currentSchedule == card.currentSchedule && r.currentEpg == card.currentEpg
                 && exists n :: r.sent == card.sent + LogCommands(j, card.status.channel, n, w)
                             && r.status == card.status.(loudnessLogName := LogFile(j, card.status.channel, n, w))
    decreases |s.cards| - i
  {
    hide LogCommands, LogFile, StartLog, CloseLog;
    if i == |s.cards| {
    } else {
      var d := CloseLog(At(s, i), w);
      assert d.card == s.cards[i].(status := s.cards[i].status.(loudnessLogName := "")) by { LogCloses(At(s, i), w); }
      LogStarts(d, i, w);
      StartLogsSends(Put(s, i, StartLog(d, i, w)), i + 1, j, w);
    }
  }

  lemma LogCloses(d: Desk, w: World)
    ensures CloseLog(d, w).card == d.card.(status := d.card.status.(loudnessLogName := ""))
  {
  }

  // ----- rows ----------------------------------------------------------------------------------------------------------

  /** A measured loudness goes into the row of the recording it was measured on, if the statement is executed, and into no
      other. */
  lemma ReplyIsWritten(s: State, name: string, loudness: real, q: string, w: World)
    requires ShortPaths(w)
    ensures var r := Step(s, LoudnessReply(name, loudness), w);
            Get(r.playback, q) ==
              match Get(s.playback, q)
              case None => None
              case Some(row) => Some(if q == name && w.writes(s.turn) then row.(loudness := loudness) else row)
  {
    GetUpdate(s.playback, name, (r: PlaybackRow) => r.(loudness := loudness), q);
  }

  /** What a user's files add under a name: a copy of the named recording's row, by the last file that finds one. */
  function Copied(playback: Playback, files: seq<UserFile>, q: string): Option<PlaybackRow>
  {
    if files == [] then None
    else
      var later := Copied(playback, files[1..], q);
      if later.Some? || files[0].name != q then later
      else
        match Get(playback, files[0].recordName)
        case None => None
        case Some(row) => Some(row.(rowType := User))
  }

  /** Each file of a user-loudness message whose recording is in the catalogue gets a copy of that recording's row,
      marked as the user's; all other rows stay. */
  lemma FilesAreCopied(s: State, files: seq<UserFile>, q: string, w: World)
    requires ShortPaths(w) && WritesSucceed(w)
    ensures var copy := Copied(s.playback, files, q);
            Get(Step(s, UserLoudness(files), w).playback, q) == if copy.Some? then copy else Get(s.playback, q)
  {
    AllSucceedHere(w.writes, s.turn, |files|);
    RowsAreAdded(s.playback, s.playback, files, w.writes, s.turn + |files|, q);
  }

  /** A file that cannot be saved itself keeps the whole message out of the playback list. */
  lemma UnsavedFileAddsNothing(s: State, files: seq<UserFile>, k: nat, w: World)
    requires ShortPaths(w) && k < |files| && !w.writes(s.turn + k)
    ensures Step(s, UserLoudness(files), w).playback == s.playback
  {
    OneFails(w.writes, s.turn, |files|, k);
  }

  lemma {:induction false} OneFails(ok: Answers, turn: nat, n: nat, k: nat)
    requires k < n && !ok(turn + k)
    ensures !AllSucceed(ok, turn, n)
    decreases n
  {
    if k == 0 {
    } else {
      OneFails(ok, turn + 1, n - 1, k - 1);
    }
  }

  lemma {:induction false} AllSucceedHere(ok: Answers, turn: nat, n: nat)
    requires forall k :: ok(k)
    ensures AllSucceed(ok, turn, n)
    decreases n
  {
    if n == 0 {
    } else {
      AllSucceedHere(ok, turn + 1, n - 1);
    }
  }

  lemma {:induction false} RowsAreAdded(t: Playback, playback: Playback, files: seq<UserFile>, ok: Answers, n: nat,
                                        q: string)
    requires forall k :: ok(k)
    ensures var copy := Copied(playback, files, q);
            Get(UpsertRows(t, UserRows(playback, files), ok, n), q) == if copy.Some? then copy else Get(t, q)
    decreases |files|
  {
    if files == [] {
    } else {
      match Get(playback, files[0].recordName)
      case None =>
        RowsAreAdded(t, playback, files[1..], ok, n, q);
      case Some(row) =>
        var rest := UserRows(playback, files[1..]);
        var t' := Upsert(t, files[0].name, row.(rowType := User));
        assert UserRows(playback, files)[1..] == rest;
        GetUpsert(t, files[0].name, row.(rowType := User), q);
        RowsAreAdded(t', playback, files[1..], ok, n + 1, q);
    }
  }

  // ----- the schedule --------------------------------------------------------------------------------------------------

  /** The table holds the schedule the loop scans. */
  ghost predicate ScheduleSaved(s: State)
  {
    s.scheduleTable == s.schedule && Entries(s.schedule) == s.schedule
  }

  lemma MessageIsSaved(s: State, entries: seq<Schedule>, w: World)
    requires ShortPaths(w) && WritesSucceed(w)
    ensures var r := Step(s, ScheduleMessage(entries), w);
            r.schedule == Entries(entries) && ScheduleSaved(r)
  {
    EntriesFixed(entries);
    InsertedAll([], Entries(entries), 0, From(w.writes, s.turn));
  }

  lemma {:induction false} InsertedAll(rows: seq<Schedule>, entries: seq<Schedule>, i: nat, ok: Answers)
    requires i <= |entries| && rows == entries[..i] && forall k :: ok(k)
    ensures InsertSchedule(rows, entries, i, ok) == (entries, true)
    decreases |entries| - i
  {
    if i == |entries| {
      assert entries[..i] == entries;
    } else {
      assert entries[..i + 1] == rows + [entries[i]];
      InsertedAll(rows + [entries[i]], entries, i + 1, ok);
    }
  }

  lemma {:induction false} ChangeChannelsSchedule(s: State, items: seq<(nat, int)>, w: World)
    requires ShortPaths(w)
    ensures var r := ChangeChannels(s, items, w); r.schedule == s.schedule && r.scheduleTable == s.scheduleTable
    decreases |items|
  {
    if items == [] {
    } else {
      ChangeChannelsSchedule(Changed(s, items[0], w), items[1..], w);
    }
  }

  lemma {:induction false} StartLogsKeep(s: State, i: nat, w: World)
    requires i <= |s.cards| && ShortPaths(w)
    ensures var r := StartLogs(s, i, w);
            r.schedule == s.schedule && r.scheduleTable == s.scheduleTable && r.guide == s.guide
    decreases |s.cards| - i
  {
    if i == |s.cards| {
    } else {
      StartLogsKeep(Put(s, i, StartLog(CloseLog(At(s, i), w), i, w)), i + 1, w);
    }
  }

  /** Only a schedule message changes the schedule; a restart in particular does not. */
  lemma StepSchedule(s: State, ev: Event, w: World)
    requires ValidEvent(s, ev) && ShortPaths(w) && WritesSucceed(w) && ScheduleSaved(s)
    ensures var r := Step(s, ev, w);
            ScheduleSaved(r) && r.schedule == if ev.ScheduleMessage? then Entries(ev.entries) else s.schedule
  {
    hide StartLog, CloseLog, TickFrom, SaveStatus, UpsertRows;
    match ev
    case ChannelChange(items) => ChangeChannelsSchedule(s, items, w);
    case ScheduleMessage(entries) => MessageIsSaved(s, entries, w);
    case Restart => StartLogsKeep(Load(s), 0, w);
    case _ =>
  }

  /** The entries of the last schedule message. */
  function LastSchedule(events: seq<Event>, before: seq<Schedule>): seq<Schedule>
  {
    if events == [] then before
    else LastSchedule(events[1..], if events[0].ScheduleMessage? then Entries(events[0].entries) else before)
  }

  /** With a database that executes its statements, over any events and restarts, the controller works through the
      schedule of the last message. */
  lemma {:induction false} ScheduleIsLastMessage(s: State, events: seq<Event>, w: World)
    requires ShortPaths(w) && WritesSucceed(w) && ScheduleSaved(s) && ValidRun(s, events, w)
    ensures ScheduleSaved(Run(s, events, w)) && Run(s, events, w).schedule == LastSchedule(events, s.schedule)
    decreases |events|
  {
    if events == [] {
    } else {
      StepSchedule(s, events[0], w);
      ScheduleIsLastMessage(Step(s, events[0], w), events[1..], w);
    }
  }
}
