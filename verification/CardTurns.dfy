/** What a card's part of a turn, a change of channel and a start-up do when the outside world answers well: the
    channel the card is tuned to, the commands its monitor gets, and what the rows say afterwards. */
module CardTurns {
  import opened Controller
  import opened Database
  import opened FileNames
  import opened Ipc
  import opened Schedules
  import opened Tables
  import opened Wrappers

  /** Every command is sent. */
  ghost predicate AllSent(w: World) { forall n :: w.sends(n) }

  /** The channel a card has after its keys were pressed, the press being answer number `n`. */
  function TunedTo(status: Status, i: nat, channel: int, n: nat, w: World): int
  {
    if i < w.lircdCount && w.tunes(n) then channel else status.channel
  }

  /** The names made at answer number `n`. */
  function LogFile(i: nat, c: int, n: nat, w: World): string
    requires ShortPaths(w)
  {
    RecordName(w.logPath, w.stamp(n), i, c, w.channelName(c), ".log")
  }

  function AudioFile(i: nat, c: int, n: nat, w: World): string
    requires ShortPaths(w)
  {
    RecordName(w.recordPath, w.stamp(n), i, c, w.channelName(c), "_audio.ts")
  }

  /** A recording of an entry for `channel` on a card tuned to `c`. */
  function AvFile(i: nat, channel: int, c: int, n: nat, w: World): string
    requires ShortPaths(w)
  {
    RecordName(w.recordPath, w.stamp(n), i, channel, w.channelName(c), ".ts")
  }

  /** The commands that start a log and its audio recording at answer number `n`. */
  function LogCommands(i: nat, c: int, n: nat, w: World): seq<Command>
    requires ShortPaths(w)
  {
    [LoudnessLogStart(w.logPath + "/" + LogFile(i, c, n, w)),
     AudioRecordStart(w.recordPath + "/" + AudioFile(i, c, n + 1, w))]
  }

  function AvCommand(i: nat, channel: int, c: int, n: nat, w: World): Command
    requires ShortPaths(w)
  {
    AvRecordStart(w.recordPath + "/" + AvFile(i, channel, c, n, w))
  }

  function Row(i: nat, channel: int, c: int, n: nat, w: World): PlaybackRow
  {
    PlaybackRow(w.stamp(n), "", channel, ChannelField(w.channelName(c)), "", "", "", 0.0, w.offset(i), Recorded)
  }

  function WithProgram(row: PlaybackRow, e: Epg, w: World): PlaybackRow
  {
    row.(programName := e.name, programStart := w.text(e.start), programEnd := w.text(e.end))
  }

  /** 1 if a row is to be ended. */
  function Ending(name: string): nat { if name == "" then 0 else 1 }

  // ----- single actions ------------------------------------------------------------------------------------------

  lemma TwoMore(commands: seq<Command>, a: Command, b: Command)
    ensures commands + [a] + [b] == commands + [a, b]
  {
  }

  /** A new log: the two commands, the name in the status, and a row that names the audio recording. */
  lemma LogStarts(d: Desk, i: nat, w: World)
    requires ShortPaths(w) && AllSent(w)
    ensures var r, c := StartLog(d, i, w), d.card.status.channel;
            && r.card.sent == d.card.sent + LogCommands(i, c, d.turn, w)
            && r.card.status == d.card.status.(loudnessLogName := LogFile(i, c, d.turn, w))
            && r.turn == d.turn + 3 && r.playback == d.playback
            && (w.writes(d.turn + 2) ==>
                  forall q :: Get(r.log, q) ==
                    if q == LogFile(i, c, d.turn, w)
                    then Some(LogRow(w.stamp(d.turn), "", c, ChannelField(w.channelName(c)), AudioFile(i, c, d.turn + 1, w)))
                    else Get(d.log, q))
  {
    hide RecordName, Upsert, Get, ChannelField;
    var c := d.card.status.channel;
    var name, row := LogName(d, i, w), NewLogRow(d, i, w);
    forall q ensures Get(Upsert(d.log, name, row), q) == if q == name then Some(row) else Get(d.log, q) {
      GetUpsert(d.log, name, row, q);
    }
    TwoMore(d.card.sent, LoudnessLogStart(w.logPath + "/" + name),
            AudioRecordStart(w.recordPath + "/" + AudioFile(i, c, d.turn + 1, w)));
  }

  /** The end of a log: three commands, and an end in its row. */
  lemma LogStops(d: Desk, w: World)
    requires AllSent(w)
    ensures var r, status := StopLog(d, w), d.card.status;
            && r.card.sent == d.card.sent + [AudioRecordEnd, LoudnessLogEnd, AnalyzerReset]
            && r.card.status == status.(loudnessLogName := "")
            && r.turn == d.turn + 3 + Ending(status.loudnessLogName) && r.playback == d.playback
            && (w.writes(d.turn + 2) && status.loudnessLogName != "" ==>
                  forall q :: Get(r.log, q) == Ended(Get(d.log, q), q == status.loudnessLogName, w.stamp(d.turn + 2)))
            && (status.loudnessLogName == "" ==> r.log == d.log)
  {
    var name, end := d.card.status.loudnessLogName, w.stamp(d.turn + 2);
    forall q ensures Get(EndLog(d.log, name, end), q) == Ended(Get(d.log, q), q == name, end) {
      GetUpdate(d.log, name, (r: LogRow) => r.(end := end), q);
    }
    assert d.card.sent + [AudioRecordEnd] + [LoudnessLogEnd] + [AnalyzerReset]
           == d.card.sent + [AudioRecordEnd, LoudnessLogEnd, AnalyzerReset];
  }

  /** A row that has been ended, if it is the one. */
  function Ended(row: Option<LogRow>, it: bool, end: string): Option<LogRow>
  {
    match row case None => None case Some(r) => Some(if it then r.(end := end) else r)
  }

  function EndedRecording(row: Option<PlaybackRow>, it: bool, end: string): Option<PlaybackRow>
  {
    match row case None => None case Some(r) => Some(if it then r.(end := end) else r)
  }

  /** A change of channel: the keys, the end of the log and a new one for the channel the card then has. `n` is the
      number of the answer to the start of the new log. */
  lemma Retunes(d: Desk, i: nat, channel: int, w: World)
    requires ShortPaths(w) && AllSent(w)
    ensures var r, status := Retune(d, i, channel, w), d.card.status;
            var c, n := TunedTo(status, i, channel, d.turn, w), d.turn + 4 + Ending(status.loudnessLogName);
            && r.card.sent == d.card.sent + ([AudioRecordEnd, LoudnessLogEnd, AnalyzerReset] + LogCommands(i, c, n, w))
            && r.card.status == status.(channel := c, loudnessLogName := LogFile(i, c, n, w))
            && r.turn == n + 3 && r.playback == d.playback
            && (WritesSucceed(w) ==>
                  forall q :: Get(r.log, q) ==
                    if q == LogFile(i, c, n, w)
                    then Some(LogRow(w.stamp(n), "", c, ChannelField(w.channelName(c)), AudioFile(i, c, n + 1, w)))
                    else Ended(Get(d.log, q), q == status.loudnessLogName && q != "", w.stamp(d.turn + 3)))
  {
    hide StartLog, StopLog, RecordName;
    var d1 := Tuned(d, i, channel, w);
    LogStops(d1, w);
    LogStarts(StopLog(d1, w), i, w);
  }

  /** The channel does not depend on what is sent. */
  lemma RetuneTunes(d: Desk, i: nat, channel: int, w: World)
    requires ShortPaths(w)
    ensures Retune(d, i, channel, w).card.status.channel == TunedTo(d.card.status, i, channel, d.turn, w)
  {
  }

  lemma BeginEntryTunes(d: Desk, i: nat, channel: int, w: World)
    requires ShortPaths(w)
    ensures BeginEntry(d, i, channel, w).card.status.channel == TunedTo(d.card.status, i, channel, d.turn, w)
  {
    RetuneTunes(d, i, channel, w);
  }

  /** The recording that runs is ended in its row, and the next one started; `n` is the number of the answer to its
      start. */
  lemma Records(d: Desk, i: nat, channel: int, w: World)
    requires ShortPaths(w) && AllSent(w)
    ensures var r, status := StartRecording(CloseRecording(d, w), i, channel, w), d.card.status;
            var c, n := status.channel, d.turn + Ending(status.avRecordName);
            var name := AvFile(i, channel, c, n, w);
            && r.card.sent == d.card.sent + [AvCommand(i, channel, c, n, w)]
            && r.card.status == status.(recording := true, avRecordName := name, programDataUpdated := false)
            && r.turn == n + 2 && r.log == d.log
            && (WritesSucceed(w) ==>
                  forall q :: Get(r.playback, q) ==
                    if q == name then Some(Row(i, channel, c, n, w))
                    else EndedRecording(Get(d.playback, q), q == status.avRecordName && q != "", w.stamp(d.turn)))
  {
    hide RecordName;
    var d1, ended, end := CloseRecording(d, w), d.card.status.avRecordName, w.stamp(d.turn);
    var name, row := RecordingName(d1, i, channel, w), RecordingRow(d1, i, channel, w);
    forall q ensures Get(EndPlayback(d.playback, ended, end), q) == EndedRecording(Get(d.playback, q), q == ended, end) {
      GetUpdate(d.playback, ended, (r: PlaybackRow) => r.(end := end), q);
    }
    forall q ensures Get(Upsert(d1.playback, name, row), q) == if q == name then Some(row) else Get(d1.playback, q) {
      GetUpsert(d1.playback, name, row, q);
    }
  }

  /** A start that is not sent: the recording that ran is ended in its row all the same, and there is none. */
  lemma UnsentRecording(d: Desk, i: nat, channel: int, w: World)
    requires ShortPaths(w) && !w.sends(d.turn + Ending(d.card.status.avRecordName))
    ensures var r, status := StartRecording(CloseRecording(d, w), i, channel, w), d.card.status;
            && r.card == d.card.(status := status.(recording := false, avRecordName := "", programDataUpdated := true))
            && r.log == d.log
            && (WritesSucceed(w) ==>
                  forall q :: Get(r.playback, q) ==
                    EndedRecording(Get(d.playback, q), q == status.avRecordName && q != "", w.stamp(d.turn)))
  {
    hide RecordName;
    var ended, end := d.card.status.avRecordName, w.stamp(d.turn);
    forall q ensures Get(EndPlayback(d.playback, ended, end), q) == EndedRecording(Get(d.playback, q), q == ended, end) {
      GetUpdate(d.playback, ended, (r: PlaybackRow) => r.(end := end), q);
    }
  }

  /** A log whose start is not sent is not there; one whose audio recording cannot be started has a row that names
      whatever the name buffer holds. */
  lemma UnsentLog(d: Desk, i: nat, w: World)
    requires ShortPaths(w) && !(w.sends(d.turn) && w.sends(d.turn + 1))
    ensures var r, c := StartLog(d, i, w), d.card.status.channel;
            && r.playback == d.playback
            && if !w.sends(d.turn) then
                 r.card == d.card.(status := d.card.status.(loudnessLogName := "")) && r.log == d.log
               else
                 && r.card.sent == d.card.sent + [LoudnessLogStart(w.logPath + "/" + LogFile(i, c, d.turn, w))]
                 && r.card.status == d.card.status.(loudnessLogName := LogFile(i, c, d.turn, w))
                 && (w.writes(d.turn + 2) ==>
                       Get(r.log, LogFile(i, c, d.turn, w)) ==
                         Some(LogRow(w.stamp(d.turn), "", c, ChannelField(w.channelName(c)), w.unset(d.turn + 1))))
  {
    GetUpsert(d.log, LogName(d, i, w), NewLogRow(d, i, w), LogName(d, i, w));
  }

  // ----- a schedule entry is taken up ------------------------------------------------------------------------------

  /** Taking up an entry tunes the card to its channel, if it has a remote control and the keys are pressed; whatever
      is sent and written. */
  lemma TakenUpTunes(s: State, i: nat, entry: Schedule, w: World)
    requires i < |s.cards| && ShortPaths(w)
    ensures NewSchedule(s, i, entry, w).cards[i].status.channel
            == if i < w.lircdCount && w.tunes(s.turn) then entry.channel else s.cards[i].status.channel
  {
    BeginEntryTunes(At(s, i), i, entry.channel, w);
  }

  /** The number of the answer to the start of the new log, when the channel changes, and of the recording. */
  function LogAnswer(s: State, i: nat): nat
    requires i < |s.cards|
  {
    s.turn + 4 + Ending(s.cards[i].status.loudnessLogName)
  }

  function AvAnswer(s: State, i: nat, channel: int): nat
    requires i < |s.cards|
  {
    (if channel == s.cards[i].status.channel then s.turn else LogAnswer(s, i) + 3) + Ending(s.cards[i].status.avRecordName)
  }

  /** When commands get through: a card on another channel ends its audio recording and its log, resets its loudness,
      starts both anew for the channel it then has, and starts to record; one on the entry's channel only starts to
      record. */
  lemma TakenUpSends(s: State, i: nat, entry: Schedule, w: World)
    requires i < |s.cards| && ShortPaths(w) && AllSent(w)
    ensures var r, status := NewSchedule(s, i, entry, w).cards[i], s.cards[i].status;
            var c, n := TunedTo(status, i, entry.channel, s.turn, w), AvAnswer(s, i, entry.channel);
            && r.sent == s.cards[i].sent
                         + (if entry.channel == status.channel then []
                            else [AudioRecordEnd, LoudnessLogEnd, AnalyzerReset] + LogCommands(i, c, LogAnswer(s, i), w))
                         + [AvCommand(i, entry.channel, c, n, w)]
            && r.status == Status(c, true, AvFile(i, entry.channel, c, n, w),
                                  if entry.channel == status.channel then status.loudnessLogName
                                  else LogFile(i, c, LogAnswer(s, i), w), false)
            && r.currentSchedule == entry && r.started == s.cards[i].started + [entry]
  {
    hide RecordName, Retune, StartRecording, CloseRecording;
    var d := At(s, i);
    if entry.channel == d.card.status.channel {
      Records(d, i, entry.channel, w);
    } else {
      Retunes(d, i, entry.channel, w);
      Records(Retune(d, i, entry.channel, w), i, entry.channel, w);
    }
  }

  /** And when statements are executed: the recording's row, an end in the row of the recording before, and all other
      rows as they were; the same for the logs if the channel changes. */
  lemma TakenUpRows(s: State, i: nat, entry: Schedule, w: World)
    requires i < |s.cards| && ShortPaths(w) && AllSent(w) && WritesSucceed(w)
    ensures var r, status := NewSchedule(s, i, entry, w), s.cards[i].status;
            var c, n := TunedTo(status, i, entry.channel, s.turn, w), AvAnswer(s, i, entry.channel);
            var end := if status.avRecordName == "" then "" else w.stamp(n - 1);
            forall q :: Get(r.playback, q) ==
              if q == AvFile(i, entry.channel, c, n, w) then Some(Row(i, entry.channel, c, n, w))
              else EndedRecording(Get(s.playback, q), q == status.avRecordName && q != "", end)
    ensures var r, status := NewSchedule(s, i, entry, w), s.cards[i].status;
            var c, n := TunedTo(status, i, entry.channel, s.turn, w), LogAnswer(s, i);
            if entry.channel == status.channel then r.log == s.log
            else forall q :: Get(r.log, q) ==
                   if q == LogFile(i, c, n, w)
                   then Some(LogRow(w.stamp(n), "", c, ChannelField(w.channelName(c)), AudioFile(i, c, n + 1, w)))
                   else Ended(Get(s.log, q), q == status.loudnessLogName && q != "", w.stamp(s.turn + 3))
  {
    hide RecordName, Retune, StartRecording, CloseRecording, Get;
    var d := At(s, i);
    if entry.channel == d.card.status.channel {
      Records(d, i, entry.channel, w);
    } else {
      Retunes(d, i, entry.channel, w);
      Records(Retune(d, i, entry.channel, w), i, entry.channel, w);
    }
  }

  /** The schedule's part of a turn: an entry that is active and not the current one is taken up; a recording without
      an active entry is told to end, and its row is ended; otherwise nothing is done at all. */
  lemma ScheduleStepDoes(s: State, i: nat, now: int, w: World)
    requires i < |s.cards| && ShortPaths(w) && AllSent(w)
    ensures var r, card := ScheduleStep(s, i, now, w), s.cards[i];
            match CurrentSchedule(s.schedule, i, now)
            case Some(entry) =>
              r == if card.currentSchedule.start != entry.start || card.currentSchedule.channel != entry.channel
                   then NewSchedule(s, i, entry, w) else s
            case None =>
              if !card.status.recording then r == s
              else
                && r.cards[i].sent == card.sent + [AvRecordEnd]
                && r.cards[i].status == card.status.(recording := false, avRecordName := "", programDataUpdated := true)
                && r.log == s.log
                && (WritesSucceed(w) ==>
                      forall q :: Get(r.playback, q) ==
                        EndedRecording(Get(s.playback, q), q == card.status.avRecordName && q != "", w.stamp(s.turn + 1)))
  {
    var ended, end := s.cards[i].status.avRecordName, w.stamp(s.turn + 1);
    forall q ensures Get(EndPlayback(s.playback, ended, end), q) == EndedRecording(Get(s.playback, q), q == ended, end) {
      GetUpdate(s.playback, ended, (r: PlaybackRow) => r.(end := end), q);
    }
  }

  // ----- a new programme -------------------------------------------------------------------------------------------

  /** The programme of the guide is not the one remembered: it is on the tuned channel, as the remembered one was, and
      neither began with that one nor with the schedule entry. */
  predicate NewProgramme(card: Card, e: Epg)
  {
    && e.channel == card.status.channel && e.channel == card.currentEpg.channel
    && e.start != card.currentEpg.start && e.start != card.currentSchedule.start
  }

  /** A recording whose row has no programme yet. */
  predicate Unwritten(status: Status)
  {
    status.recording && status.avRecordName != "" && !status.programDataUpdated
  }

  /** The number of the answer to the reset, behind what writing a first programme takes. */
  function ResetAnswer(s: State, i: nat): nat
    requires i < |s.cards|
  {
    s.turn + if Unwritten(s.cards[i].status) then 1 + |s.cards| else 0
  }

  /** Splitting: the reset, the end of the recording that runs, the next one, and its programme. */
  lemma Splits(d: Desk, i: nat, e: Epg, w: World)
    requires ShortPaths(w) && AllSent(w)
    ensures var r, status, channel := SplitRecording(d, i, e, w), d.card.status, d.card.currentSchedule.channel;
            var c, n := status.channel, d.turn + 1 + Ending(status.avRecordName);
            var name := AvFile(i, channel, c, n, w);
            if !status.recording then r.card == d.card.(sent := d.card.sent + [AnalyzerReset]) && r.playback == d.playback
            else
              && r.card.sent == d.card.sent + [AnalyzerReset, AvCommand(i, channel, c, n, w)]
              && r.card.status == status.(avRecordName := name, programDataUpdated := true)
              && (WritesSucceed(w) ==>
                    forall q :: Get(r.playback, q) ==
                      if q == name then Some(WithProgram(Row(i, channel, c, n, w), e, w))
                      else EndedRecording(Get(d.playback, q), q == status.avRecordName && q != "", w.stamp(d.turn + 1)))
  {
    hide RecordName, StartRecording, CloseRecording;
    var d1, channel := Send(d, AnalyzerReset, w).0, d.card.currentSchedule.channel;
    if d.card.status.recording {
      Records(d1, i, channel, w);
      var d2 := StartRecording(CloseRecording(d1, w), i, channel, w);
      forall q ensures Get(SetProgram(d2.playback, d2.card.status.avRecordName, e, w.text), q)
                       == Programmed(Get(d2.playback, q), q == d2.card.status.avRecordName, e, w)
      {
        ProgramIsWritten(d2.playback, d2.card.status.avRecordName, e, w, q);
      }
    }
  }

  function Programmed(row: Option<PlaybackRow>, it: bool, e: Epg, w: World): Option<PlaybackRow>
  {
    match row case None => None case Some(r) => Some(if it then WithProgram(r, e, w) else r)
  }

  lemma ProgramIsWritten(t: Playback, name: string, e: Epg, w: World, q: string)
    ensures Get(SetProgram(t, name, e, w.text), q) == Programmed(Get(t, q), q == name, e, w)
  {
    GetUpdate(t, name, (r: PlaybackRow) =>
      r.(programName := e.name, programStart := w.text(e.start), programEnd := w.text(e.end)), q);
  }

  /** The first programme of a recording: only its row and the note that it is written. */
  lemma FirstIsWritten(s: State, i: nat, e: Epg, w: World)
    requires i < |s.cards|
    ensures var r, card := FirstProgram(s, i, e, w), s.cards[i];
            && r.cards[i] == card.(status := card.status.(programDataUpdated :=
                                     card.status.programDataUpdated || Unwritten(card.status)))
            && r.turn == ResetAnswer(s, i)
            && (WritesSucceed(w) ==>
                  forall q :: Get(r.playback, q)
                    == Programmed(Get(s.playback, q), Unwritten(card.status) && q == card.status.avRecordName, e, w))
  {
    forall q ensures Get(SetProgram(s.playback, s.cards[i].status.avRecordName, e, w.text), q)
                     == Programmed(Get(s.playback, q), q == s.cards[i].status.avRecordName, e, w)
    {
      ProgramIsWritten(s.playback, s.cards[i].status.avRecordName, e, w, q);
    }
  }

  /** The guide's part of a turn, when commands get through. A new programme resets the loudness and, if the card is
      recording, starts the next recording under a name of its own; without a new programme nothing is sent, and the
      recording goes on under its name. */
  lemma GuideStepSends(s: State, i: nat, now: int, w: World)
    requires i < |s.cards| && ShortPaths(w) && AllSent(w)
    ensures var r, card := GuideStep(s, i, now, w).cards[i], s.cards[i];
            var e, channel := CurrentEpg(s.guide, i, now), card.currentSchedule.channel;
            var c, n := card.status.channel, ResetAnswer(s, i) + 1 + Ending(card.status.avRecordName);
            if e.None? || !NewProgramme(card, e.value) then
              r.sent == card.sent && r.status.avRecordName == card.status.avRecordName
              && r.status.recording == card.status.recording
            else if !card.status.recording then r.sent == card.sent + [AnalyzerReset] && r.status == card.status
            else
              && r.sent == card.sent + [AnalyzerReset, AvCommand(i, channel, c, n, w)]
              && r.status == card.status.(avRecordName := AvFile(i, channel, c, n, w), programDataUpdated := true)
              && r.currentEpg == e.value
  {
    hide RecordName, SplitRecording, FirstProgram;
    match CurrentEpg(s.guide, i, now)
    case None =>
    case Some(e) =>
      FirstIsWritten(s, i, e, w);
      var s1 := FirstProgram(s, i, e, w);
      Splits(At(WithEpg(s1, i, Remembered(s1.cards[i], e)), i), i, e, w);
  }

  /** And what the rows say when statements are executed. At a new programme the row of the recording that runs gets
      its end, and the next recording's row has the programme's name and times; a recording whose row has no programme
      gets the one of the guide. All other rows are as they were. */
  lemma GuideStepRows(s: State, i: nat, now: int, w: World)
    requires i < |s.cards| && ShortPaths(w) && AllSent(w) && WritesSucceed(w)
    ensures var r, card := GuideStep(s, i, now, w), s.cards[i];
            var status, channel := card.status, card.currentSchedule.channel;
            var c, n := status.channel, ResetAnswer(s, i) + 1 + Ending(status.avRecordName);
            match CurrentEpg(s.guide, i, now)
            case None => r.playback == s.playback
            case Some(e) =>
              if e.channel != c then r.playback == s.playback
              else forall q ::
                var row := Programmed(Get(s.playback, q), Unwritten(status) && q == status.avRecordName, e, w);
                Get(r.playback, q) ==
                  if !NewProgramme(card, e) || !status.recording then row
                  else if q == AvFile(i, channel, c, n, w) then Some(WithProgram(Row(i, channel, c, n, w), e, w))
                  else EndedRecording(row, q == status.avRecordName && q != "", w.stamp(ResetAnswer(s, i) + 1))
  {
    hide RecordName, SplitRecording, FirstProgram, Get;
    match CurrentEpg(s.guide, i, now)
    case None =>
    case Some(e) =>
      FirstIsWritten(s, i, e, w);
      var s1 := FirstProgram(s, i, e, w);
      Splits(At(WithEpg(s1, i, Remembered(s1.cards[i], e)), i), i, e, w);
  }
}
