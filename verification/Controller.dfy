/** The controller's per-card recording machine (controller/main.c): start-up, one turn of the main loop, and
    the client's requests that touch it. */
module Controller {
  import opened Database
  import opened FileNames
  import opened Ipc
  import opened Schedules
  import opened Tables

  /** What the controller keeps per card. `sent` is the history of commands the monitor's socket accepted,
      `started` the history of schedule entries that were taken up. */
  datatype Card = Card(status: Status, currentSchedule: Schedule, currentEpg: Epg,
                       sent: seq<Command>, started: seq<Schedule>)

  const NO_SCHEDULE := Schedule(0, 0, 0, 0)
  const NO_EPG := Epg(0, 0, "", 0, 0)

  /** The whole state: the cards, the schedule up to its sentinel, the guide, and the four tables.
      `turn` numbers the answers of the outside world. */
  datatype State = State(cards: seq<Card>, schedule: seq<Schedule>, guide: seq<Epg>,
                         statusTable: Table<int, Status>, scheduleTable: seq<Schedule>,
                         playback: Playback, log: Logs, turn: nat)

  /** The outside world: whether the send, SQL statement or key press with a given number succeeds, the local
      time as text at that moment, the channel names, and what an unset name buffer happens to hold. */
  datatype World = World(sends: nat -> bool, writes: nat -> bool, tunes: nat -> bool, stamp: nat -> string,
                         channelName: int -> string, text: int -> string, offset: nat -> real,
                         unset: nat -> string, logPath: string, recordPath: string, lircdCount: nat)

  /** Directories fit into the argument of a command, with the slash and the terminator. */
  predicate ShortPaths(w: World)
  {
    |w.logPath| + 2 <= IPC_MESSAGE_LENGTH && |w.recordPath| + 2 <= IPC_MESSAGE_LENGTH
  }

  /** The one for recordings leaves room for a character of a name, and the clock prints in its format. */
  ghost predicate NamesRecordings(w: World)
  {
    ShortPaths(w) && |w.recordPath| + 2 < IPC_MESSAGE_LENGTH && forall n :: IsStamp(w.stamp(n))
  }

  /** So does the one for logs. */
  ghost predicate Sane(w: World)
  {
    NamesRecordings(w) && |w.logPath| + 2 < IPC_MESSAGE_LENGTH
  }

  /** They leave room for the part of a name that tells the card. */
  ghost predicate TellsCards(w: World)
  {
    Sane(w) && |w.logPath| <= LONGEST_PATH && |w.recordPath| <= LONGEST_PATH
  }

  /** The database executes every statement. */
  ghost predicate WritesSucceed(w: World) { forall n :: w.writes(n) }

  /** The field `channel_name` of a row; the name is copied up to its size. */
  const CHANNEL_NAME_SIZE: nat := 24

  function ChannelField(channelName: string): string { Truncate(channelName, CHANNEL_NAME_SIZE) }

  const IPC_SOCKET_COUNT: nat := 5

  /** What an action for one card works on: the card, the two lists, and the number of the next answer. */
  datatype Desk = Desk(card: Card, playback: Playback, log: Logs, turn: nat)

  function At(s: State, i: nat): Desk
    requires i < |s.cards|
  {
    Desk(s.cards[i], s.playback, s.log, s.turn)
  }

  function Put(s: State, i: nat, d: Desk): (r: State)
    requires i < |s.cards|
  {
    s.(cards := s.cards[i := d.card], playback := d.playback, log := d.log, turn := d.turn)
  }

  function WithStatus(d: Desk, status: Status): Desk
  {
    d.(card := d.card.(status := status))
  }

  /** The card's place in the schedule and in the guide is untouched. */
  predicate SamePlace(a: Card, b: Card)
  {
    a.currentSchedule == b.currentSchedule && a.started == b.started && a.currentEpg == b.currentEpg && b.sent <= a.sent
  }

  // ----- single actions -------------------------------------------------------------------------------------

  /** `ipc_send_message`. */
  function Send(d: Desk, c: Command, w: World): (r: (Desk, bool))
    ensures SamePlace(r.0.card, d.card)
  {
    var ok := w.sends(d.turn);
    (d.(card := if ok then d.card.(sent := d.card.sent + [c]) else d.card, turn := d.turn + 1), ok)
  }

  /** Writing the end of the row the card's recording has, and forgetting its name. */
  function CloseRecording(d: Desk, w: World): (r: Desk)
    ensures SamePlace(r.card, d.card)
  {
    var status := d.card.status;
    if status.avRecordName == "" then d
    else
      var playback := if w.writes(d.turn) then EndPlayback(d.playback, status.avRecordName, w.stamp(d.turn)) else d.playback;
      WithStatus(d.(playback := playback, turn := d.turn + 1), status.(avRecordName := ""))
  }

  function CloseLog(d: Desk, w: World): (r: Desk)
    ensures SamePlace(r.card, d.card)
  {
    var status := d.card.status;
    if status.loudnessLogName == "" then d
    else
      var log := if w.writes(d.turn) then EndLog(d.log, status.loudnessLogName, w.stamp(d.turn)) else d.log;
      WithStatus(d.(log := log, turn := d.turn + 1), status.(loudnessLogName := ""))
  }

  /** The name a recording started now gets, and its row. */
  function RecordingName(d: Desk, i: nat, channel: int, w: World): string
    requires ShortPaths(w)
  {
    RecordName(w.recordPath, w.stamp(d.turn), i, channel, w.channelName(d.card.status.channel), ".ts")
  }

  function RecordingRow(d: Desk, i: nat, channel: int, w: World): PlaybackRow
  {
    PlaybackRow(w.stamp(d.turn), "", channel, ChannelField(w.channelName(d.card.status.channel)), "", "", "", 0.0, w.offset(i), Recorded)
  }

  /** `av_record_start` and what follows it: a row and a recording card, or neither. */
  function StartRecording(d: Desk, i: nat, channel: int, w: World): (r: Desk)
    requires ShortPaths(w)
    ensures SamePlace(r.card, d.card)
  {
    var status, name := d.card.status, RecordingName(d, i, channel, w);
    var (d1, sent) := Send(d, AvRecordStart(w.recordPath + "/" + name), w);
    if sent then
      var playback := if w.writes(d1.turn) then Upsert(d.playback, name, RecordingRow(d, i, channel, w)) else d.playback;
      WithStatus(d1.(playback := playback, turn := d1.turn + 1),
                 status.(recording := true, avRecordName := name, programDataUpdated := false))
    else
      WithStatus(d1, status.(recording := false, avRecordName := "", programDataUpdated := true))
  }

  /** `update_playback_list_program_data` for the recording of the card. */
  function WriteProgram(d: Desk, e: Epg, w: World): (r: Desk)
    ensures SamePlace(r.card, d.card)
  {
    var status := d.card.status;
    var playback := if w.writes(d.turn) then SetProgram(d.playback, status.avRecordName, e, w.text) else d.playback;
    WithStatus(d.(playback := playback, turn := d.turn + 1), status.(programDataUpdated := true))
  }

  function LogName(d: Desk, i: nat, w: World): string
    requires ShortPaths(w)
  {
    var channel := d.card.status.channel;
    RecordName(w.logPath, w.stamp(d.turn), i, channel, w.channelName(channel), ".log")
  }

  function AudioName(d: Desk, i: nat, w: World): string
    requires ShortPaths(w)
  {
    var channel := d.card.status.channel;
    RecordName(w.recordPath, w.stamp(d.turn), i, channel, w.channelName(channel), "_audio.ts")
  }

  /** The row of a log whose start command is answer number `d.turn`; when the audio recording cannot be
      started behind it, the row gets whatever its name buffer holds. */
  function NewLogRow(d: Desk, i: nat, w: World): LogRow
    requires ShortPaths(w)
  {
    var channel, d1 := d.card.status.channel, d.(turn := d.turn + 1);
    LogRow(w.stamp(d.turn), "", channel, ChannelField(w.channelName(channel)),
           if w.sends(d1.turn) then AudioName(d1, i, w) else w.unset(d1.turn))
  }

  /** `loudness_log_start` and, when it is sent, `audio_record_start` and the log's row. */
  function StartLog(d: Desk, i: nat, w: World): (r: Desk)
    requires ShortPaths(w)
    ensures SamePlace(r.card, d.card)
  {
    var status, name := d.card.status, LogName(d, i, w);
    var (d1, sent) := Send(d, LoudnessLogStart(w.logPath + "/" + name), w);
    if sent then
      var d2 := Send(d1, AudioRecordStart(w.recordPath + "/" + AudioName(d1, i, w)), w).0;
      var log := if w.writes(d2.turn) then Upsert(d.log, name, NewLogRow(d, i, w)) else d.log;
      WithStatus(d2.(log := log, turn := d2.turn + 1), status.(loudnessLogName := name))
    else
      WithStatus(d1, status.(loudnessLogName := ""))
  }

  /** Ending the log and the audio recording before a change of channel. */
  function StopLog(d: Desk, w: World): (r: Desk)
    ensures SamePlace(r.card, d.card)
  {
    var d1 := Send(d, AudioRecordEnd, w).0;
    var d2 := Send(d1, LoudnessLogEnd, w).0;
    Send(CloseLog(d2, w), AnalyzerReset, w).0
  }

  /** Pressing the keys, if the card has a remote control. */
  function Tuned(d: Desk, i: nat, channel: int, w: World): (r: Desk)
    ensures SamePlace(r.card, d.card)
  {
    var status := d.card.status;
    WithStatus(d.(turn := d.turn + 1), if i < w.lircdCount && w.tunes(d.turn) then status.(channel := channel) else status)
  }

  /** Moving the card to another channel: the log and the audio recording start over. */
  function Retune(d: Desk, i: nat, channel: int, w: World): (r: Desk)
    requires ShortPaths(w)
    ensures SamePlace(r.card, d.card)
  {
    StartLog(StopLog(Tuned(d, i, channel, w), w), i, w)
  }

  /** Taking up a schedule entry on the channel. */
  function BeginEntry(d: Desk, i: nat, channel: int, w: World): (r: Desk)
    requires ShortPaths(w)
    ensures SamePlace(r.card, d.card)
  {
    var d1 := if channel == d.card.status.channel then d else Retune(d, i, channel, w);
    StartRecording(CloseRecording(d1, w), i, channel, w)
  }

  /** Ending the recording of an entry that has run out. */
  function FinishEntry(d: Desk, w: World): (r: Desk)
    ensures SamePlace(r.card, d.card)
  {
    var d2 := CloseRecording(Send(d, AvRecordEnd, w).0, w);
    WithStatus(d2, d2.card.status.(recording := false, avRecordName := "", programDataUpdated := true))
  }

  /** A new programme on the tuned channel: the loudness starts over, and a running recording is split. */
  function SplitRecording(d: Desk, i: nat, e: Epg, w: World): (r: Desk)
    requires ShortPaths(w)
    ensures SamePlace(r.card, d.card)
  {
    var d1 := Send(d, AnalyzerReset, w).0;
    if d1.card.status.recording then
      var d2 := StartRecording(CloseRecording(d1, w), i, d.card.currentSchedule.channel, w);
      if d2.card.status.recording then WriteProgram(d2, e, w) else d2
    else d1
  }

  // ----- one card's part of a turn ------------------------------------------------------------------------------

  function Statuses(cards: seq<Card>): (r: seq<Status>)
  {
    seq(|cards|, i requires 0 <= i < |cards| => cards[i].status)
  }

  /** `save_status_data`: all cards. */
  function SaveStatus(s: State, w: World): (r: State)
    ensures r == s.(statusTable := r.statusTable, turn := r.turn)
  {
    var t := SetStatus(s.statusTable, Statuses(s.cards), 0, From(w.writes, s.turn)).0;
    s.(statusTable := t, turn := s.turn + |s.cards|)
  }

  /** Everything but card `i`, the tables and the turn is as before. */
  ghost predicate OthersSame(s: State, r: State, i: nat)
    requires i < |s.cards|
  {
    && |r.cards| == |s.cards| && r.cards == s.cards[i := r.cards[i]]
    && r.schedule == s.schedule && r.guide == s.guide && r.scheduleTable == s.scheduleTable
  }

  predicate Differs(card: Card, entry: Schedule)
  {
    card.currentSchedule.start != entry.start || card.currentSchedule.channel != entry.channel
  }

  /** A schedule entry that is not the current one becomes active. */
  function NewSchedule(s: State, i: nat, entry: Schedule, w: World): (r: State)
    requires i < |s.cards| && ShortPaths(w)
    ensures OthersSame(s, r, i)
  {
    var s1 := SaveStatus(Put(s, i, BeginEntry(At(s, i), i, entry.channel, w)), w);
    var card := s1.cards[i];
    s1.(cards := s1.cards[i := card.(currentSchedule := entry, started := card.started + [entry])])
  }

  function ScheduleStep(s: State, i: nat, now: int, w: World): (r: State)
    requires i < |s.cards| && ShortPaths(w)
    ensures OthersSame(s, r, i)
  {
    match CurrentSchedule(s.schedule, i, now)
    case Some(entry) => if Differs(s.cards[i], entry) then NewSchedule(s, i, entry, w) else s
    case None => if s.cards[i].status.recording then SaveStatus(Put(s, i, FinishEntry(At(s, i), w)), w) else s
  }

  /** The programme data of a recording that has none yet. */
  function FirstProgram(s: State, i: nat, e: Epg, w: World): (r: State)
    requires i < |s.cards|
    ensures OthersSame(s, r, i)
  {
    var status := s.cards[i].status;
    if status.recording && status.avRecordName != "" && !status.programDataUpdated
    then SaveStatus(Put(s, i, WriteProgram(At(s, i), e, w)), w) else s
  }

  /** The programme remembered before the comparison of starts. */
  function Remembered(card: Card, e: Epg): Epg
  {
    if e.channel != card.currentEpg.channel || e.start == card.currentSchedule.start then e else card.currentEpg
  }

  function WithEpg(s: State, i: nat, e: Epg): (r: State)
    requires i < |s.cards|
    ensures OthersSame(s, r, i)
  {
    s.(cards := s.cards[i := s.cards[i].(currentEpg := e)])
  }

  function NewProgram(s: State, i: nat, e: Epg, w: World): (r: State)
    requires i < |s.cards| && ShortPaths(w)
    ensures OthersSame(s, r, i)
  {
    WithEpg(SaveStatus(Put(s, i, SplitRecording(At(s, i), i, e, w)), w), i, e)
  }

  function GuideStep(s: State, i: nat, now: int, w: World): (r: State)
    requires i < |s.cards| && ShortPaths(w)
    ensures OthersSame(s, r, i)
  {
    match CurrentEpg(s.guide, i, now)
    case None => s
    case Some(e) =>
      if e.channel != s.cards[i].status.channel then s
      else
        var s1 := FirstProgram(s, i, e, w);
        var s2 := WithEpg(s1, i, Remembered(s1.cards[i], e));
        if s2.cards[i].currentEpg.start != e.start then NewProgram(s2, i, e, w) else s2
  }

  /** The times at which one card's part of a turn reads the clock for the schedule and for the guide. */
  datatype Clocks = Clocks(schedule: int, guide: int)

  function CardTick(s: State, i: nat, now: Clocks, w: World): (r: State)
    requires i < |s.cards| && ShortPaths(w)
    ensures OthersSame(s, r, i)
  {
    GuideStep(ScheduleStep(s, i, now.schedule, w), i, now.guide, w)
  }

  /** The cards from `i` on. */
  function TickFrom(s: State, i: nat, now: seq<Clocks>, w: World): (r: State)
    requires i <= |s.cards| == |now| && ShortPaths(w)
    ensures |r.cards| == |s.cards| && (forall j :: 0 <= j < i ==> r.cards[j] == s.cards[j])
    ensures r.schedule == s.schedule && r.guide == s.guide && r.scheduleTable == s.scheduleTable
    decreases |s.cards| - i
  {
    if i == |s.cards| then s else TickFrom(CardTick(s, i, now[i], w), i + 1, now, w)
  }

  // ----- start-up and the client's requests ----------------------------------------------------------------------

  /** The state of a process that has just started over the given tables: the saved statuses and schedule. */
  function Load(s: State): (r: State)
    ensures |r.cards| == |s.cards|
  {
    var status := LoadStatus(s.statusTable, seq(|s.cards|, _ => NO_STATUS));
    s.(cards := seq(|s.cards|, i requires 0 <= i < |s.cards| =>
                      Card(status[i], NO_SCHEDULE, NO_EPG, s.cards[i].sent, s.cards[i].started)),
       schedule := Entries(s.scheduleTable), guide := [])
  }

  function StartLogs(s: State, i: nat, w: World): (r: State)
    requires i <= |s.cards| && ShortPaths(w)
    ensures |r.cards| == |s.cards|
    decreases |s.cards| - i
  {
    if i == |s.cards| then s else StartLogs(Put(s, i, StartLog(CloseLog(At(s, i), w), i, w)), i + 1, w)
  }

  function Startup(s: State, w: World): (r: State)
    requires ShortPaths(w)
    ensures |r.cards| == |s.cards|
  {
    SaveStatus(StartLogs(Load(s), 0, w), w)
  }

  /** The items of a channel-change message, from the first on. */
  function ChangeChannels(s: State, items: seq<(nat, int)>, w: World): (r: State)
    requires ShortPaths(w)
    ensures |r.cards| == |s.cards|
    decreases |items|
  {
    if items == [] then s
    else
      var (i, channel) := items[0];
      var s1 := if |s.cards| <= i || channel == s.cards[i].status.channel then s
                else Put(s, i, Retune(At(s, i), i, channel, w));
      ChangeChannels(s1, items[1..], w)
  }

  /** One file of a user-loudness message: its own name and the name of the recording it was measured on. */
  datatype UserFile = UserFile(name: string, recordName: string)

  /** The rows a user-loudness message adds: copies of the named recordings' rows, marked as the user's. */
  function UserRows(playback: Playback, files: seq<UserFile>): (rows: seq<(string, PlaybackRow)>)
    ensures |rows| <= |files|
  {
    if files == [] then []
    else
      var rest := UserRows(playback, files[1..]);
      match Get(playback, files[0].recordName)
      case Some(row) => [(files[0].name, row.(rowType := User))] + rest
      case None => rest
  }

  /** `database_set_playback_list_data`: one upsert per row, up to the first that fails. */
  function UpsertRows(playback: Playback, rows: seq<(string, PlaybackRow)>, ok: Answers, n: nat): Playback
    decreases |rows|
  {
    if rows == [] || !ok(n) then playback
    else UpsertRows(Upsert(playback, rows[0].0, rows[0].1), rows[1..], ok, n + 1)
  }

  /** `save_user_loudness_data`: the user-loudness table first, then the playback rows. */
  function AddUserRows(s: State, files: seq<UserFile>, w: World): (r: State)
    ensures r.cards == s.cards
  {
    var saved := AllSucceed(w.writes, s.turn, |files|);
    var turn := s.turn + |files|;
    s.(playback := if saved then UpsertRows(s.playback, UserRows(s.playback, files), w.writes, turn) else s.playback,
       turn := turn + |files|)
  }

  datatype Event =
    | Tick(now: seq<Clocks>)
    | ChannelChange(items: seq<(nat, int)>)
    | UserLoudness(files: seq<UserFile>)
    | ScheduleMessage(entries: seq<Schedule>)
    | GuideRefresh(guide: seq<Epg>)
    | Forward(card: nat, command: Command)
    | LoudnessReply(name: string, loudness: real)
    | Restart

  /** Commands the client causes directly: streaming and loudness reset. */
  predicate Forwarded(c: Command) { c.AvStreamStart? || c.AvStreamEnd? || c.AnalyzerReset? }

  predicate ValidEvent(s: State, ev: Event)
  {
    match ev
    case Tick(now) => |now| == |s.cards|
    case Forward(card, c) => card < |s.cards| && Forwarded(c)
    case _ => true
  }

  function Step(s: State, ev: Event, w: World): (r: State)
    requires ValidEvent(s, ev) && ShortPaths(w)
    ensures |r.cards| == |s.cards|
  {
    match ev
    case Tick(now) => TickFrom(s, 0, now, w)
    case ChannelChange(items) => SaveStatus(ChangeChannels(s, items, w), w)
    case UserLoudness(files) => AddUserRows(s, files, w)
    case ScheduleMessage(entries) =>
      var saved := SetSchedule(s.scheduleTable, Entries(entries), From(w.writes, s.turn)).0;
      s.(schedule := Entries(entries), scheduleTable := saved, turn := s.turn + 1 + |entries|)
    case GuideRefresh(guide) => s.(guide := guide)
    case Forward(card, c) => Put(s, card, Send(At(s, card), c, w).0)
    case LoudnessReply(name, loudness) =>
      s.(playback := if w.writes(s.turn) then SetLoudness(s.playback, name, loudness) else s.playback, turn := s.turn + 1)
    case Restart => Startup(s, w)
  }

  /** A controller whose database is still empty. */
  function Empty(n: nat): State
  {
    State(seq(n, _ => Card(NO_STATUS, NO_SCHEDULE, NO_EPG, [], [])), [], [], [], [], [], [], 0)
  }

  ghost predicate ValidRun(s: State, events: seq<Event>, w: World)
    requires ShortPaths(w)
    decreases |events|
  {
    events == [] || (ValidEvent(s, events[0]) && ValidRun(Step(s, events[0], w), events[1..], w))
  }

  function Run(s: State, events: seq<Event>, w: World): (r: State)
    requires ShortPaths(w) && ValidRun(s, events, w)
    ensures |r.cards| == |s.cards|
    decreases |events|
  {
    if events == [] then s else Run(Step(s, events[0], w), events[1..], w)
  }
}
