/** The controller against the commands it has sent: a monitor that carries them out has the recording and the log the
    controller believes in. */
module Following {
  import opened Controller
  import opened Database
  import opened FileNames
  import opened Ipc
  import opened Monitor
  import opened Schedules
  import opened TickSafety

  const SUCCESS := Outcome(true, true, true, true, true, true)

  /** The devices after the commands, from a monitor that has just started. */
  function Replay(m: Devices, commands: seq<Command>): Devices
    decreases |commands|
  {
    if commands == [] then m
    else HandleDevices(Replay(m, commands[..|commands| - 1]), commands[|commands| - 1], SUCCESS)
  }

  lemma ReplayLast(m: Devices, commands: seq<Command>, c: Command)
    ensures Replay(m, commands + [c]) == HandleDevices(Replay(m, commands), c, SUCCESS)
  {
    assert (commands + [c])[..|commands|] == commands;
  }

  lemma {:induction false} ReplayAppend(m: Devices, a: seq<Command>, b: seq<Command>)
    ensures Replay(m, a + b) == Replay(Replay(m, a), b)
    decreases |b|
  {
    hide HandleDevices;
    if b == [] {
      assert a + b == a;
    } else {
      var n := |b| - 1;
      ReplayAppend(m, a, b[..n]);
      assert (a + b)[..|a| + n] == a + b[..n];
    }
  }

  // ----- the controller against the commands it has sent -------------------------------------------------------------

  function Remote(card: Card): Devices { Replay(CLOSED, card.sent) }

  /** The recording the monitor will have is the one the card names. */
  predicate RecordingFollows(card: Card, w: World)
  {
    var m := Remote(card);
    && m.avFlag == card.status.recording
    && (m.avFlag ==> m.avName == w.recordPath + "/" + card.status.avRecordName)
  }

  /** Likewise the log, and the audio recording runs as long as the log does. */
  predicate LogFollows(card: Card, w: World)
  {
    var m := Remote(card);
    && !m.ended
    && m.logFlag == (card.status.loudnessLogName != "") == m.audioFlag
    && (m.logFlag ==> m.logName == w.logPath + "/" + card.status.loudnessLogName)
  }

  predicate Follows(card: Card, w: World)
  {
    RecordingFollows(card, w) && LogFollows(card, w) && Named(card.status)
  }

  ghost predicate SendsSucceed(w: World) { Sane(w) && forall n :: w.sends(n) }

  /** A command that arrives. */
  lemma SendRemote(d: Desk, c: Command, w: World)
    requires SendsSucceed(w)
    ensures var r := Send(d, c, w).0;
            r.card == d.card.(sent := d.card.sent + [c]) && Remote(r.card) == HandleDevices(Remote(d.card), c, SUCCESS)
  {
    ReplayLast(CLOSED, d.card.sent, c);
  }

  lemma StartRecordingFollows(i: nat, d: Desk, channel: int, w: World)
    requires SendsSucceed(w) && LogFollows(d.card, w)
    ensures Follows(StartRecording(d, i, channel, w).card, w)
  {
    hide RecordName, StreamTarget;
    FirstOfName(w.recordPath, w.stamp(d.turn), i, channel, w.channelName(d.card.status.channel), ".ts");
    SendRemote(d, AvRecordStart(w.recordPath + "/" + RecordingName(d, i, channel, w)), w);
  }

  /** What starting a log does to the card when the commands arrive. */
  lemma StartLogCard(i: nat, d: Desk, w: World)
    requires ShortPaths(w) && forall n :: w.sends(n)
    ensures var name := LogName(d, i, w);
            var c1, c2 := LoudnessLogStart(w.logPath + "/" + name),
                          AudioRecordStart(w.recordPath + "/" + AudioName(d.(turn := d.turn + 1), i, w));
            var r := StartLog(d, i, w).card;
            r.status == d.card.status.(loudnessLogName := name) && r.sent == d.card.sent + [c1] + [c2]
  {
  }

  lemma StartLogDevices(m: Devices, log: string, audio: string)
    requires log != "" && audio != "" && !m.ended
    ensures HandleDevices(HandleDevices(m, LoudnessLogStart(log), SUCCESS), AudioRecordStart(audio), SUCCESS)
            == m.(logFlag := true, logName := log, audioFlag := true, audioName := audio)
  {
  }

  /** Starting a log, whatever the monitor's log was. */
  lemma StartLogFollows(i: nat, d: Desk, w: World)
    requires SendsSucceed(w)
    requires RecordingFollows(d.card, w) && Named(d.card.status) && !Remote(d.card).ended
    ensures Follows(StartLog(d, i, w).card, w)
  {
    var channel, name := d.card.status.channel, LogName(d, i, w);
    FirstOfName(w.logPath, w.stamp(d.turn), i, channel, w.channelName(channel), ".log");
    assert name != "";
    var log, audio := w.logPath + "/" + name, w.recordPath + "/" + AudioName(d.(turn := d.turn + 1), i, w);
    var sent := d.card.sent;
    ReplayLast(CLOSED, sent, LoudnessLogStart(log));
    ReplayLast(CLOSED, sent + [LoudnessLogStart(log)], AudioRecordStart(audio));
    StartLogDevices(Remote(d.card), log, audio);
    StartLogCard(i, d, w);
  }

  lemma StopLogFollows(d: Desk, w: World)
    requires SendsSucceed(w) && Follows(d.card, w)
    ensures Follows(StopLog(d, w).card, w)
  {
    var d1 := Send(d, AudioRecordEnd, w).0;
    SendRemote(d, AudioRecordEnd, w);
    var d2 := Send(d1, LoudnessLogEnd, w).0;
    SendRemote(d1, LoudnessLogEnd, w);
    SendRemote(CloseLog(d2, w), AnalyzerReset, w);
  }

  lemma RetuneFollows(i: nat, d: Desk, channel: int, w: World)
    requires SendsSucceed(w) && Follows(d.card, w)
    ensures Follows(Retune(d, i, channel, w).card, w)
  {
    var d1 := Tuned(d, i, channel, w);
    assert Remote(d1.card) == Remote(d.card);
    StopLogFollows(d1, w);
    StartLogFollows(i, StopLog(d1, w), w);
  }

  lemma BeginEntryFollows(i: nat, d: Desk, channel: int, w: World)
    requires SendsSucceed(w) && Follows(d.card, w)
    ensures Follows(BeginEntry(d, i, channel, w).card, w)
  {
    var d1 := if channel == d.card.status.channel then d else Retune(d, i, channel, w);
    RetuneFollows(i, d, channel, w);
    assert LogFollows(CloseRecording(d1, w).card, w);
    StartRecordingFollows(i, CloseRecording(d1, w), channel, w);
  }

  lemma FinishEntryFollows(d: Desk, w: World)
    requires SendsSucceed(w) && Follows(d.card, w)
    ensures Follows(FinishEntry(d, w).card, w)
  {
    SendRemote(d, AvRecordEnd, w);
  }

  lemma SplitRecordingFollows(i: nat, d: Desk, e: Epg, w: World)
    requires SendsSucceed(w) && Follows(d.card, w)
    ensures Follows(SplitRecording(d, i, e, w).card, w)
  {
    var d1 := Send(d, AnalyzerReset, w).0;
    SendRemote(d, AnalyzerReset, w);
    assert LogFollows(CloseRecording(d1, w).card, w);
    StartRecordingFollows(i, CloseRecording(d1, w), d.card.currentSchedule.channel, w);
  }

  ghost predicate AllFollow(s: State, w: World)
  {
    forall i :: 0 <= i < |s.cards| ==> Follows(s.cards[i], w)
  }

  lemma ScheduleStepFollows(s: State, i: nat, now: int, w: World)
    requires i < |s.cards| && SendsSucceed(w) && AllFollow(s, w)
    ensures AllFollow(ScheduleStep(s, i, now, w), w)
  {
    var d := At(s, i);
    match CurrentSchedule(s.schedule, i, now)
    case Some(entry) =>
      BeginEntryFollows(i, d, entry.channel, w);
      var card := BeginEntry(d, i, entry.channel, w).card;
      assert Remote(card.(currentSchedule := entry, started := card.started + [entry])) == Remote(card);
    case None => FinishEntryFollows(d, w);
  }

  /** A state whose card `i` follows where the others are as before. */
  lemma OneFollows(s: State, i: nat, r: State, w: World)
    requires i < |s.cards| && AllFollow(s, w) && OthersSame(s, r, i) && Follows(r.cards[i], w)
    ensures AllFollow(r, w)
  {
  }

  lemma FirstProgramFollows(s: State, i: nat, e: Epg, w: World)
    requires i < |s.cards| && AllFollow(s, w)
    ensures AllFollow(FirstProgram(s, i, e, w), w)
  {
    var s1 := FirstProgram(s, i, e, w);
    assert Remote(s1.cards[i]) == Remote(s.cards[i]);
    OneFollows(s, i, s1, w);
  }

  lemma WithEpgFollows(s: State, i: nat, e: Epg, w: World)
    requires i < |s.cards| && AllFollow(s, w)
    ensures AllFollow(WithEpg(s, i, e), w)
  {
    assert Remote(s.cards[i].(currentEpg := e)) == Remote(s.cards[i]);
    OneFollows(s, i, WithEpg(s, i, e), w);
  }

  lemma NewProgramFollows(s: State, i: nat, e: Epg, w: World)
    requires i < |s.cards| && SendsSucceed(w) && AllFollow(s, w)
    ensures AllFollow(NewProgram(s, i, e, w), w)
  {
    var d := SplitRecording(At(s, i), i, e, w);
    SplitRecordingFollows(i, At(s, i), e, w);
    var s1 := SaveStatus(Put(s, i, d), w);
    OneFollows(s, i, s1, w);
    WithEpgFollows(s1, i, e, w);
  }

  lemma GuideStepFollows(s: State, i: nat, now: int, w: World)
    requires i < |s.cards| && SendsSucceed(w) && AllFollow(s, w)
    ensures AllFollow(GuideStep(s, i, now, w), w)
  {
    hide FirstProgram, NewProgram, Follows;
    match CurrentEpg(s.guide, i, now)
    case None =>
    case Some(e) =>
      FirstProgramFollows(s, i, e, w);
      var s1 := FirstProgram(s, i, e, w);
      WithEpgFollows(s1, i, Remembered(s1.cards[i], e), w);
      NewProgramFollows(WithEpg(s1, i, Remembered(s1.cards[i], e)), i, e, w);
  }

  lemma {:induction false} TickFollows(s: State, i: nat, now: seq<Clocks>, w: World)
    requires i <= |s.cards| == |now| && SendsSucceed(w) && AllFollow(s, w)
    ensures AllFollow(TickFrom(s, i, now, w), w)
    decreases |s.cards| - i
  {
    if i == |s.cards| {
    } else {
      ScheduleStepFollows(s, i, now[i].schedule, w);
      GuideStepFollows(ScheduleStep(s, i, now[i].schedule, w), i, now[i].guide, w);
      TickFollows(CardTick(s, i, now[i], w), i + 1, now, w);
    }
  }

  lemma {:induction false} ChangeChannelsFollows(s: State, items: seq<(nat, int)>, w: World)
    requires SendsSucceed(w) && AllFollow(s, w)
    ensures AllFollow(ChangeChannels(s, items, w), w)
    decreases |items|
  {
    if items == [] {
    } else {
      var (i, channel) := items[0];
      if i < |s.cards| && channel != s.cards[i].status.channel {
        RetuneFollows(i, At(s, i), channel, w);
        ChangeChannelsFollows(Put(s, i, Retune(At(s, i), i, channel, w)), items[1..], w);
      } else {
        ChangeChannelsFollows(s, items[1..], w);
      }
    }
  }

  lemma ForwardFollows(d: Desk, c: Command, w: World)
    requires SendsSucceed(w) && Forwarded(c) && Follows(d.card, w)
    ensures Follows(Send(d, c, w).0.card, w)
  {
    hide RecordName;
    SendRemote(d, c, w);
  }

  lemma StepFollows(s: State, ev: Event, w: World)
    requires ValidEvent(s, ev) && !ev.Restart? && SendsSucceed(w) && AllFollow(s, w)
    ensures AllFollow(Step(s, ev, w), w)
  {
    hide Follows, TickFrom, ChangeChannels, Startup;
    if ev.Tick? {
      TickFollows(s, 0, ev.now, w);
    } else if ev.ChannelChange? {
      ChangeChannelsFollows(s, ev.items, w);
    } else if ev.Forward? {
      ForwardFollows(At(s, ev.card), ev.command, w);
    }
  }

  // ----- start-up and restarts -------------------------------------------------------------------------------------------

  /** What has to hold of a card before its log is started. */
  predicate BeforeLog(card: Card, w: World)
  {
    RecordingFollows(card, w) && Named(card.status) && !Remote(card).ended
  }

  lemma OneLogFollows(i: nat, d: Desk, w: World)
    requires SendsSucceed(w) && BeforeLog(d.card, w)
    ensures Follows(StartLog(CloseLog(d, w), i, w).card, w)
  {
    assert Remote(CloseLog(d, w).card) == Remote(d.card);
    StartLogFollows(i, CloseLog(d, w), w);
  }

  /** What is so far true of the first `i` cards at start-up. */
  lemma {:induction false} StartLogsFollow(s: State, i: nat, w: World)
    requires i <= |s.cards| && SendsSucceed(w)
    requires forall j :: 0 <= j < i ==> Follows(s.cards[j], w)
    requires forall j :: i <= j < |s.cards| ==> BeforeLog(s.cards[j], w)
    ensures AllFollow(StartLogs(s, i, w), w)
    decreases |s.cards| - i
  {
    hide StartLog, CloseLog, Follows, BeforeLog;
    if i == |s.cards| {
    } else {
      OneLogFollows(i, At(s, i), w);
      StartLogsFollow(Put(s, i, StartLog(CloseLog(At(s, i), w), i, w)), i + 1, w);
    }
  }

  lemma StartupFollows(n: nat, w: World)
    requires SendsSucceed(w)
    ensures AllFollow(Startup(Empty(n), w), w)
  {
    var s := Load(Empty(n));
    forall j | 0 <= j < n ensures BeforeLog(s.cards[j], w) {
      assert s.cards[j].status == NO_STATUS;
      assert Replay(CLOSED, []) == CLOSED;
    }
    StartLogsFollow(s, 0, w);
  }

  /** The recording of two cards, in their own view and in the monitor's. */
  predicate SameRecording(a: Card, b: Card)
  {
    && a.status.recording == b.status.recording && a.status.avRecordName == b.status.avRecordName
    && Remote(a).avFlag == Remote(b).avFlag && Remote(a).avName == Remote(b).avName
  }

  lemma StartLogSameRecording(i: nat, d: Desk, w: World)
    requires SendsSucceed(w)
    ensures SameRecording(StartLog(CloseLog(d, w), i, w).card, d.card)
  {
    hide RecordName, HandleDevices;
    var d1 := CloseLog(d, w);
    StartLogCard(i, d1, w);
    var log := LoudnessLogStart(w.logPath + "/" + LogName(d1, i, w));
    var audio := AudioRecordStart(w.recordPath + "/" + AudioName(d1.(turn := d1.turn + 1), i, w));
    ReplayLast(CLOSED, d.card.sent, log);
    ReplayLast(CLOSED, d.card.sent + [log], audio);
    LogStartsKeepRecording(Remote(d.card), log, audio);
  }

  lemma LogStartsKeepRecording(m: Devices, log: Command, audio: Command)
    requires log.LoudnessLogStart? && audio.AudioRecordStart?
    ensures var r := HandleDevices(HandleDevices(m, log, SUCCESS), audio, SUCCESS);
            r.avFlag == m.avFlag && r.avName == m.avName
  {
  }

  /** Starting the logs changes no card's recording. */
  lemma {:induction false} StartLogsSameRecording(s: State, i: nat, w: World, j: nat)
    requires i <= |s.cards| && j < |s.cards| && SendsSucceed(w)
    ensures SameRecording(StartLogs(s, i, w).cards[j], s.cards[j])
    decreases |s.cards| - i
  {
    hide StartLog, CloseLog, Remote;
    if i == |s.cards| {
    } else {
      StartLogSameRecording(i, At(s, i), w);
      StartLogsSameRecording(Put(s, i, StartLog(CloseLog(At(s, i), w), i, w)), i + 1, w, j);
    }
  }

  /** A restart now would find the cards' recordings in the table. */
  predicate FindsRecording(s: State, j: nat)
    requires j < |s.cards|
  {
    var loaded, status := Load(s).cards[j].status, s.cards[j].status;
    loaded.recording == status.recording && loaded.avRecordName == status.avRecordName
  }

  ghost predicate FindsRecordings(s: State)
  {
    forall j :: 0 <= j < |s.cards| ==> FindsRecording(s, j)
  }

  lemma RestartFollows(s: State, w: World)
    requires SendsSucceed(w) && AllFollow(s, w) && FindsRecordings(s)
    ensures AllFollow(Startup(s, w), w)
  {
    forall j | 0 <= j < |s.cards| ensures BeforeLog(Load(s).cards[j], w) {
      assert Follows(s.cards[j], w) && FindsRecording(s, j);
      assert Remote(Load(s).cards[j]) == Remote(s.cards[j]);
    }
    StartLogsFollow(Load(s), 0, w);
  }

  /** A card whose recording the table does not hold no longer agrees with its monitor. */
  lemma LostRecording(s: State, w: World, j: nat)
    requires SendsSucceed(w) && j < |s.cards| && Follows(s.cards[j], w) && Follows(Startup(s, w).cards[j], w)
    ensures FindsRecording(s, j)
  {
    StartLogsSameRecording(Load(s), 0, w, j);
    assert Remote(Load(s).cards[j]) == Remote(s.cards[j]);
    if s.cards[j].status.recording {
      SameName(w.recordPath, s.cards[j].status.avRecordName, Startup(s, w).cards[j].status.avRecordName);
    }
  }

  lemma SameName(path: string, a: string, b: string)
    requires path + "/" + a == path + "/" + b
    ensures a == b
  {
    assert (path + "/" + a)[|path| + 1..] == a && (path + "/" + b)[|path| + 1..] == b;
  }

  /** The exact condition for a restart while a monitor keeps running: the last save holds the recordings. */
  lemma RestartFollowsIff(s: State, w: World)
    requires SendsSucceed(w) && AllFollow(s, w)
    ensures AllFollow(Startup(s, w), w) <==> FindsRecordings(s)
  {
    if FindsRecordings(s) {
      RestartFollows(s, w);
    }
    if AllFollow(Startup(s, w), w) {
      forall j | 0 <= j < |s.cards| ensures FindsRecording(s, j) {
        LostRecording(s, w, j);
      }
    }
  }

  // ----- the history of sent commands only grows -----------------------------------------------------------------------

  ghost predicate SentGrows(s: State, r: State)
  {
    |r.cards| == |s.cards| && forall i :: 0 <= i < |s.cards| ==> s.cards[i].sent <= r.cards[i].sent
  }

  lemma ScheduleStepSentGrows(s: State, i: nat, now: int, w: World)
    requires i < |s.cards| && ShortPaths(w)
    ensures SentGrows(s, ScheduleStep(s, i, now, w))
  {
  }

  lemma NewProgramSentGrows(s: State, i: nat, e: Epg, w: World)
    requires i < |s.cards| && ShortPaths(w)
    ensures SentGrows(s, NewProgram(s, i, e, w))
  {
  }

  lemma FirstProgramSentGrows(s: State, i: nat, e: Epg, w: World)
    requires i < |s.cards|
    ensures SentGrows(s, FirstProgram(s, i, e, w))
  {
  }

  lemma GuideStepSentGrows(s: State, i: nat, now: int, w: World)
    requires i < |s.cards| && ShortPaths(w)
    ensures SentGrows(s, GuideStep(s, i, now, w))
  {
    match CurrentEpg(s.guide, i, now)
    case None =>
    case Some(e) =>
      var s1 := FirstProgram(s, i, e, w);
      FirstProgramSentGrows(s, i, e, w);
      NewProgramSentGrows(WithEpg(s1, i, Remembered(s1.cards[i], e)), i, e, w);
  }

  lemma {:induction false} TickSentGrows(s: State, i: nat, now: seq<Clocks>, w: World)
    requires i <= |s.cards| == |now| && ShortPaths(w)
    ensures SentGrows(s, TickFrom(s, i, now, w))
    decreases |s.cards| - i
  {
    if i == |s.cards| {
    } else {
      ScheduleStepSentGrows(s, i, now[i].schedule, w);
      GuideStepSentGrows(ScheduleStep(s, i, now[i].schedule, w), i, now[i].guide, w);
      TickSentGrows(CardTick(s, i, now[i], w), i + 1, now, w);
    }
  }

  lemma {:induction false} ChangeChannelsSentGrows(s: State, items: seq<(nat, int)>, w: World)
    requires ShortPaths(w)
    ensures SentGrows(s, ChangeChannels(s, items, w))
    decreases |items|
  {
    if items == [] {
    } else {
      var (i, channel) := items[0];
      if i < |s.cards| && channel != s.cards[i].status.channel {
        ChangeChannelsSentGrows(Put(s, i, Retune(At(s, i), i, channel, w)), items[1..], w);
      } else {
        ChangeChannelsSentGrows(s, items[1..], w);
      }
    }
  }

  lemma {:induction false} StartLogsSentGrows(s: State, i: nat, w: World)
    requires i <= |s.cards| && ShortPaths(w)
    ensures SentGrows(s, StartLogs(s, i, w))
    decreases |s.cards| - i
  {
    hide StartLog, CloseLog;
    if i == |s.cards| {
    } else {
      StartLogsSentGrows(Put(s, i, StartLog(CloseLog(At(s, i), w), i, w)), i + 1, w);
    }
  }

  lemma StepSentGrows(s: State, ev: Event, w: World)
    requires ValidEvent(s, ev) && ShortPaths(w)
    ensures SentGrows(s, Step(s, ev, w))
  {
    if ev.Tick? {
      TickSentGrows(s, 0, ev.now, w);
    } else if ev.ChannelChange? {
      ChangeChannelsSentGrows(s, ev.items, w);
    } else if ev.Restart? {
      StartLogsSentGrows(Load(s), 0, w);
    }
  }
}
