/** What one turn of the controller's loop leaves behind, whichever sends and catalogue writes fail. */
module TickSafety {
  import opened Controller
  import opened Database
  import opened FileNames
  import opened Ipc
  import opened Schedules
  import opened Tables

  /** A card is recording exactly when it has a recording's name. */
  predicate Named(status: Status) { status.recording <==> status.avRecordName != "" }

  /** Every card, and every saved row a restart could load, is named. */
  ghost predicate Consistent(s: State)
  {
    && (forall j :: 0 <= j < |s.cards| ==> Named(s.cards[j].status))
    && UniqueKeys(s.statusTable)
    && (forall q :: Get(s.statusTable, q).Some? ==> Named(Get(s.statusTable, q).value))
  }

  /** The promise for one card after a turn. */
  ghost predicate CardGuarantee(schedule: seq<Schedule>, guide: seq<Epg>, card: Card, i: nat, now: Clocks)
  {
    && (match CurrentSchedule(schedule, i, now.schedule)
        case None => !card.status.recording
        case Some(entry) => card.currentSchedule.start == entry.start && card.currentSchedule.channel == entry.channel)
    && (card.status.recording <==> card.status.avRecordName != "")
    && (match CurrentEpg(guide, i, now.guide)
        case None => true
        case Some(e) =>
          e.channel == card.status.channel ==>
            && card.currentEpg.start == e.start && card.currentEpg.channel == e.channel
            && (card.status.recording ==> card.status.programDataUpdated))
  }

  /** Saving may stop anywhere: every row is then old or a card's status. */
  lemma SaveKeepsConsistent(s: State, w: World)
    requires Consistent(s)
    ensures Consistent(SaveStatus(s, w))
  {
    var r := SaveStatus(s, w);
    SetStatusRows(s.statusTable, Statuses(s.cards), 0, From(w.writes, s.turn), 0);
    forall q | Get(r.statusTable, q).Some? ensures Named(Get(r.statusTable, q).value) {
      SetStatusRows(s.statusTable, Statuses(s.cards), 0, From(w.writes, s.turn), q);
    }
  }

  /** Whether the start command gets through or not, the card comes out named. */
  lemma StartRecordingNamed(d: Desk, i: nat, channel: int, w: World)
    requires NamesRecordings(w)
    ensures Named(StartRecording(d, i, channel, w).card.status)
  {
    FirstOfName(w.recordPath, w.stamp(d.turn), i, channel, w.channelName(d.card.status.channel), ".ts");
  }

  /** The room is needed: in a directory that fills the argument the card records under the empty name. */
  lemma NamedIffRoom(d: Desk, i: nat, channel: int, w: World)
    requires ShortPaths(w) && IsStamp(w.stamp(d.turn)) && w.sends(d.turn)
    ensures Named(StartRecording(d, i, channel, w).card.status) <==> |w.recordPath| + 2 < IPC_MESSAGE_LENGTH
  {
    NameEmptyIff(w.recordPath, w.stamp(d.turn), i, channel, w.channelName(d.card.status.channel), ".ts");
  }

  lemma CardReplaced(s: State, i: nat, d: Desk)
    requires Consistent(s) && i < |s.cards| && Named(d.card.status)
    ensures Consistent(Put(s, i, d))
  {
  }

  lemma NewScheduleGuarantee(s: State, i: nat, entry: Schedule, w: World)
    requires i < |s.cards| && NamesRecordings(w) && Consistent(s)
    ensures var r := NewSchedule(s, i, entry, w);
            Consistent(r) && r.cards[i].currentSchedule == entry
  {
    var d := At(s, i);
    var d1 := if entry.channel == d.card.status.channel then d else Retune(d, i, entry.channel, w);
    StartRecordingNamed(CloseRecording(d1, w), i, entry.channel, w);
    var d2 := BeginEntry(d, i, entry.channel, w);
    CardReplaced(s, i, d2);
    SaveKeepsConsistent(Put(s, i, d2), w);
  }

  lemma ScheduleStepGuarantee(s: State, i: nat, now: int, w: World)
    requires i < |s.cards| && NamesRecordings(w) && Consistent(s)
    ensures var r := ScheduleStep(s, i, now, w);
            && Consistent(r)
            && match CurrentSchedule(s.schedule, i, now)
               case None => !r.cards[i].status.recording
               case Some(entry) => r.cards[i].currentSchedule.start == entry.start
                                   && r.cards[i].currentSchedule.channel == entry.channel
  {
    match CurrentSchedule(s.schedule, i, now)
    case None =>
      var d := FinishEntry(At(s, i), w);
      CardReplaced(s, i, d);
      SaveKeepsConsistent(Put(s, i, d), w);
    case Some(entry) =>
      NewScheduleGuarantee(s, i, entry, w);
  }

  lemma FirstProgramGuarantee(s: State, i: nat, e: Epg, w: World)
    requires i < |s.cards| && Consistent(s)
    ensures var r := FirstProgram(s, i, e, w);
            && Consistent(r)
            && r.cards[i].status.channel == s.cards[i].status.channel
            && r.cards[i].status.recording == s.cards[i].status.recording
            && r.cards[i].currentSchedule == s.cards[i].currentSchedule
            && (r.cards[i].status.recording ==> r.cards[i].status.programDataUpdated)
  {
    var d := WriteProgram(At(s, i), e, w);
    CardReplaced(s, i, d);
    SaveKeepsConsistent(Put(s, i, d), w);
  }

  lemma SplitRecordingNamed(d: Desk, i: nat, e: Epg, w: World)
    requires NamesRecordings(w) && Named(d.card.status)
    requires d.card.status.recording ==> d.card.status.programDataUpdated
    ensures var r := SplitRecording(d, i, e, w);
            && Named(r.card.status) && r.card.status.channel == d.card.status.channel
            && (r.card.status.recording ==> r.card.status.programDataUpdated && d.card.status.recording)
  {
    var d1 := Send(d, AnalyzerReset, w).0;
    StartRecordingNamed(CloseRecording(d1, w), i, d.card.currentSchedule.channel, w);
  }

  lemma EpgConsistent(s: State, i: nat, e: Epg)
    requires i < |s.cards| && Consistent(s)
    ensures Consistent(WithEpg(s, i, e))
  {
  }

  lemma NewProgramGuarantee(s: State, i: nat, e: Epg, w: World)
    requires i < |s.cards| && NamesRecordings(w) && Consistent(s)
    requires s.cards[i].status.recording ==> s.cards[i].status.programDataUpdated
    ensures var r := NewProgram(s, i, e, w);
            && Consistent(r) && r.cards[i].currentEpg == e
            && r.cards[i].currentSchedule == s.cards[i].currentSchedule
            && r.cards[i].status.channel == s.cards[i].status.channel
            && (r.cards[i].status.recording ==> s.cards[i].status.recording && r.cards[i].status.programDataUpdated)
  {
    SplitRecordingNamed(At(s, i), i, e, w);
    var d := SplitRecording(At(s, i), i, e, w);
    CardReplaced(s, i, d);
    SaveKeepsConsistent(Put(s, i, d), w);
  }

  lemma GuideStepGuarantee(s: State, i: nat, now: int, w: World)
    requires i < |s.cards| && NamesRecordings(w) && Consistent(s)
    ensures var r := GuideStep(s, i, now, w);
            && Consistent(r)
            && r.cards[i].currentSchedule == s.cards[i].currentSchedule
            && r.cards[i].status.channel == s.cards[i].status.channel
            && (r.cards[i].status.recording ==> s.cards[i].status.recording)
            && match CurrentEpg(s.guide, i, now)
               case None => true
               case Some(e) =>
                 e.channel == s.cards[i].status.channel ==>
                   && r.cards[i].currentEpg.start == e.start && r.cards[i].currentEpg.channel == e.channel
                   && (r.cards[i].status.recording ==> r.cards[i].status.programDataUpdated)
  {
    hide NewProgram, FirstProgram, Consistent;
    match CurrentEpg(s.guide, i, now)
    case None =>
    case Some(e) =>
      if e.channel == s.cards[i].status.channel {
        FirstProgramGuarantee(s, i, e, w);
        var s1 := FirstProgram(s, i, e, w);
        var s2 := WithEpg(s1, i, Remembered(s1.cards[i], e));
        EpgConsistent(s1, i, Remembered(s1.cards[i], e));
        NewProgramGuarantee(s2, i, e, w);
      }
  }

  lemma CardTickGuarantee(s: State, i: nat, now: Clocks, w: World)
    requires i < |s.cards| && NamesRecordings(w) && Consistent(s)
    ensures var r := CardTick(s, i, now, w);
            Consistent(r) && CardGuarantee(s.schedule, s.guide, r.cards[i], i, now)
  {
    ScheduleStepGuarantee(s, i, now.schedule, w);
    GuideStepGuarantee(ScheduleStep(s, i, now.schedule, w), i, now.guide, w);
  }

  lemma {:induction false} TickFromGuarantee(s: State, i: nat, now: seq<Clocks>, w: World)
    requires i <= |s.cards| == |now| && NamesRecordings(w) && Consistent(s)
    ensures var r := TickFrom(s, i, now, w);
            Consistent(r) && forall j :: i <= j < |s.cards| ==> CardGuarantee(s.schedule, s.guide, r.cards[j], j, now[j])
    decreases |s.cards| - i
  {
    if i == |s.cards| {
    } else {
      CardTickGuarantee(s, i, now[i], w);
      TickFromGuarantee(CardTick(s, i, now[i], w), i + 1, now, w);
    }
  }

  // ----- the other events keep the state consistent ------------------------------------------------------------------

  lemma RetuneNamed(d: Desk, i: nat, channel: int, w: World)
    requires ShortPaths(w) && Named(d.card.status)
    ensures Named(Retune(d, i, channel, w).card.status)
  {
  }

  lemma StartLogNamed(d: Desk, i: nat, w: World)
    requires ShortPaths(w) && Named(d.card.status)
    ensures Named(StartLog(CloseLog(d, w), i, w).card.status)
  {
  }

  lemma {:induction false} ChangeChannelsKeeps(s: State, items: seq<(nat, int)>, w: World)
    requires NamesRecordings(w) && Consistent(s)
    ensures Consistent(ChangeChannels(s, items, w))
    decreases |items|
  {
    if items == [] {
    } else {
      var (i, channel) := items[0];
      if i < |s.cards| && channel != s.cards[i].status.channel {
        var d := Retune(At(s, i), i, channel, w);
        RetuneNamed(At(s, i), i, channel, w);
        CardReplaced(s, i, d);
        ChangeChannelsKeeps(Put(s, i, d), items[1..], w);
      } else {
        ChangeChannelsKeeps(s, items[1..], w);
      }
    }
  }

  lemma LoadKeeps(s: State)
    requires Consistent(s)
    ensures Consistent(Load(s))
  {
    var r := Load(s);
    var blank := seq(|s.cards|, _ => NO_STATUS);
    forall j | 0 <= j < |s.cards| ensures Named(r.cards[j].status) {
      LoadedStatus(s.statusTable, blank, j);
    }
  }

  lemma OneLogKeeps(s: State, i: nat, w: World)
    requires i < |s.cards| && NamesRecordings(w) && Consistent(s)
    ensures Consistent(Put(s, i, StartLog(CloseLog(At(s, i), w), i, w)))
  {
    StartLogNamed(At(s, i), i, w);
    CardReplaced(s, i, StartLog(CloseLog(At(s, i), w), i, w));
  }

  lemma {:induction false} StartLogsKeeps(s: State, i: nat, w: World)
    requires i <= |s.cards| && NamesRecordings(w) && Consistent(s)
    ensures Consistent(StartLogs(s, i, w))
    decreases |s.cards| - i
  {
    hide StartLog, CloseLog, Consistent;
    if i == |s.cards| {
    } else {
      OneLogKeeps(s, i, w);
      StartLogsKeeps(Put(s, i, StartLog(CloseLog(At(s, i), w), i, w)), i + 1, w);
    }
  }

  lemma StartupKeeps(s: State, w: World)
    requires NamesRecordings(w) && Consistent(s)
    ensures Consistent(Startup(s, w))
  {
    LoadKeeps(s);
    StartLogsKeeps(Load(s), 0, w);
    SaveKeepsConsistent(StartLogs(Load(s), 0, w), w);
  }

  lemma StepKeeps(s: State, ev: Event, w: World)
    requires ValidEvent(s, ev) && NamesRecordings(w) && Consistent(s)
    ensures Consistent(Step(s, ev, w))
  {
    match ev
    case Tick(now) => TickFromGuarantee(s, 0, now, w);
    case ChannelChange(items) =>
      ChangeChannelsKeeps(s, items, w);
      SaveKeepsConsistent(ChangeChannels(s, items, w), w);
    case Restart => StartupKeeps(s, w);
    case _ =>
  }

  lemma {:induction false} RunKeeps(s: State, events: seq<Event>, w: World)
    requires NamesRecordings(w) && Consistent(s) && ValidRun(s, events, w)
    ensures Consistent(Run(s, events, w))
    decreases |events|
  {
    if events == [] {
    } else {
      StepKeeps(s, events[0], w);
      RunKeeps(Step(s, events[0], w), events[1..], w);
    }
  }

  /** In every state reachable from an empty database, by any events, with any sends and writes failing: after
      the next turn every card has its guarantee. */
  lemma EveryTurn(n: nat, events: seq<Event>, now: seq<Clocks>, w: World)
    requires NamesRecordings(w) && |now| == n
    requires ValidRun(Startup(Empty(n), w), events, w)
    ensures var s := Run(Startup(Empty(n), w), events, w);
            var r := Step(s, Tick(now), w);
            forall i :: 0 <= i < n ==> CardGuarantee(s.schedule, s.guide, r.cards[i], i, now[i])
  {
    StartupKeeps(Empty(n), w);
    RunKeeps(Startup(Empty(n), w), events, w);
    TickFromGuarantee(Run(Startup(Empty(n), w), events, w), 0, now, w);
  }
}
