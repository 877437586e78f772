/** With a database that executes its statements, what a restart would load is what the cards have. */
module SavedStatuses {
  import opened Controller
  import opened Database
  import opened Schedules
  import opened Tables
  import opened Wrappers

  /** A restart would load the statuses the cards have. */
  ghost predicate Saved(s: State)
  {
    && UniqueKeys(s.statusTable)
    && forall j :: 0 <= j < |s.cards| ==> GetOr(Get(s.statusTable, j), NO_STATUS) == s.cards[j].status
  }

  lemma {:induction false} AllSaved(t: Table<int, Status>, status: seq<Status>, i: nat, ok: Answers)
    requires i <= |status| && forall n :: ok(n)
    ensures SetStatus(t, status, i, ok).1
    decreases |status| - i
  {
    if i == |status| {
    } else {
      AllSaved(Upsert(t, i, status[i]), status, i + 1, ok);
    }
  }

  lemma SaveSaves(s: State, w: World)
    requires WritesSucceed(w) && UniqueKeys(s.statusTable)
    ensures Saved(SaveStatus(s, w))
  {
    var r, ok := SaveStatus(s, w), From(w.writes, s.turn);
    AllSaved(s.statusTable, Statuses(s.cards), 0, ok);
    SetStatusRows(s.statusTable, Statuses(s.cards), 0, ok, 0);
    forall j | 0 <= j < |s.cards| ensures Get(r.statusTable, j) == Some(s.cards[j].status) {
      SetStatusRows(s.statusTable, Statuses(s.cards), 0, ok, j);
    }
  }

  lemma LoadFindsSaved(s: State, j: nat)
    requires Saved(s) && j < |s.cards|
    ensures Load(s).cards[j].status == s.cards[j].status
  {
    LoadedStatus(s.statusTable, seq(|s.cards|, _ => NO_STATUS), j);
  }

  /** Only statuses and their table matter. */
  lemma SameSaved(s: State, r: State)
    requires Saved(s) && r.statusTable == s.statusTable && |r.cards| == |s.cards|
    requires forall j :: 0 <= j < |s.cards| ==> r.cards[j].status == s.cards[j].status
    ensures Saved(r)
  {
  }

  lemma ScheduleStepSaved(s: State, i: nat, now: int, w: World)
    requires i < |s.cards| && ShortPaths(w) && WritesSucceed(w) && Saved(s)
    ensures Saved(ScheduleStep(s, i, now, w))
  {
    match CurrentSchedule(s.schedule, i, now)
    case None => SaveSaves(Put(s, i, FinishEntry(At(s, i), w)), w);
    case Some(entry) =>
      var s1 := SaveStatus(Put(s, i, BeginEntry(At(s, i), i, entry.channel, w)), w);
      SaveSaves(Put(s, i, BeginEntry(At(s, i), i, entry.channel, w)), w);
      if Differs(s.cards[i], entry) {
        SameSaved(s1, NewSchedule(s, i, entry, w));
      }
  }

  lemma GuideStepSaved(s: State, i: nat, now: int, w: World)
    requires i < |s.cards| && ShortPaths(w) && WritesSucceed(w) && Saved(s)
    ensures Saved(GuideStep(s, i, now, w))
  {
    match CurrentEpg(s.guide, i, now)
    case None =>
    case Some(e) =>
      SaveSaves(Put(s, i, WriteProgram(At(s, i), e, w)), w);
      var s1 := FirstProgram(s, i, e, w);
      var s2 := WithEpg(s1, i, Remembered(s1.cards[i], e));
      SameSaved(s1, s2);
      var s3 := SaveStatus(Put(s2, i, SplitRecording(At(s2, i), i, e, w)), w);
      SaveSaves(Put(s2, i, SplitRecording(At(s2, i), i, e, w)), w);
      SameSaved(s3, NewProgram(s2, i, e, w));
  }

  lemma {:induction false} TickSaved(s: State, i: nat, now: seq<Clocks>, w: World)
    requires i <= |s.cards| == |now| && ShortPaths(w) && WritesSucceed(w) && Saved(s)
    ensures Saved(TickFrom(s, i, now, w))
    decreases |s.cards| - i
  {
    if i == |s.cards| {
    } else {
      ScheduleStepSaved(s, i, now[i].schedule, w);
      GuideStepSaved(ScheduleStep(s, i, now[i].schedule, w), i, now[i].guide, w);
      TickSaved(CardTick(s, i, now[i], w), i + 1, now, w);
    }
  }

  lemma {:induction false} ChangeChannelsTable(s: State, items: seq<(nat, int)>, w: World)
    requires ShortPaths(w)
    ensures ChangeChannels(s, items, w).statusTable == s.statusTable
    decreases |items|
  {
    if items == [] {
    } else {
      var (i, channel) := items[0];
      var s1 := if |s.cards| <= i || channel == s.cards[i].status.channel then s
                else Put(s, i, Retune(At(s, i), i, channel, w));
      ChangeChannelsTable(s1, items[1..], w);
    }
  }

  lemma {:induction false} StartLogsTable(s: State, i: nat, w: World)
    requires i <= |s.cards| && ShortPaths(w)
    ensures StartLogs(s, i, w).statusTable == s.statusTable
    decreases |s.cards| - i
  {
    if i == |s.cards| {
    } else {
      StartLogsTable(Put(s, i, StartLog(CloseLog(At(s, i), w), i, w)), i + 1, w);
    }
  }

  lemma StartupSaved(s: State, w: World)
    requires ShortPaths(w) && WritesSucceed(w) && UniqueKeys(s.statusTable)
    ensures Saved(Startup(s, w))
  {
    StartLogsTable(Load(s), 0, w);
    SaveSaves(StartLogs(Load(s), 0, w), w);
  }

  /** Every event keeps it. */
  lemma StepSaved(s: State, ev: Event, w: World)
    requires ValidEvent(s, ev) && ShortPaths(w) && WritesSucceed(w) && Saved(s)
    ensures Saved(Step(s, ev, w))
  {
    if ev.Tick? {
      TickSaved(s, 0, ev.now, w);
    } else if ev.ChannelChange? {
      ChangeChannelsTable(s, ev.items, w);
      SaveSaves(ChangeChannels(s, ev.items, w), w);
    } else if ev.Restart? {
      StartupSaved(s, w);
    } else {
      SameSaved(s, Step(s, ev, w));
    }
  }
}
