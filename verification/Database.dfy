/** The controller's SQLite catalogue (controller/database.c and the save and load functions of
    controller/main.c): four tables, and what survives a save followed by a load. */
module Database {
  import opened Schedules
  import opened Tables
  import opened Wrappers

  /** `Status`, one per card. */
  datatype Status = Status(channel: int, recording: bool, avRecordName: string, loudnessLogName: string,
                           programDataUpdated: bool)

  const NO_STATUS := Status(0, false, "", "", false)

  datatype RowType = Recorded | User

  /** A row of PLAYBACK_LIST behind its name. */
  datatype PlaybackRow = PlaybackRow(start: string, end: string, channel: int, channelName: string,
                                     programName: string, programStart: string, programEnd: string,
                                     loudness: real, loudnessOffset: real, rowType: RowType)

  /** A row of LOG_LIST behind its name. */
  datatype LogRow = LogRow(start: string, end: string, channel: int, channelName: string, recordName: string)

  /** Which of a sequence of statements SQLite executes: the answer to attempt number n. */
  type Answers = nat -> bool

  /** The answers from the given attempt on. */
  function From(ok: Answers, turn: nat): Answers
  {
    (n: nat) => ok(turn + n)
  }

  /** The next `n` statements all succeed. */
  predicate AllSucceed(ok: Answers, turn: nat, n: nat)
    decreases n
  {
    n == 0 || (ok(turn) && AllSucceed(ok, turn + 1, n - 1))
  }

  // ----- STATUS ------------------------------------------------------------------------------------------

  /** `database_set_status_data` from card `i` on: one upsert per card, up to the first that fails. */
  function SetStatus(t: Table<int, Status>, status: seq<Status>, i: nat, ok: Answers): (r: (Table<int, Status>, bool))
    requires i <= |status|
    decreases |status| - i
  {
    if i == |status| then (t, true)
    else if !ok(i) then (t, false)
    else SetStatus(Upsert(t, i, status[i]), status, i + 1, ok)
  }

  /** `load_status_data`: every row that names a card overwrites that card, in row order. */
  function LoadStatus(t: Table<int, Status>, status: seq<Status>): (r: seq<Status>)
    ensures |r| == |status|
  {
    if t == [] then status
    else LoadStatus(t[1..], if 0 <= t[0].0 < |status| then status[t[0].0 := t[0].1] else status)
  }

  function GetOr<T>(o: Option<T>, default: T): T
  {
    match o case Some(v) => v case None => default
  }

  lemma {:induction false} LoadedStatus(t: Table<int, Status>, status: seq<Status>, i: nat)
    requires UniqueKeys(t) && i < |status|
    ensures LoadStatus(t, status)[i] == GetOr(Get(t, i), status[i])
    decreases |t|
  {
    if t == [] {
    } else {
      var s := if 0 <= t[0].0 < |status| then status[t[0].0 := t[0].1] else status;
      assert UniqueKeys(t[1..]) by { assert forall k :: 0 <= k < |t| - 1 ==> t[1..][k] == t[k + 1]; }
      LoadedStatus(t[1..], s, i);
      if t[0].0 == i {
        assert forall k :: 0 <= k < |t| - 1 ==> t[1..][k].0 != i;
        GetMember(t[1..], i);
      }
    }
  }

  /** A save, complete or not, keeps one row per index; it leaves the cards before `i` alone, and a card it
      has reached has its status as row. */
  lemma {:induction false} SetStatusRows(t: Table<int, Status>, status: seq<Status>, i: nat, ok: Answers, q: int)
    requires i <= |status|
    ensures var (t', done) := SetStatus(t, status, i, ok);
            && (UniqueKeys(t) ==> UniqueKeys(t'))
            && (done ==> Get(t', q) == if i <= q < |status| then Some(status[q]) else Get(t, q))
            && (Get(t', q) == Get(t, q) || (0 <= q < |status| && Get(t', q) == Some(status[q])))
    decreases |status| - i
  {
    hide UniqueKeys, Get, Upsert;
    if i == |status| {
    } else if ok(i) {
      SetStatusRows(Upsert(t, i, status[i]), status, i + 1, ok, q);
      GetUpsert(t, i, status[i], q);
      if UniqueKeys(t) {
        UpsertUnique(t, i, status[i]);
      }
    }
  }

  /** A load takes the last row of each index. */
  lemma {:induction false} LoadTakesLast(t: Table<int, Status>, status: seq<Status>, i: nat)
    requires i < |status|
    ensures LoadStatus(t, status)[i] == GetOr(Last(t, i), status[i])
    decreases |t|
  {
    if t == [] {
    } else {
      LoadTakesLast(t[1..], if 0 <= t[0].0 < |status| then status[t[0].0 := t[0].1] else status, i);
    }
  }

  /** A complete save reaches the last row of an index exactly when it is the only one, or there was none. */
  lemma {:induction false} SetStatusLast(t: Table<int, Status>, status: seq<Status>, i: nat, ok: Answers, q: int)
    requires i <= |status| && SetStatus(t, status, i, ok).1
    ensures Last(SetStatus(t, status, i, ok).0, q)
            == if i <= q < |status| && Count(t, q) <= 1 then Some(status[q]) else Last(t, q)
    decreases |status| - i
  {
    if i == |status| {
    } else {
      SetStatusLast(Upsert(t, i, status[i]), status, i + 1, ok, q);
      CountUpsert(t, i, status[i], q);
      LastUpsert(t, i, status[i], q);
    }
  }

  /** Saving and loading is the identity on the saved cards exactly if the table had at most one row for each of
      them, or its last row for the card was the status already; other rows do not matter. */
  lemma SaveThenLoad(t: Table<int, Status>, status: seq<Status>, before: seq<Status>, ok: Answers)
    requires |before| == |status| && SetStatus(t, status, 0, ok).1
    ensures LoadStatus(SetStatus(t, status, 0, ok).0, before) == status
            <==> forall i :: 0 <= i < |status| ==> Count(t, i) <= 1 || Last(t, i) == Some(status[i])
  {
    var loaded := LoadStatus(SetStatus(t, status, 0, ok).0, before);
    forall i | 0 <= i < |status|
      ensures loaded[i] == status[i] <==> Count(t, i) <= 1 || Last(t, i) == Some(status[i])
    {
      LoadTakesLast(SetStatus(t, status, 0, ok).0, before, i);
      SetStatusLast(t, status, 0, ok, i);
      CountAndLast(t, i);
    }
  }

  /** A table that saves have built has one row per index, and so gives back what is saved into it. */
  lemma SavedTablesGiveBack(t: Table<int, Status>, status: seq<Status>, before: seq<Status>, ok: Answers)
    requires UniqueKeys(t) && |before| == |status| && SetStatus(t, status, 0, ok).1
    ensures LoadStatus(SetStatus(t, status, 0, ok).0, before) == status
  {
    SaveThenLoad(t, status, before, ok);
    forall i | 0 <= i < |status| ensures Count(t, i) <= 1 {
      UniqueCount(t, i);
    }
  }

  /** A table on which it fails: the upsert replaces the first row of an index, the load takes the last. */
  lemma DuplicateRowsHideASave(a: Status, b: Status, c: Status)
    requires b != c
    ensures var t := [(0, a), (0, b)];
            LoadStatus(SetStatus(t, [c], 0, _ => true).0, [NO_STATUS]) == [b]
  {
    var t: Table<int, Status> := [(0, a), (0, b)];
    assert t[1..] == [(0, b)] && t[1..][1..] == [];
    assert Count(t[1..], 0) == 1 && Last(t[1..], 0) == Some(b);
    var ok: Answers := _ => true;
    assert SetStatus(t, [c], 0, ok).1 by { assert SetStatus(Upsert(t, 0, c), [c], 1, ok).1; }
    SetStatusLast(t, [c], 0, ok, 0);
    LoadTakesLast(SetStatus(t, [c], 0, ok).0, [NO_STATUS], 0);
  }

  // ----- SCHEDULE ----------------------------------------------------------------------------------------

  /** `database_set_schedule_data`: delete all rows, then insert one by one up to the first failure. */
  function SetSchedule(rows: seq<Schedule>, entries: seq<Schedule>, ok: Answers): (r: (seq<Schedule>, bool))
  {
    if !ok(0) then (rows, false) else InsertSchedule([], entries, 0, ok)
  }

  function InsertSchedule(rows: seq<Schedule>, entries: seq<Schedule>, i: nat, ok: Answers): (r: (seq<Schedule>, bool))
    requires i <= |entries|
    decreases |entries| - i
  {
    if i == |entries| then (rows, true)
    else if !ok(i + 1) then (rows, false)
    else InsertSchedule(rows + [entries[i]], entries, i + 1, ok)
  }

  /** The table is left alone, or holds a prefix of the schedule, and all of it when the save succeeds. */
  lemma {:induction false} InsertedPrefix(rows: seq<Schedule>, entries: seq<Schedule>, i: nat, ok: Answers)
    requires i <= |entries| && rows == entries[..i]
    ensures var (r, done) := InsertSchedule(rows, entries, i, ok);
            |r| <= |entries| && r == entries[..|r|] && (done ==> r == entries)
    decreases |entries| - i
  {
    if i == |entries| {
      assert entries[..i] == entries;
    } else if ok(i + 1) {
      assert entries[..i + 1] == rows + [entries[i]];
      InsertedPrefix(rows + [entries[i]], entries, i + 1, ok);
    }
  }

  // ----- PLAYBACK_LIST and LOG_LIST --------------------------------------------------------------------------

  type Playback = Table<string, PlaybackRow>
  type Logs = Table<string, LogRow>

  /** Whether the name has a recorded row that no end was written to. */
  predicate OpenPlayback(t: Playback, name: string)
  {
    Get(t, name).Some? && Get(t, name).value.rowType == Recorded && Get(t, name).value.end == ""
  }

  predicate OpenLog(t: Logs, name: string)
  {
    Get(t, name).Some? && Get(t, name).value.end == ""
  }

  function EndPlayback(t: Playback, name: string, end: string): Playback
  {
    Update(t, name, (r: PlaybackRow) => r.(end := end))
  }

  function EndLog(t: Logs, name: string, end: string): Logs
  {
    Update(t, name, (r: LogRow) => r.(end := end))
  }

  function SetProgram(t: Playback, name: string, e: Epg, text: int -> string): Playback
  {
    Update(t, name, (r: PlaybackRow) => r.(programName := e.name, programStart := text(e.start), programEnd := text(e.end)))
  }

  function SetLoudness(t: Playback, name: string, loudness: real): Playback
  {
    Update(t, name, (r: PlaybackRow) => r.(loudness := loudness))
  }

  lemma EndPlaybackOpen(t: Playback, name: string, end: string, q: string)
    requires end != ""
    ensures OpenPlayback(EndPlayback(t, name, end), q) <==> OpenPlayback(t, q) && q != name
  {
    GetUpdate(t, name, (r: PlaybackRow) => r.(end := end), q);
  }

  lemma EndLogOpen(t: Logs, name: string, end: string, q: string)
    requires end != ""
    ensures OpenLog(EndLog(t, name, end), q) <==> OpenLog(t, q) && q != name
  {
    GetUpdate(t, name, (r: LogRow) => r.(end := end), q);
  }

  lemma SetProgramOpen(t: Playback, name: string, e: Epg, text: int -> string, q: string)
    ensures OpenPlayback(SetProgram(t, name, e, text), q) <==> OpenPlayback(t, q)
  {
    GetUpdate(t, name, (r: PlaybackRow) => r.(programName := e.name, programStart := text(e.start), programEnd := text(e.end)), q);
  }

  lemma SetLoudnessOpen(t: Playback, name: string, loudness: real, q: string)
    ensures OpenPlayback(SetLoudness(t, name, loudness), q) <==> OpenPlayback(t, q)
  {
    GetUpdate(t, name, (r: PlaybackRow) => r.(loudness := loudness), q);
  }

  // ----- the database as an object -----------------------------------------------------------------------------

  class DatabaseContext {
    var status: Table<int, Status>
    var schedule: seq<Schedule>

    constructor ()
      ensures status == [] && schedule == []
    {
      status, schedule := [], [];
    }

    /** `database_set_status_data`. */
    method SetStatusData(data: array<Status>, ok: Answers) returns (done: bool)
      modifies this`status
      ensures (status, done) == SetStatus(old(status), data[..], 0, ok)
    {
      for i := 0 to data.Length
        invariant SetStatus(old(status), data[..], 0, ok) == SetStatus(status, data[..], i, ok)
      {
        if !ok(i) {
          return false;
        }
        status := Upsert(status, i, data[i]);
      }
      return true;
    }

    /** `load_status_data`. */
    method LoadStatusData(cards: array<Status>)
      modifies cards
      ensures cards[..] == LoadStatus(status, old(cards[..]))
    {
      for i := 0 to |status|
        invariant LoadStatus(status[i..], cards[..]) == LoadStatus(status, old(cards[..]))
      {
        var (index, row) := status[i];
        assert status[i..][0] == (index, row) && status[i..][1..] == status[i + 1..];
        ghost var before := cards[..];
        if 0 <= index < cards.Length {
          cards[index] := row;
          assert cards[..] == before[index := row];
        }
      }
    }

    /** `save_schedule_data`. */
    method SaveScheduleData(entries: array?<Schedule>, ok: Answers) returns (done: bool)
      requires entries != null ==> Terminated(entries[..])
      modifies this`schedule
      ensures var saved := if entries == null then [] else Entries(entries[..]);
              (schedule, done) == SetSchedule(old(schedule), saved, ok)
    {
      var count := 0;
      if entries != null {
        count := CountEntries(entries);
      }
      ghost var saved := if entries == null then [] else entries[..count];
      if !ok(0) {
        return false;
      }
      schedule := [];
      for i := 0 to count
        invariant SetSchedule(old(schedule), saved, ok) == InsertSchedule(schedule, saved, i, ok)
      {
        if !ok(i + 1) {
          return false;
        }
        schedule := schedule + [entries[i]];
      }
      return true;
    }

    /** `load_schedule_data`: a new array with the rows and a sentinel. */
    method LoadScheduleData() returns (r: array<Schedule>)
      ensures fresh(r) && Terminated(r[..]) && Entries(r[..]) == Entries(schedule)
    {
      var rows, n := schedule, |schedule|;
      r := new Schedule[n + 1](i => if 0 <= i < n then rows[i] else Schedule(-1, 0, 0, 0));
      assert r[..][n].index < 0;
      assert r[..] == rows + [r[n]];
      EntriesAppend(schedule, r[n]);
    }
  }

  lemma {:induction false} EntriesAppend(s: seq<Schedule>, last: Schedule)
    requires last.index < 0
    ensures Entries(s + [last]) == Entries(s)
  {
    if s == [] {
    } else {
      EntriesAppend(s[1..], last);
      assert (s + [last])[1..] == s[1..] + [last];
    }
  }

  lemma {:induction false} EntriesFixed(s: seq<Schedule>)
    ensures Entries(Entries(s)) == Entries(s)
  {
    if s == [] {
    } else if 0 <= s[0].index {
      EntriesFixed(s[1..]);
      assert Entries(s)[1..] == Entries(s[1..]);
    }
  }

  /** A schedule that is saved and loaded again is the same up to its sentinel, whatever the table held. */
  method SaveAndLoadSchedule(db: DatabaseContext, entries: array<Schedule>, ok: Answers)
    returns (done: bool, r: array<Schedule>)
    requires Terminated(entries[..])
    modifies db`schedule
    ensures Terminated(r[..]) && (done ==> Entries(r[..]) == Entries(entries[..]))
  {
    EntriesFixed(entries[..]);
    assert Entries(entries[..])[..0] == [];
    InsertedPrefix([], Entries(entries[..]), 0, ok);
    done := db.SaveScheduleData(entries, ok);
    r := db.LoadScheduleData();
    assert entries[..] == old(entries[..]);
  }
}
