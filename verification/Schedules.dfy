/** The schedule table and the programme guide of the controller (controller/main.c): a heap array that
    ends at the first negative index, and a counted array that is rebuilt on every refresh. */
module Schedules {
  import opened Sequences
  import opened Wrappers

  datatype Schedule = Schedule(index: int, start: int, end: int, channel: int)

  datatype Epg = Epg(index: int, channel: int, name: string, start: int, end: int)

  // ----- the sentinel-terminated schedule ---------------------------------------------------------------

  ghost predicate Terminated(s: seq<Schedule>) { exists k :: 0 <= k < |s| && s[k].index < 0 }

  /** The entries in front of the sentinel. */
  function Entries(s: seq<Schedule>): (entries: seq<Schedule>)
  {
    if s == [] || s[0].index < 0 then [] else [s[0]] + Entries(s[1..])
  }

  predicate ScheduleActive(s: Schedule, index: int, time: int)
  {
    s.index == index && s.start <= time < s.end
  }

  /** The first entry whose window holds the time. */
  function CurrentSchedule(entries: seq<Schedule>, index: int, time: int): (r: Option<Schedule>)
  {
    if entries == [] then None
    else if ScheduleActive(entries[0], index, time) then Some(entries[0])
    else CurrentSchedule(entries[1..], index, time)
  }

  function Without(entries: seq<Schedule>, e: Schedule): (r: seq<Schedule>)
  {
    if entries == [] then []
    else if entries[0] == e then Without(entries[1..], e)
    else [entries[0]] + Without(entries[1..], e)
  }

  lemma {:induction false} EntriesAt(s: seq<Schedule>, n: nat)
    requires n < |s| && s[n].index < 0 && forall k :: 0 <= k < n ==> 0 <= s[k].index
    ensures Entries(s) == s[..n]
  {
    if n > 0 {
      EntriesAt(s[1..], n - 1);
      assert s[..n] == [s[0]] + s[1..][..n - 1];
    }
  }

  lemma {:induction false} EntriesLength(s: seq<Schedule>)
    requires Terminated(s)
    ensures var n := |Entries(s)|;
            n < |s| && s[n].index < 0 && Entries(s) == s[..n] && forall k :: 0 <= k < n ==> 0 <= s[k].index
  {
    if 0 <= s[0].index {
      var k :| 0 <= k < |s| && s[k].index < 0;
      assert s[1..][k - 1] == s[k];
      EntriesLength(s[1..]);
      var n := |Entries(s[1..])|;
      assert s[1..][n] == s[n + 1] && s[..n + 1] == [s[0]] + s[1..][..n];
      assert forall k :: 0 <= k < n ==> s[k + 1] == s[1..][k];
    }
  }

  lemma {:induction false} WithoutLast(entries: seq<Schedule>, last: Schedule, e: Schedule)
    ensures Without(entries + [last], e) == Without(entries, e) + if last == e then [] else [last]
  {
    if entries == [] {
      assert [last][1..] == [];
    } else {
      WithoutLast(entries[1..], last, e);
      assert (entries + [last])[1..] == entries[1..] + [last];
    }
  }

  lemma {:induction false} CurrentIn(entries: seq<Schedule>, index: int, time: int)
    ensures var r := CurrentSchedule(entries, index, time);
            && (r.Some? ==> r.value in entries && ScheduleActive(r.value, index, time))
            && (r.None? ==> forall k :: 0 <= k < |entries| ==> !ScheduleActive(entries[k], index, time))
  {
    if entries == [] {
    } else if !ScheduleActive(entries[0], index, time) {
      CurrentIn(entries[1..], index, time);
    }
  }

  /** The look-up in terms of times: an entry of the card is found exactly from its start on until before its end, and
      no entry before it in the table is in its window. */
  lemma {:induction false} CurrentScheduleIff(entries: seq<Schedule>, index: int, time: int)
    ensures CurrentSchedule(entries, index, time).Some?
            <==> exists k :: 0 <= k < |entries| && entries[k].index == index && entries[k].start <= time < entries[k].end
    ensures forall k :: 0 <= k < |entries| && entries[k].index == index && entries[k].start <= time < entries[k].end
                        && (forall j :: 0 <= j < k ==> entries[j].index != index || time < entries[j].start
                                                       || entries[j].end <= time)
              ==> CurrentSchedule(entries, index, time) == Some(entries[k])
  {
    if entries == [] {
    } else if !ScheduleActive(entries[0], index, time) {
      CurrentScheduleIff(entries[1..], index, time);
      assert forall k :: 0 < k < |entries| ==> entries[k] == entries[1..][k - 1];
    }
  }

  /** Deleting an entry of one card does not change what any other card looks up, and the card itself no
      longer finds the entry. */
  lemma {:induction false} DeleteLookup(entries: seq<Schedule>, e: Schedule, index: int, time: int)
    ensures var r := CurrentSchedule(Without(entries, e), index, time);
            && (index != e.index ==> r == CurrentSchedule(entries, index, time))
            && r != Some(e)
            && (CurrentSchedule(entries, index, time) != Some(e) ==> r == CurrentSchedule(entries, index, time))
  {
    if entries == [] {
    } else {
      DeleteLookup(entries[1..], e, index, time);
    }
  }

  /** `get_current_schedule`. */
  method GetCurrentSchedule(schedule: array?<Schedule>, index: int, time: int) returns (r: Option<Schedule>)
    requires schedule != null ==> Terminated(schedule[..])
    ensures r == if schedule == null then None else CurrentSchedule(Entries(schedule[..]), index, time)
  {
    if schedule == null {
      return None;
    }
    ghost var entries := Entries(schedule[..]);
    EntriesLength(schedule[..]);
    var i := 0;
    while 0 <= schedule[i].index
      invariant 0 <= i <= |entries|
      invariant CurrentSchedule(entries, index, time) == CurrentSchedule(entries[i..], index, time)
      decreases |entries| - i
    {
      assert entries[i] == schedule[i] && entries[i..][1..] == entries[i + 1..];
      if schedule[i].index == index && schedule[i].start <= time && time < schedule[i].end {
        return Some(schedule[i]);
      }
      i := i + 1;
    }
    return None;
  }

  /** `command_func_schedule_del`: the remaining entries move to the front of the same array. */
  method ScheduleDel(schedule: array<Schedule>, e: Schedule)
    requires Terminated(schedule[..])
    modifies schedule
    ensures Terminated(schedule[..])
    ensures Entries(schedule[..]) == Without(old(Entries(schedule[..])), e)
  {
    ghost var s := schedule[..];
    ghost var entries := Entries(s);
    EntriesLength(s);
    var i, j := 0, 0;
    assert entries[..0] == [] && s[..0] == [];
    while 0 <= schedule[i].index
      invariant 0 <= j <= i <= |entries|
      invariant schedule[..j] == Without(entries[..i], e)
      invariant forall k :: i <= k < |s| ==> schedule[k] == s[k]
      invariant forall k :: 0 <= k < j ==> 0 <= schedule[k].index
      decreases |entries| - i
    {
      assert entries[..i + 1] == entries[..i] + [s[i]];
      WithoutLast(entries[..i], s[i], e);
      ghost var front := schedule[..j];
      if i != j {
        schedule[j] := schedule[i];
      }
      assert schedule[..j] == front;
      if !(schedule[i].index == e.index && schedule[i].start == e.start && schedule[i].end == e.end
           && schedule[i].channel == e.channel) {
        j := j + 1;
        assert schedule[..j] == front + [s[i]];
      }
      i := i + 1;
    }
    ghost var front := schedule[..j];
    schedule[j] := schedule[j].(index := -1);
    assert entries[..i] == entries && schedule[..j] == front;
    assert schedule[..][j].index < 0;
    EntriesAt(schedule[..], j);
  }

  method CountEntries(schedule: array<Schedule>) returns (count: nat)
    requires Terminated(schedule[..])
    ensures count == |Entries(schedule[..])| <= schedule.Length && schedule[..count] == Entries(schedule[..])
    ensures forall k :: 0 <= k < count ==> 0 <= schedule[k].index
  {
    EntriesLength(schedule[..]);
    count := 0;
    while 0 <= schedule[count].index
      invariant 0 <= count <= |Entries(schedule[..])|
      decreases |Entries(schedule[..])| - count
    {
      count := count + 1;
    }
  }

  /** `command_func_schedule_add`: a new array with the entry behind the old ones. */
  method ScheduleAdd(schedule: array?<Schedule>, e: Schedule) returns (r: array<Schedule>)
    requires schedule != null ==> Terminated(schedule[..])
    ensures fresh(r) && Terminated(r[..])
    ensures Entries(r[..]) == (if schedule == null then [] else Entries(schedule[..]))
                              + (if 0 <= e.index then [e] else [])
  {
    var count := 0;
    if schedule != null {
      count := CountEntries(schedule);
    }
    ghost var entries := if schedule == null then [] else schedule[..count];
    r := new Schedule[count + 2](_ => Schedule(-1, 0, 0, 0));
    if schedule != null {
      forall k | 0 <= k < count { r[k] := schedule[k]; }
      assert schedule[..] == old(schedule[..]);
    }
    r[count] := e;
    assert r[..count] == entries;
    AddedEntries(r[..], entries, e);
    assert schedule != null ==> schedule[..] == old(schedule[..]);
  }

  lemma AddedEntries(r: seq<Schedule>, entries: seq<Schedule>, e: Schedule)
    requires |r| == |entries| + 2 && r[..|entries|] == entries && r[|entries|] == e && r[|entries| + 1].index < 0
    requires forall k :: 0 <= k < |entries| ==> 0 <= entries[k].index
    ensures Terminated(r) && Entries(r) == entries + if 0 <= e.index then [e] else []
  {
    var n := |entries|;
    assert forall k :: 0 <= k < n ==> r[k] == r[..n][k];
    if 0 <= e.index {
      EntriesAt(r, n + 1);
      assert r[..n + 1] == r[..n] + [e];
    } else {
      EntriesAt(r, n);
    }
  }

  // ----- the guide ----------------------------------------------------------------------------------------

  /** One programme as the guide source delivers it, with times still in text. */
  datatype EpgData = EpgData(start: string, stop: string, title: string)

  predicate EpgActive(e: Epg, index: int, time: int)
  {
    e.index == index && e.start <= time < e.end
  }

  function CurrentEpg(guide: seq<Epg>, index: int, time: int): (r: Option<Epg>)
  {
    if guide == [] then None
    else if EpgActive(guide[0], index, time) then Some(guide[0])
    else CurrentEpg(guide[1..], index, time)
  }

  function OfOthers(guide: seq<Epg>, index: int): (r: seq<Epg>)
  {
    if guide == [] then []
    else if guide[0].index != index then [guide[0]] + OfOthers(guide[1..], index)
    else OfOthers(guide[1..], index)
  }

  /** The programmes whose times can be read, as entries of the card. */
  function Readable(data: seq<EpgData>, index: int, channel: int, read: string -> Option<int>): (r: seq<Epg>)
  {
    if data == [] then []
    else
      var rest := Readable(data[1..], index, channel, read);
      match (read(data[0].start), read(data[0].stop))
      case (Some(start), Some(stop)) => [Epg(index, channel, data[0].title, start, stop)] + rest
      case _ => rest
  }

  function Refresh(guide: seq<Epg>, index: int, channel: int, data: seq<EpgData>, read: string -> Option<int>): seq<Epg>
  {
    OfOthers(guide, index) + Readable(data, index, channel, read)
  }

  lemma {:induction false} OfOthersLast(guide: seq<Epg>, last: Epg, index: int)
    ensures OfOthers(guide + [last], index) == OfOthers(guide, index) + if last.index != index then [last] else []
  {
    if guide == [] {
      assert [last][1..] == [];
    } else {
      OfOthersLast(guide[1..], last, index);
      assert (guide + [last])[1..] == guide[1..] + [last];
    }
  }

  lemma {:induction false} ReadableLast(data: seq<EpgData>, last: EpgData, index: int, channel: int, read: string -> Option<int>)
    ensures Readable(data + [last], index, channel, read)
            == Readable(data, index, channel, read) + Readable([last], index, channel, read)
  {
    if data == [] {
      assert [] + [last] == [last];
    } else {
      ReadableLast(data[1..], last, index, channel, read);
      assert (data + [last])[1..] == data[1..] + [last];
    }
  }

  lemma {:induction false} CurrentEpgAppend(a: seq<Epg>, b: seq<Epg>, index: int, time: int)
    ensures CurrentEpg(a + b, index, time)
            == if CurrentEpg(a, index, time).Some? then CurrentEpg(a, index, time) else CurrentEpg(b, index, time)
  {
    if a == [] {
      assert a + b == b;
    } else {
      CurrentEpgAppend(a[1..], b, index, time);
      assert (a + b)[1..] == a[1..] + b;
    }
  }

  /** The same for the guide. */
  lemma {:induction false} CurrentEpgIff(guide: seq<Epg>, index: int, time: int)
    ensures CurrentEpg(guide, index, time).Some?
            <==> exists k :: 0 <= k < |guide| && guide[k].index == index && guide[k].start <= time < guide[k].end
    ensures forall k :: 0 <= k < |guide| && guide[k].index == index && guide[k].start <= time < guide[k].end
                        && (forall j :: 0 <= j < k ==> guide[j].index != index || time < guide[j].start
                                                       || guide[j].end <= time)
              ==> CurrentEpg(guide, index, time) == Some(guide[k])
  {
    if guide == [] {
    } else if !EpgActive(guide[0], index, time) {
      CurrentEpgIff(guide[1..], index, time);
      assert forall k :: 0 < k < |guide| ==> guide[k] == guide[1..][k - 1];
    }
  }

  lemma {:induction false} OthersLookup(guide: seq<Epg>, card: int, index: int, time: int)
    ensures CurrentEpg(OfOthers(guide, card), index, time)
            == if index == card then None else CurrentEpg(guide, index, time)
  {
    if guide == [] {
    } else {
      OthersLookup(guide[1..], card, index, time);
    }
  }

  lemma {:induction false} ReadableLookup(data: seq<EpgData>, card: int, channel: int, read: string -> Option<int>,
                                          index: int, time: int)
    requires index != card
    ensures CurrentEpg(Readable(data, card, channel, read), index, time) == None
  {
    if data == [] {
    } else {
      ReadableLookup(data[1..], card, channel, read, index, time);
    }
  }

  /** What a refresh brings in: a programme for each datum whose times can be read, and no other. */
  lemma {:induction false} ReadableMembers(data: seq<EpgData>, card: int, channel: int, read: string -> Option<int>, e: Epg)
    ensures e in Readable(data, card, channel, read) <==>
              e.index == card && e.channel == channel
              && exists k :: 0 <= k < |data| && data[k].title == e.name && read(data[k].start) == Some(e.start)
                             && read(data[k].stop) == Some(e.end)
  {
    if data == [] {
    } else {
      ReadableMembers(data[1..], card, channel, read, e);
      assert forall k :: 0 < k < |data| ==> data[k] == data[1..][k - 1];
    }
  }

  /** After a refresh the card looks things up in the new programmes alone, and every other card finds what
      it found before. */
  lemma {:induction false} RefreshLookup(guide: seq<Epg>, card: int, channel: int, data: seq<EpgData>,
                      read: string -> Option<int>, index: int, time: int)
    ensures CurrentEpg(Refresh(guide, card, channel, data, read), index, time)
            == if index == card then CurrentEpg(Readable(data, card, channel, read), index, time)
               else CurrentEpg(guide, index, time)
  {
    CurrentEpgAppend(OfOthers(guide, card), Readable(data, card, channel, read), index, time);
    OthersLookup(guide, card, index, time);
    if index != card {
      ReadableLookup(data, card, channel, read, index, time);
    }
  }

  /** One more entry of the data, behind a guide. */
  lemma OneMoreReadable(guide: seq<Epg>, data: seq<EpgData>, i: nat, index: int, channel: int,
                        read: string -> Option<int>)
    requires i < |data|
    ensures guide + Readable(data[..i + 1], index, channel, read) ==
              guide + Readable(data[..i], index, channel, read)
              + if read(data[i].start).Some? && read(data[i].stop).Some?
                then [Epg(index, channel, data[i].title, read(data[i].start).value, read(data[i].stop).value)]
                else []
  {
    ReadableLast(data[..i], data[i], index, channel, read);
    assert data[..i + 1] == data[..i] + [data[i]] && [data[i]][1..] == [];
    Associative(guide, Readable(data[..i], index, channel, read), Readable([data[i]], index, channel, read));
  }

  /** The guide: `epg` and `epg_count`. */
  class Guide {
    var epg: array<Epg>
    var count: nat

    ghost predicate Valid()
      reads this
    {
      count <= epg.Length
    }

    ghost function Contents(): seq<Epg>
      reads this, epg
      requires Valid()
    {
      epg[..count]
    }

    constructor ()
      ensures Valid() && fresh(epg) && Contents() == []
    {
      epg := new Epg[0];
      count := 0;
    }

    /** `get_current_epg`. */
    method GetCurrentEpg(index: int, time: int) returns (r: Option<Epg>)
      requires Valid()
      ensures r == CurrentEpg(Contents(), index, time)
    {
      ghost var guide := Contents();
      for i := 0 to count
        invariant CurrentEpg(guide, index, time) == CurrentEpg(guide[i..], index, time)
      {
        assert guide[i..][0] == epg[i] && guide[i..][1..] == guide[i + 1..];
        if epg[i].index == index && epg[i].start <= time && time < epg[i].end {
          return Some(epg[i]);
        }
      }
      return None;
    }

    /** `epg_delete`. */
    method Delete(index: int)
      requires Valid()
      modifies this
      ensures Valid() && Contents() == OfOthers(old(Contents()), index)
      ensures epg == old(epg) || fresh(epg)
    {
      ghost var guide := Contents();
      var kept := 0;
      for i := 0 to count
        invariant epg == old(epg) && count == old(count) && Contents() == guide
        invariant kept == |OfOthers(guide[..i], index)| <= i
        invariant kept == i ==> OfOthers(guide[..i], index) == guide[..i]
      {
        OfOthersLast(guide[..i], guide[i], index);
        assert guide[..i + 1] == guide[..i] + [guide[i]];
        if index != epg[i].index {
          kept := kept + 1;
        }
      }
      assert guide[..count] == guide;
      if kept != count {
        Compact(index, kept);
      }
    }

    /** The copy into a smaller array. */
    method Compact(index: int, kept: nat)
      requires Valid() && kept == |OfOthers(Contents(), index)|
      modifies this
      ensures Valid() && Contents() == OfOthers(old(Contents()), index) && fresh(epg)
    {
      ghost var guide := Contents();
      var newEpg := new Epg[kept](_ => Epg(0, 0, "", 0, 0));
      var j := 0;
      for i := 0 to count
        invariant 0 <= j <= kept && newEpg[..j] == OfOthers(guide[..i], index)
        invariant epg == old(epg) && count == old(count) && Contents() == guide
      {
        OfOthersLast(guide[..i], guide[i], index);
        assert guide[..i + 1] == guide[..i] + [guide[i]];
        OthersMonotone(guide, i + 1, index);
        if index != epg[i].index {
          newEpg[j] := epg[i];
          j := j + 1;
        }
      }
      assert guide[..count] == guide;
      epg, count := newEpg, kept;
    }

    /** `epg_insert`. */
    method Insert(index: int, channel: int, data: seq<EpgData>, read: string -> Option<int>)
      requires Valid()
      modifies this
      ensures Valid() && Contents() == old(Contents()) + Readable(data, index, channel, read)
      ensures fresh(epg)
    {
      ghost var guide := Contents();
      var newEpg := new Epg[count + |data|](_ => Epg(0, 0, "", 0, 0));
      forall k | 0 <= k < count { newEpg[k] := epg[k]; }
      var added := 0;
      for i := 0 to |data|
        invariant count == old(count) && 0 <= added <= i
        invariant newEpg[..count + added] == guide + Readable(data[..i], index, channel, read)
      {
        OneMoreReadable(guide, data, i, index, channel, read);
        ghost var before := newEpg[..count + added];
        match (read(data[i].start), read(data[i].stop))
        case (Some(start), Some(stop)) =>
          newEpg[count + added] := Epg(index, channel, data[i].title, start, stop);
          assert newEpg[..count + added] == before;
          added := added + 1;
        case _ =>
      }
      assert data[..|data|] == data;
      epg, count := newEpg, count + added;
    }

    /** `epg_request_callback`: delete, then insert. */
    method RefreshCard(index: int, channel: int, data: seq<EpgData>, read: string -> Option<int>)
      requires Valid()
      modifies this
      ensures Valid() && Contents() == Refresh(old(Contents()), index, channel, data, read) && fresh(epg)
    {
      Delete(index);
      Insert(index, channel, data, read);
    }
  }

  lemma {:induction false} OthersMonotone(guide: seq<Epg>, i: nat, index: int)
    requires i <= |guide|
    ensures |OfOthers(guide[..i], index)| <= |OfOthers(guide, index)|
    decreases |guide| - i
  {
    if i < |guide| {
      OfOthersLast(guide[..i], guide[i], index);
      assert guide[..i + 1] == guide[..i] + [guide[i]];
      OthersMonotone(guide, i + 1, index);
    } else {
      assert guide[..i] == guide;
    }
  }
}
