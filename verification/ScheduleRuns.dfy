/** Over a run with an unchanged schedule every entry is taken up once, at the first turn in its window. */
module ScheduleRuns {
  import opened Controller
  import opened Schedules
  import opened Sequences

  /** The card's progress through the schedule. */
  predicate SameProgress(a: Card, b: Card)
  {
    a.currentSchedule == b.currentSchedule && a.started == b.started
  }

  /** Windows of different entries of one card do not overlap. */
  ghost predicate Disjoint(schedule: seq<Schedule>, i: nat)
  {
    forall a, b :: a in schedule && b in schedule && a.index == i && b.index == i && a != b
      ==> a.end <= b.start || b.end <= a.start
  }

  ghost predicate NonzeroStarts(schedule: seq<Schedule>, i: nat)
  {
    forall a :: a in schedule && a.index == i ==> a.start != 0
  }

  /** Events that leave the schedule and the process alone. */
  ghost predicate Undisturbed(events: seq<Event>)
  {
    forall k :: 0 <= k < |events| ==> !events[k].ScheduleMessage? && !events[k].Restart?
  }

  /** The times at which card `i` looks at the schedule. */
  function TickTimes(events: seq<Event>, i: nat): (times: seq<int>)
  {
    if events == [] then []
    else
      (match events[0]
       case Tick(now) => if i < |now| then [now[i].schedule] else []
       case _ => [])
      + TickTimes(events[1..], i)
  }

  ghost predicate Nondecreasing(times: seq<int>)
  {
    forall j, k :: 0 <= j <= k < |times| ==> times[j] <= times[k]
  }

  ghost predicate ActiveAtSome(e: Schedule, i: nat, times: seq<int>)
  {
    exists k :: 0 <= k < |times| && ScheduleActive(e, i, times[k])
  }

  // ----- one turn ----------------------------------------------------------------------------------------------------

  /** What a turn at time `t` does to the progress of the card. */
  ghost predicate Progressed(schedule: seq<Schedule>, i: nat, t: int, before: Card, after: Card)
  {
    match CurrentSchedule(schedule, i, t)
    case None => SameProgress(after, before)
    case Some(e) =>
      if Differs(before, e) then after.currentSchedule == e && after.started == before.started + [e]
      else SameProgress(after, before)
  }

  lemma CardTickProgress(s: State, i: nat, now: Clocks, w: World)
    requires i < |s.cards| && ShortPaths(w)
    ensures Progressed(s.schedule, i, now.schedule, s.cards[i], CardTick(s, i, now, w).cards[i])
  {
    var s1 := ScheduleStep(s, i, now.schedule, w);
    GuideStepProgress(s1, i, now.guide, w);
  }

  lemma GuideStepProgress(s: State, i: nat, now: int, w: World)
    requires i < |s.cards| && ShortPaths(w)
    ensures SameProgress(GuideStep(s, i, now, w).cards[i], s.cards[i])
  {
  }

  lemma {:induction false} TickProgress(s: State, from: nat, now: seq<Clocks>, w: World, i: nat)
    requires from <= i < |s.cards| == |now| && ShortPaths(w)
    ensures Progressed(s.schedule, i, now[i].schedule, s.cards[i], TickFrom(s, from, now, w).cards[i])
    decreases |s.cards| - from
  {
    var s1 := CardTick(s, from, now[from], w);
    if from == i {
      CardTickProgress(s, i, now[i], w);
    } else {
      TickProgress(s1, from + 1, now, w, i);
    }
  }

  lemma {:induction false} ChangeChannelsProgress(s: State, items: seq<(nat, int)>, w: World, i: nat)
    requires i < |s.cards| && ShortPaths(w)
    ensures var r := ChangeChannels(s, items, w);
            SameProgress(r.cards[i], s.cards[i]) && r.schedule == s.schedule
    decreases |items|
  {
    if items == [] {
    } else {
      var (j, channel) := items[0];
      if j < |s.cards| && channel != s.cards[j].status.channel {
        ChangeChannelsProgress(Put(s, j, Retune(At(s, j), j, channel, w)), items[1..], w, i);
      } else {
        ChangeChannelsProgress(s, items[1..], w, i);
      }
    }
  }

  // ----- a run ---------------------------------------------------------------------------------------------------------

  /** What the history of taken-up entries says about the times seen so far. */
  ghost predicate History(card: Card, schedule: seq<Schedule>, i: nat, times: seq<int>)
  {
    var started := card.started;
    && (started == [] ==> card.currentSchedule.start == 0)
    && (started != [] ==> card.currentSchedule == started[|started| - 1])
    && (forall k :: 0 <= k < |started| ==>
          started[k] in schedule && started[k].index == i && ActiveAtSome(started[k], i, times))
    && (forall j, k :: 0 <= j < k < |started| ==> started[j].end <= started[k].start)
    && (forall e :: e in schedule && ActiveAtSome(e, i, times) ==> e in started)
  }

  /** Being active at some time, when one more time is looked at. */
  lemma ActiveExtends(e: Schedule, i: nat, times: seq<int>, t: int)
    ensures ActiveAtSome(e, i, times + [t]) <==> ActiveAtSome(e, i, times) || ScheduleActive(e, i, t)
  {
    var times' := times + [t];
    if ActiveAtSome(e, i, times) {
      var k :| 0 <= k < |times| && ScheduleActive(e, i, times[k]);
      assert times'[k] == times[k];
    }
    if ActiveAtSome(e, i, times') {
      var k :| 0 <= k < |times'| && ScheduleActive(e, i, times'[k]);
      assert k < |times| ==> times'[k] == times[k];
    }
    assert times'[|times|] == t;
  }

  /** A turn that takes nothing up. */
  lemma HistoryKept(before: Card, after: Card, schedule: seq<Schedule>, i: nat, times: seq<int>, t: int)
    requires History(before, schedule, i, times) && SameProgress(after, before)
    requires forall e :: e in schedule && ScheduleActive(e, i, t) ==> e in before.started
    ensures History(after, schedule, i, times + [t])
  {
    forall e ensures ActiveAtSome(e, i, times + [t]) <==> ActiveAtSome(e, i, times) || ScheduleActive(e, i, t) {
      ActiveExtends(e, i, times, t);
    }
  }

  /** A turn that takes an entry up. */
  lemma HistoryGrows(before: Card, after: Card, schedule: seq<Schedule>, i: nat, times: seq<int>, t: int, e: Schedule)
    requires History(before, schedule, i, times)
    requires after.currentSchedule == e && after.started == before.started + [e]
    requires e in schedule && ScheduleActive(e, i, t)
    requires forall x :: x in schedule && ScheduleActive(x, i, t) ==> x == e
    requires forall k :: 0 <= k < |before.started| ==> before.started[k].end <= e.start
    ensures History(after, schedule, i, times + [t])
  {
    forall x ensures ActiveAtSome(x, i, times + [t]) <==> ActiveAtSome(x, i, times) || ScheduleActive(x, i, t) {
      ActiveExtends(x, i, times, t);
    }
    assert after.started[|before.started|] == e && e in after.started;
  }

  /** One more turn, at a time not before the earlier ones. */
  lemma HistoryExtends(before: Card, after: Card, schedule: seq<Schedule>, i: nat, times: seq<int>, t: int)
    requires Disjoint(schedule, i) && NonzeroStarts(schedule, i)
    requires History(before, schedule, i, times) && Progressed(schedule, i, t, before, after)
    requires Nondecreasing(times + [t])
    ensures History(after, schedule, i, times + [t])
  {
    CurrentIn(schedule, i, t);
    match CurrentSchedule(schedule, i, t)
    case None => HistoryKept(before, after, schedule, i, times, t);
    case Some(e) =>
      OnlyActive(schedule, i, t, e);
      if Differs(before, e) {
        StartsBehind(before, schedule, i, times, t, e);
        HistoryGrows(before, after, schedule, i, times, t, e);
      } else {
        KnownEntry(before, schedule, i, times, t, e);
        HistoryKept(before, after, schedule, i, times, t);
      }
  }

  /** At any time at most one entry of the card is active. */
  lemma OnlyActive(schedule: seq<Schedule>, i: nat, t: int, e: Schedule)
    requires Disjoint(schedule, i) && e in schedule && ScheduleActive(e, i, t)
    ensures forall x :: x in schedule && ScheduleActive(x, i, t) ==> x == e
  {
  }

  /** A newly active entry begins behind the end of all earlier ones. */
  lemma StartsBehind(card: Card, schedule: seq<Schedule>, i: nat, times: seq<int>, t: int, e: Schedule)
    requires Disjoint(schedule, i) && History(card, schedule, i, times) && Nondecreasing(times + [t])
    requires e in schedule && ScheduleActive(e, i, t) && Differs(card, e)
    ensures forall k :: 0 <= k < |card.started| ==> card.started[k].end <= e.start
  {
    forall k | 0 <= k < |card.started| ensures card.started[k].end <= e.start {
      var x, last := card.started[k], card.started[|card.started| - 1];
      var m :| 0 <= m < |times| && ScheduleActive(x, i, times[m]);
      var n :| 0 <= n < |times| && ScheduleActive(last, i, times[n]);
      assert (times + [t])[|times|] == t;
      assert times[m] <= t by { assert (times + [t])[m] == times[m]; }
      assert times[n] <= t by { assert (times + [t])[n] == times[n]; }
      assert x != e;
    }
  }

  /** An active entry with the current start and channel is the one taken up last. */
  lemma KnownEntry(card: Card, schedule: seq<Schedule>, i: nat, times: seq<int>, t: int, e: Schedule)
    requires Disjoint(schedule, i) && NonzeroStarts(schedule, i) && History(card, schedule, i, times)
    requires e in schedule && ScheduleActive(e, i, t) && !Differs(card, e)
    ensures e in card.started
  {
    assert card.started != [];
    var last := card.started[|card.started| - 1];
    var n :| 0 <= n < |times| && ScheduleActive(last, i, times[n]);
    assert last.start == e.start;
  }

  lemma TickHistory(s: State, now: seq<Clocks>, w: World, i: nat, times: seq<int>)
    requires i < |s.cards| == |now| && ShortPaths(w)
    requires Disjoint(s.schedule, i) && NonzeroStarts(s.schedule, i)
    requires History(s.cards[i], s.schedule, i, times) && Nondecreasing(times + [now[i].schedule])
    ensures var r := TickFrom(s, 0, now, w);
            r.schedule == s.schedule && History(r.cards[i], r.schedule, i, times + [now[i].schedule])
  {
    TickProgress(s, 0, now, w, i);
    HistoryExtends(s.cards[i], TickFrom(s, 0, now, w).cards[i], s.schedule, i, times, now[i].schedule);
  }

  /** Events other than turns of the loop leave the card's place in the schedule alone. */
  lemma OtherStep(s: State, ev: Event, w: World, i: nat)
    requires i < |s.cards| && ShortPaths(w) && ValidEvent(s, ev)
    requires !ev.ScheduleMessage? && !ev.Restart? && !ev.Tick?
    ensures var r := Step(s, ev, w); r.schedule == s.schedule && SameProgress(r.cards[i], s.cards[i])
  {
    if ev.ChannelChange? {
      ChangeChannelsProgress(s, ev.items, w, i);
    }
  }

  lemma StepHistory(s: State, ev: Event, w: World, i: nat, times: seq<int>)
    requires i < |s.cards| && ShortPaths(w) && ValidEvent(s, ev) && !ev.ScheduleMessage? && !ev.Restart?
    requires Disjoint(s.schedule, i) && NonzeroStarts(s.schedule, i)
    requires History(s.cards[i], s.schedule, i, times) && Nondecreasing(times + TickTimes([ev], i))
    ensures var r := Step(s, ev, w);
            r.schedule == s.schedule && History(r.cards[i], r.schedule, i, times + TickTimes([ev], i))
  {
    assert [ev][1..] == [];
    if ev.Tick? {
      assert TickTimes([ev], i) == [ev.now[i].schedule];
      TickHistory(s, ev.now, w, i, times);
    } else {
      assert times + TickTimes([ev], i) == times;
      OtherStep(s, ev, w, i);
      SameHistory(Step(s, ev, w).cards[i], s.cards[i], s.schedule, i, times);
    }
  }

  lemma SameHistory(after: Card, before: Card, schedule: seq<Schedule>, i: nat, times: seq<int>)
    requires History(before, schedule, i, times) && SameProgress(after, before)
    ensures History(after, schedule, i, times)
  {
  }

  lemma {:induction false} RunHistory(s: State, events: seq<Event>, w: World, i: nat, times: seq<int>)
    requires i < |s.cards| && ShortPaths(w) && ValidRun(s, events, w) && Undisturbed(events)
    requires Disjoint(s.schedule, i) && NonzeroStarts(s.schedule, i)
    requires History(s.cards[i], s.schedule, i, times) && Nondecreasing(times + TickTimes(events, i))
    ensures var r := Run(s, events, w);
            History(r.cards[i], s.schedule, i, times + TickTimes(events, i))
    decreases |events|
  {
    if events == [] {
      assert times + [] == times;
    } else {
      var first, rest := TickTimes([events[0]], i), TickTimes(events[1..], i);
      TickTimesHead(events, i);
      Associative(times, first, rest);
      NondecreasingPrefix(times + first, rest);
      StepHistory(s, events[0], w, i, times);
      RunHistory(Step(s, events[0], w), events[1..], w, i, times + first);
    }
  }

  lemma TickTimesHead(events: seq<Event>, i: nat)
    requires events != []
    ensures TickTimes(events, i) == TickTimes([events[0]], i) + TickTimes(events[1..], i)
    ensures Undisturbed(events) ==> Undisturbed(events[1..])
  {
    assert [events[0]][1..] == [];
    assert forall x: seq<int> :: x + [] == x;
  }

  lemma NondecreasingPrefix(a: seq<int>, b: seq<int>)
    requires Nondecreasing(a + b)
    ensures Nondecreasing(a)
  {
    forall j, k | 0 <= j <= k < |a| ensures a[j] <= a[k] {
      assert (a + b)[j] == a[j] && (a + b)[k] == a[k];
    }
  }

  lemma {:induction false} CountInOrder(started: seq<Schedule>, e: Schedule)
    requires forall k :: 0 <= k < |started| ==> started[k].start < started[k].end
    requires forall j, k :: 0 <= j < k < |started| ==> started[j].end <= started[k].start
    ensures multiset(started)[e] == if e in started then 1 else 0
  {
    if started == [] {
    } else {
      var front, last := started[..|started| - 1], started[|started| - 1];
      CountInOrder(front, e);
      assert started == front + [last];
      assert e in front ==> e != last by {
        forall k | 0 <= k < |front| ensures front[k] != last {
          assert started[k].end <= started[|started| - 1].start;
        }
      }
    }
  }

  /** From a freshly loaded process, over any events that leave schedule and process alone, with nondecreasing
      times: the new-schedule branch fires for an entry of the card exactly once if some turn falls into its
      window and never otherwise, and it fires for nothing else. */
  lemma EachEntryOnce(s: State, events: seq<Event>, w: World, i: nat, e: Schedule)
    requires i < |s.cards| && ShortPaths(w) && ValidRun(s, events, w) && Undisturbed(events)
    requires Disjoint(s.schedule, i) && NonzeroStarts(s.schedule, i)
    requires s.cards[i].currentSchedule == NO_SCHEDULE && s.cards[i].started == []
    requires Nondecreasing(TickTimes(events, i))
    ensures var started := Run(s, events, w).cards[i].started;
            multiset(started)[e]
            == if e in s.schedule && ActiveAtSome(e, i, TickTimes(events, i)) then 1 else 0
  {
    hide Run, ValidRun, History, TickTimes, Disjoint, NonzeroStarts, ActiveAtSome, Nondecreasing, Undisturbed;
    var times := TickTimes(events, i);
    assert [] + times == times;
    NoHistory(s.cards[i], s.schedule, i);
    RunHistory(s, events, w, i, []);
    HistoryCounts(Run(s, events, w).cards[i], s.schedule, i, times, e);
  }

  lemma NoHistory(card: Card, schedule: seq<Schedule>, i: nat)
    requires card.currentSchedule == NO_SCHEDULE && card.started == []
    ensures History(card, schedule, i, [])
  {
  }

  /** A card's history holds each entry that was active at some time once, and no other. */
  lemma HistoryCounts(card: Card, schedule: seq<Schedule>, i: nat, times: seq<int>, e: Schedule)
    requires History(card, schedule, i, times)
    ensures multiset(card.started)[e] == if e in schedule && ActiveAtSome(e, i, times) then 1 else 0
  {
    forall k | 0 <= k < |card.started| ensures card.started[k].start < card.started[k].end {
      assert ActiveAtSome(card.started[k], i, times);
    }
    CountInOrder(card.started, e);
  }
}
