/** The three threads of the monitor (monitor/main.c) as interleaved atomic steps. What a thread still has to do
    in its current round is a tree whose branches are what the outside world decides. */
module MonitorThreads {

  /** The contexts the threads share. Each has a mutex of its own, so a device also stands for its mutex. The
      first two are always there; the others come and go, and a flag says whether they are there. */
  datatype Device = Recorder | Analyzer | LogAnalyzer | AudioRecorder | AvAnalyzer

  /** What is left of a round. A lock can fail, and so can an initialisation. */
  datatype Code =
    | Stop
    | Lock(device: Device, taken: Code, failed: Code)
    | Unlock(device: Device, next: Code)
    | Init(device: Device, succeeded: Code, failed: Code)
    | Uninit(device: Device, next: Code)
    | Use(device: Device, next: Code)
    | Access(device: Device, next: Code)
    | SetFlag(device: Device, value: bool, next: Code)
    | Test(device: Device, yes: Code, no: Code)
    | Choose(left: Code, right: Code)

  // ----- the code of the threads ---------------------------------------------------------------------------------

  /** `Init` under the mutex, and the flag when it succeeds. */
  function Open(d: Device): Code
  {
    Lock(d, Init(d, SetFlag(d, true, Unlock(d, Stop)), Unlock(d, Stop)), Stop)
  }

  /** Closing a log: the analyzer goes before the flag. */
  function CloseLog(next: Code): Code
  {
    Lock(LogAnalyzer, Uninit(LogAnalyzer, SetFlag(LogAnalyzer, false, Unlock(LogAnalyzer, next))), Stop)
  }

  /** Closing an audio recording: the flag goes before the recorder. */
  function CloseAudio(next: Code): Code
  {
    Lock(AudioRecorder, SetFlag(AudioRecorder, false, Uninit(AudioRecorder, Unlock(AudioRecorder, next))), Stop)
  }

  /** Closing a recording: its loudness is read first. */
  function CloseAv(next: Code): Code
  {
    Lock(AvAnalyzer, Use(AvAnalyzer, Uninit(AvAnalyzer, SetFlag(AvAnalyzer, false, Unlock(AvAnalyzer, next)))), Stop)
  }

  /** An empty name, or a file that cannot be opened, ends the command. */
  function Named(next: Code): Code { Choose(next, Stop) }

  function LogStart(): Code
  {
    var opening := Named(Choose(Open(LogAnalyzer), Stop));
    Test(LogAnalyzer, CloseLog(opening), opening)
  }

  function LogEnd(): Code { Test(LogAnalyzer, CloseLog(Stop), Stop) }

  function AudioStart(): Code
  {
    var opening := Named(Open(AudioRecorder));
    Test(AudioRecorder, CloseAudio(opening), opening)
  }

  function AudioEnd(): Code { Test(AudioRecorder, CloseAudio(Stop), Stop) }

  function AvStart(): Code
  {
    var opening := Named(Choose(Open(AvAnalyzer), Stop));
    Test(AvAnalyzer, CloseAv(opening), opening)
  }

  function AvEnd(): Code { Test(AvAnalyzer, CloseAv(Stop), Stop) }

  /** The main analyzer is taken down and set up again. */
  function Reset(): Code
  {
    Lock(Analyzer, Access(Analyzer, Access(Analyzer, Unlock(Analyzer, Stop))), Stop)
  }

  /** Every 100 ms: the loudness for the controller, and a line of the log. */
  function Period(): Code
  {
    var log := Test(LogAnalyzer, Lock(LogAnalyzer, Use(LogAnalyzer, Unlock(LogAnalyzer, Stop)), Stop), Stop);
    Lock(Analyzer, Access(Analyzer, Unlock(Analyzer, log)), log)
  }

  /** A device that is used if its flag is set; what follows is done in any case. */
  function UseIfThere(d: Device, next: Code): Code
  {
    Lock(d, Test(d, Use(d, Unlock(d, next)), Unlock(d, next)), next)
  }

  function AudioRound(): Code
  {
    var devices := UseIfThere(LogAnalyzer, UseIfThere(AudioRecorder, UseIfThere(AvAnalyzer, Stop)));
    var analyzer := Lock(Analyzer, Access(Analyzer, Unlock(Analyzer, devices)), devices);
    Choose(Lock(Recorder, Access(Recorder, Unlock(Recorder, analyzer)), analyzer), Stop)
  }

  function VideoRound(): Code
  {
    Choose(Lock(Recorder, Access(Recorder, Unlock(Recorder, Stop)), Stop), Stop)
  }

  datatype Who = Main | Audio | Video

  /** What a thread may do next when it has nothing left: the main thread any command, or the periodic part. */
  function Rounds(who: Who): (r: seq<Code>)
    ensures |r| > 0
  {
    match who
    case Main => [LogStart(), LogEnd(), AudioStart(), AudioEnd(), AvStart(), AvEnd(), Reset(), Period()]
    case Audio => [AudioRound()]
    case Video => [VideoRound()]
  }

  // ----- the machine ---------------------------------------------------------------------------------------------

  datatype Thread = Thread(code: Code, held: seq<Device>)

  /** What happened to the devices that come and go. */
  datatype Action = Began(device: Device) | Ended(device: Device) | Used(device: Device, who: Who)

  datatype State = State(main: Thread, audio: Thread, video: Thread, flags: set<Device>, history: seq<Action>)

  function Get(s: State, who: Who): Thread
  {
    match who case Main => s.main case Audio => s.audio case Video => s.video
  }

  function Set(s: State, who: Who, th: Thread): State
  {
    match who case Main => s.(main := th) case Audio => s.(audio := th) case Video => s.(video := th)
  }

  predicate Free(s: State, d: Device)
  {
    d !in s.main.held && d !in s.audio.held && d !in s.video.held
  }

  function Release(held: seq<Device>, d: Device): seq<Device>
  {
    if held == [] then [] else if held[0] == d then held[1..] else [held[0]] + Release(held[1..], d)
  }

  const START := State(Thread(Stop, []), Thread(Stop, []), Thread(Stop, []), {}, [])

  /** A lock that does not fail needs the mutex to be free; everything else can always be done. `pick` is what
      the outside world decides. */
  predicate CanStep(s: State, who: Who, pick: nat)
  {
    var c := Get(s, who).code;
    (c.Stop? ==> pick < |Rounds(who)|) && (c.Lock? && pick == 0 ==> Free(s, c.device))
  }

  /** One step of one thread. */
  function Step(s: State, who: Who, pick: nat): State
    requires CanStep(s, who, pick)
  {
    var th := Get(s, who);
    match th.code
    case Stop => Set(s, who, th.(code := Rounds(who)[pick]))
    case Lock(d, taken, failed) =>
      Set(s, who, if pick == 0 then Thread(taken, th.held + [d]) else th.(code := failed))
    case Unlock(d, next) => Set(s, who, Thread(next, Release(th.held, d)))
    case Init(d, succeeded, failed) =>
      if pick == 0 then Set(s, who, th.(code := succeeded)).(history := s.history + [Began(d)])
      else Set(s, who, th.(code := failed))
    case Uninit(d, next) => Set(s, who, th.(code := next)).(history := s.history + [Ended(d)])
    case Use(d, next) => Set(s, who, th.(code := next)).(history := s.history + [Used(d, who)])
    case Access(_, next) => Set(s, who, th.(code := next))
    case SetFlag(d, value, next) =>
      Set(s, who, th.(code := next)).(flags := if value then s.flags + {d} else s.flags - {d})
    case Test(d, yes, no) => Set(s, who, th.(code := if d in s.flags then yes else no))
    case Choose(left, right) => Set(s, who, th.(code := if pick == 0 then left else right))
  }

  ghost predicate ValidRun(s: State, steps: seq<(Who, nat)>)
    decreases |steps|
  {
    steps == [] || (CanStep(s, steps[0].0, steps[0].1) && ValidRun(Step(s, steps[0].0, steps[0].1), steps[1..]))
  }

  function Run(s: State, steps: seq<(Who, nat)>): State
    requires ValidRun(s, steps)
    decreases |steps|
  {
    if steps == [] then s else Run(Step(s, steps[0].0, steps[0].1), steps[1..])
  }

  // ----- what the history says -----------------------------------------------------------------------------------

  /** The devices that have begun and not ended. */
  function Live(history: seq<Action>): set<Device>
  {
    if history == [] then {}
    else
      var n := |history| - 1;
      match history[n]
      case Began(d) => Live(history[..n]) + {d}
      case Ended(d) => Live(history[..n]) - {d}
      case Used(_, _) => Live(history[..n])
  }

  /** Every use and every end falls between a beginning and the next end; nothing begins twice. */
  ghost predicate Proper(history: seq<Action>)
  {
    forall k :: 0 <= k < |history| ==>
      match history[k]
      case Began(d) => d !in Live(history[..k])
      case Ended(d) => d in Live(history[..k])
      case Used(d, _) => d in Live(history[..k])
  }

  lemma ProperOneMore(history: seq<Action>, a: Action)
    requires Proper(history) && (a.Began? <==> a.device !in Live(history))
    ensures Proper(history + [a])
    ensures Live(history + [a]) == if a.Began? then Live(history) + {a.device}
                                   else if a.Ended? then Live(history) - {a.device} else Live(history)
  {
    var h := history + [a];
    assert h[..|history|] == history;
    forall k | 0 <= k < |h|
      ensures match h[k]
              case Began(d) => d !in Live(h[..k])
              case Ended(d) => d in Live(h[..k])
              case Used(d, _) => d in Live(h[..k])
    {
      if k < |history| {
        assert h[..k] == history[..k] && h[k] == history[k];
      }
    }
  }

  // ----- what the code of the threads keeps to ----------------------------------------------------------------------

  /** Locks are not nested, a device is touched only under its mutex and while it is there, and its mutex is given
      back only when flag and device agree. For the main thread, which alone changes flags and devices. */
  ghost predicate SafeMain(c: Code, held: seq<Device>, flags: set<Device>, live: set<Device>)
  {
    match c
    case Stop => held == []
    case Lock(d, taken, failed) => held == [] && SafeMain(taken, [d], flags, live) && SafeMain(failed, [], flags, live)
    case Unlock(d, next) => held == [d] && (d in flags <==> d in live) && SafeMain(next, [], flags, live)
    case Init(d, succeeded, failed) =>
      held == [d] && d !in live && SafeMain(succeeded, held, flags, live + {d}) && SafeMain(failed, held, flags, live)
    case Uninit(d, next) => held == [d] && d in live && SafeMain(next, held, flags, live - {d})
    case Use(d, next) => held == [d] && d in live && SafeMain(next, held, flags, live)
    case Access(d, next) => held == [d] && SafeMain(next, held, flags, live)
    case SetFlag(d, value, next) =>
      held == [d] && SafeMain(next, held, if value then flags + {d} else flags - {d}, live)
    case Test(d, yes, no) => if d in flags then SafeMain(yes, held, flags, live) else SafeMain(no, held, flags, live)
    case Choose(left, right) => SafeMain(left, held, flags, live) && SafeMain(right, held, flags, live)
  }

  /** For the other threads; `there` says that the device whose mutex is held is known to be there, which only a
      flag read under the mutex tells. */
  ghost predicate SafeOther(c: Code, held: seq<Device>, there: bool)
  {
    match c
    case Stop => held == []
    case Lock(d, taken, failed) => held == [] && SafeOther(taken, [d], false) && SafeOther(failed, [], false)
    case Unlock(d, next) => held == [d] && SafeOther(next, [], false)
    case Use(d, next) => held == [d] && there && SafeOther(next, held, there)
    case Access(d, next) => held == [d] && SafeOther(next, held, there)
    case Test(d, yes, no) => held == [d] && SafeOther(yes, held, true) && SafeOther(no, held, false)
    case Choose(left, right) => SafeOther(left, held, there) && SafeOther(right, held, there)
    case _ => false
  }

  lemma {:induction false} KnowingMore(c: Code, held: seq<Device>)
    requires SafeOther(c, held, false)
    ensures SafeOther(c, held, true)
  {
    if c.Access? {
      KnowingMore(c.next, held);
    } else if c.Choose? {
      KnowingMore(c.left, held);
      KnowingMore(c.right, held);
    }
  }

  lemma OpenSafe(d: Device, flags: set<Device>)
    requires d !in flags
    ensures SafeMain(Open(d), [], flags, flags)
  {
    var up := flags + {d};
    assert SafeMain(Unlock(d, Stop), [d], up, up);
    assert SafeMain(SetFlag(d, true, Unlock(d, Stop)), [d], flags, up);
    assert SafeMain(Unlock(d, Stop), [d], flags, flags);
    assert SafeMain(Init(d, SetFlag(d, true, Unlock(d, Stop)), Unlock(d, Stop)), [d], flags, flags);
  }

  lemma NamedOpenSafe(d: Device, flags: set<Device>)
    requires d !in flags
    ensures SafeMain(Named(Open(d)), [], flags, flags)
    ensures SafeMain(Named(Choose(Open(d), Stop)), [], flags, flags)
  {
    OpenSafe(d, flags);
    assert SafeMain(Choose(Open(d), Stop), [], flags, flags);
  }

  lemma CloseLogSafe(next: Code, flags: set<Device>)
    requires LogAnalyzer in flags && SafeMain(next, [], flags - {LogAnalyzer}, flags - {LogAnalyzer})
    ensures SafeMain(CloseLog(next), [], flags, flags)
  {
    var d, down := LogAnalyzer, flags - {LogAnalyzer};
    assert SafeMain(Unlock(d, next), [d], down, down);
    assert SafeMain(SetFlag(d, false, Unlock(d, next)), [d], flags, down);
    assert SafeMain(Uninit(d, SetFlag(d, false, Unlock(d, next))), [d], flags, flags);
  }

  lemma CloseAudioSafe(next: Code, flags: set<Device>)
    requires AudioRecorder in flags && SafeMain(next, [], flags - {AudioRecorder}, flags - {AudioRecorder})
    ensures SafeMain(CloseAudio(next), [], flags, flags)
  {
    var d, down := AudioRecorder, flags - {AudioRecorder};
    assert SafeMain(Unlock(d, next), [d], down, down);
    assert SafeMain(Uninit(d, Unlock(d, next)), [d], down, flags);
    assert SafeMain(SetFlag(d, false, Uninit(d, Unlock(d, next))), [d], flags, flags);
  }

  lemma CloseAvSafe(next: Code, flags: set<Device>)
    requires AvAnalyzer in flags && SafeMain(next, [], flags - {AvAnalyzer}, flags - {AvAnalyzer})
    ensures SafeMain(CloseAv(next), [], flags, flags)
  {
    var d, down := AvAnalyzer, flags - {AvAnalyzer};
    var flag := SetFlag(d, false, Unlock(d, next));
    assert SafeMain(Unlock(d, next), [d], down, down);
    assert SafeMain(flag, [d], flags, down);
    assert SafeMain(Uninit(d, flag), [d], flags, flags);
    assert SafeMain(Use(d, Uninit(d, flag)), [d], flags, flags);
  }

  lemma PeriodSafe(flags: set<Device>)
    ensures SafeMain(Period(), [], flags, flags)
  {
    var d := LogAnalyzer;
    var line := Lock(d, Use(d, Unlock(d, Stop)), Stop);
    if d in flags {
      assert SafeMain(Unlock(d, Stop), [d], flags, flags);
      assert SafeMain(Use(d, Unlock(d, Stop)), [d], flags, flags);
      assert SafeMain(line, [], flags, flags);
    }
    var log := Test(d, line, Stop);
    assert SafeMain(log, [], flags, flags);
    assert SafeMain(Unlock(Analyzer, log), [Analyzer], flags, flags);
    assert SafeMain(Access(Analyzer, Unlock(Analyzer, log)), [Analyzer], flags, flags);
  }

  /** Whatever is set up at the moment, every command and the periodic part are safe. */
  lemma MainRoundsSafe(k: nat, flags: set<Device>)
    requires k < |Rounds(Main)|
    ensures SafeMain(Rounds(Main)[k], [], flags, flags)
  {
    if k < 2 {
      NamedOpenSafe(LogAnalyzer, flags - {LogAnalyzer});
      if LogAnalyzer in flags {
        CloseLogSafe(Named(Choose(Open(LogAnalyzer), Stop)), flags);
        CloseLogSafe(Stop, flags);
      } else {
        assert flags - {LogAnalyzer} == flags;
      }
    } else if k < 4 {
      NamedOpenSafe(AudioRecorder, flags - {AudioRecorder});
      if AudioRecorder in flags {
        CloseAudioSafe(Named(Open(AudioRecorder)), flags);
        CloseAudioSafe(Stop, flags);
      } else {
        assert flags - {AudioRecorder} == flags;
      }
    } else if k < 6 {
      NamedOpenSafe(AvAnalyzer, flags - {AvAnalyzer});
      if AvAnalyzer in flags {
        CloseAvSafe(Named(Choose(Open(AvAnalyzer), Stop)), flags);
        CloseAvSafe(Stop, flags);
      } else {
        assert flags - {AvAnalyzer} == flags;
      }
    } else if k == 6 {
      var unlock := Unlock(Analyzer, Stop);
      assert SafeMain(unlock, [Analyzer], flags, flags);
      assert SafeMain(Access(Analyzer, unlock), [Analyzer], flags, flags);
      assert SafeMain(Access(Analyzer, Access(Analyzer, unlock)), [Analyzer], flags, flags);
    } else {
      PeriodSafe(flags);
    }
  }

  lemma UseIfThereSafe(d: Device, next: Code)
    requires SafeOther(next, [], false)
    ensures SafeOther(UseIfThere(d, next), [], false)
  {
    assert SafeOther(Unlock(d, next), [d], true);
    assert SafeOther(Use(d, Unlock(d, next)), [d], true);
    assert SafeOther(Test(d, Use(d, Unlock(d, next)), Unlock(d, next)), [d], false);
  }

  lemma AccessSafe(d: Device, next: Code)
    requires SafeOther(next, [], false)
    ensures SafeOther(Lock(d, Access(d, Unlock(d, next)), next), [], false)
  {
    assert SafeOther(Access(d, Unlock(d, next)), [d], false);
  }

  lemma OtherRoundsSafe(who: Who, k: nat)
    requires !who.Main? && k < |Rounds(who)|
    ensures SafeOther(Rounds(who)[k], [], false)
  {
    var av := UseIfThere(AvAnalyzer, Stop);
    UseIfThereSafe(AvAnalyzer, Stop);
    var audio := UseIfThere(AudioRecorder, av);
    UseIfThereSafe(AudioRecorder, av);
    var log := UseIfThere(LogAnalyzer, audio);
    UseIfThereSafe(LogAnalyzer, audio);
    AccessSafe(Analyzer, log);
    AccessSafe(Recorder, Lock(Analyzer, Access(Analyzer, Unlock(Analyzer, log)), log));
    AccessSafe(Recorder, Stop);
  }

  // ----- the invariant ------------------------------------------------------------------------------------------

  predicate There(th: Thread, live: set<Device>) { th.held != [] && th.held[0] in live }

  ghost predicate OtherInv(th: Thread, live: set<Device>)
  {
    |th.held| <= 1 && SafeOther(th.code, th.held, There(th, live))
  }

  ghost predicate Disjoint(a: Thread, b: Thread)
  {
    forall d :: d in a.held ==> d !in b.held
  }

  ghost predicate Inv(s: State)
  {
    var live := Live(s.history);
    && Proper(s.history)
    && |s.main.held| <= 1 && SafeMain(s.main.code, s.main.held, s.flags, live)
    && OtherInv(s.audio, live) && OtherInv(s.video, live)
    && Disjoint(s.main, s.audio) && Disjoint(s.main, s.video) && Disjoint(s.audio, s.video)
    && (forall d :: d !in s.main.held ==> (d in s.flags <==> d in live))
  }

  /** Another thread does not notice that a device whose mutex it does not hold comes or goes. */
  lemma OtherUnmoved(th: Thread, live: set<Device>, live': set<Device>)
    requires OtherInv(th, live)
    requires forall d :: d in th.held ==> (d in live <==> d in live')
    ensures OtherInv(th, live')
  {
  }

  /** Taking a mutex and giving it back. */
  lemma HeldBy(th: Thread)
    requires th.code.Lock? || th.code.Unlock?
    requires th.held == if th.code.Lock? then [] else [th.code.device]
    ensures th.code.Lock? ==> th.held + [th.code.device] == [th.code.device]
    ensures th.code.Unlock? ==> Release(th.held, th.code.device) == []
  {
  }

  /** A command begins, ends, or gets or gives back a mutex. */
  lemma MainControlSafe(s: State, pick: nat)
    requires Inv(s) && CanStep(s, Main, pick)
    requires var c := s.main.code; c.Stop? || c.Lock? || c.Unlock?
    ensures Inv(Step(s, Main, pick))
  {
    if s.main.code.Stop? {
      assert s.flags == Live(s.history);
      MainRoundsSafe(pick, s.flags);
    } else {
      HeldBy(s.main);
    }
  }

  /** The devices change: the other threads see nothing of it. */
  lemma MainDeviceSafe(s: State, pick: nat)
    requires Inv(s)
    requires var c := s.main.code; (c.Init? && pick == 0) || c.Uninit? || c.Use?
    ensures Inv(Step(s, Main, pick))
  {
    var r, live, c := Step(s, Main, pick), Live(s.history), s.main.code;
    ProperOneMore(s.history, if c.Init? then Began(c.device) else if c.Uninit? then Ended(c.device)
                                                              else Used(c.device, Main));
    OtherUnmoved(s.audio, live, Live(r.history));
    OtherUnmoved(s.video, live, Live(r.history));
  }

  /** The rest: neither mutexes nor devices change. */
  lemma MainPlainSafe(s: State, pick: nat)
    requires Inv(s)
    requires var c := s.main.code; (c.Init? && pick != 0) || c.Access? || c.SetFlag? || c.Test? || c.Choose?
    ensures Inv(Step(s, Main, pick))
  {
    hide Live, SafeOther, Proper;
  }

  lemma MainStepSafe(s: State, pick: nat)
    requires Inv(s) && CanStep(s, Main, pick)
    ensures Inv(Step(s, Main, pick))
  {
    hide Inv, Step;
    var c := s.main.code;
    if c.Stop? || c.Lock? || c.Unlock? {
      MainControlSafe(s, pick);
    } else if (c.Init? && pick == 0) || c.Uninit? || c.Use? {
      MainDeviceSafe(s, pick);
    } else {
      MainPlainSafe(s, pick);
    }
  }

  /** One of the other threads by itself. */
  lemma OtherStepSafe(s: State, who: Who, pick: nat)
    requires !who.Main? && Inv(s) && CanStep(s, who, pick)
    ensures var r := Step(s, who, pick);
            OtherInv(Get(r, who), Live(r.history)) && Proper(r.history) && Live(r.history) == Live(s.history)
  {
    var r, live, th := Step(s, who, pick), Live(s.history), Get(s, who);
    var c := th.code;
    if c.Stop? {
      OtherRoundsSafe(who, pick);
    } else if c.Unlock? {
      HeldBy(th);
    } else if c.Lock? && pick == 0 {
      HeldBy(th);
      if c.device in live {
        KnowingMore(c.taken, [c.device]);
      }
    } else if c.Use? {
      ProperOneMore(s.history, Used(c.device, who));
    }
  }

  /** What a step of one of the other threads leaves alone. */
  lemma OtherStepFrame(s: State, who: Who, pick: nat)
    requires !who.Main? && CanStep(s, who, pick) && Inv(s)
    ensures var r := Step(s, who, pick);
            && r.main == s.main && r.flags == s.flags
            && (if who.Audio? then r.video == s.video else r.audio == s.audio)
            && forall d :: d in Get(r, who).held ==> d in Get(s, who).held || Free(s, d)
  {
    hide SafeMain, Live, Proper;
    if Get(s, who).code.Unlock? {
      HeldBy(Get(s, who));
    }
  }

  lemma StepSafe(s: State, who: Who, pick: nat)
    requires Inv(s) && CanStep(s, who, pick)
    ensures Inv(Step(s, who, pick))
  {
    hide SafeMain, SafeOther, Live, Proper, Step, CanStep;
    if who.Main? {
      MainStepSafe(s, pick);
    } else {
      OtherStepSafe(s, who, pick);
      OtherStepFrame(s, who, pick);
    }
  }

  lemma {:induction false} RunSafe(s: State, steps: seq<(Who, nat)>)
    requires Inv(s) && ValidRun(s, steps)
    ensures Inv(Run(s, steps))
    decreases |steps|
  {
    if steps == [] {
    } else {
      StepSafe(s, steps[0].0, steps[0].1);
      RunSafe(Step(s, steps[0].0, steps[0].1), steps[1..]);
    }
  }

  // ----- the theorems -----------------------------------------------------------------------------------------------

  /** In every interleaving a log or recording analyzer, or the audio recorder, is used and taken down only between
      a successful set-up and the next take-down, and never set up twice. */
  lemma UsedOnlyWhileThere(steps: seq<(Who, nat)>)
    requires ValidRun(START, steps)
    ensures Proper(Run(START, steps).history)
  {
    RunSafe(START, steps);
  }

  /** What a thread touches next, if it touches a device. */
  function Touches(c: Code): set<Device>
  {
    if c.Init? || c.Uninit? || c.Use? || c.Access? || c.SetFlag? then {c.device} else {}
  }

  lemma TouchingHolds(s: State, who: Who, d: Device)
    requires Inv(s) && d in Touches(Get(s, who).code)
    ensures Get(s, who).held == [d]
  {
  }

  lemma HeldByOne(s: State, who: Who, other: Who, d: Device)
    requires Inv(s) && who != other && d in Get(s, who).held
    ensures d !in Get(s, other).held
  {
  }

  /** In every reachable state, whoever is about to touch a device holds its mutex, and no one else does. */
  lemma TouchedUnderMutex(steps: seq<(Who, nat)>, who: Who, other: Who, d: Device)
    requires ValidRun(START, steps)
    requires who != other && d in Touches(Get(Run(START, steps), who).code)
    ensures var s := Run(START, steps);
            Get(s, who).held == [d] && d !in Get(s, other).held && d !in Touches(Get(s, other).code)
  {
    var s := Run(START, steps);
    RunSafe(START, steps);
    TouchingHolds(s, who, d);
    HeldByOne(s, who, other, d);
    if d in Touches(Get(s, other).code) {
      TouchingHolds(s, other, d);
    }
  }

  // ----- no deadlock ----------------------------------------------------------------------------------------------

  /** How many steps of its own a thread takes at most before it gives its mutex back. */
  function StepsToUnlock(c: Code): nat
  {
    match c
    case Stop => 0
    case Lock(_, taken, failed) => 0
    case Unlock(_, next) => 1
    case Init(_, succeeded, failed) => 1 + Max(StepsToUnlock(succeeded), StepsToUnlock(failed))
    case Uninit(_, next) => 1 + StepsToUnlock(next)
    case Use(_, next) => 1 + StepsToUnlock(next)
    case Access(_, next) => 1 + StepsToUnlock(next)
    case SetFlag(_, _, next) => 1 + StepsToUnlock(next)
    case Test(_, yes, no) => 1 + Max(StepsToUnlock(yes), StepsToUnlock(no))
    case Choose(left, right) => 1 + Max(StepsToUnlock(left), StepsToUnlock(right))
  }

  function Max(a: nat, b: nat): nat { if a < b then b else a }

  /** A thread that holds a mutex is not waiting, and its next step gives the mutex back or brings that nearer. */
  lemma HolderMoves(s: State, who: Who, d: Device, pick: nat)
    requires Inv(s) && d in Get(s, who).held
    ensures var th := Get(s, who);
            && th.held == [d] && !th.code.Stop? && !th.code.Lock? && CanStep(s, who, pick)
            && var r := Get(Step(s, who, pick), who);
               d !in r.held || (r.held == [d] && StepsToUnlock(r.code) < StepsToUnlock(th.code))
  {
    var th := Get(s, who);
    assert th.held == [d];
    if th.code.Unlock? {
      HeldBy(th);
    }
  }

  /** In every reachable state each step of a thread that holds a mutex can be done, whatever the others do, and
      gives the mutex back or brings that nearer: whoever waits for a mutex waits for a bounded number of steps
      of a thread that waits for no one. */
  lemma HolderNeverWaits(steps: seq<(Who, nat)>, who: Who, d: Device, pick: nat)
    requires ValidRun(START, steps) && d in Get(Run(START, steps), who).held
    ensures var s := Run(START, steps);
            && CanStep(s, who, pick)
            && var r := Get(Step(s, who, pick), who);
               d !in r.held || (r.held == [d] && StepsToUnlock(r.code) < StepsToUnlock(Get(s, who).code))
  {
    RunSafe(START, steps);
    HolderMoves(Run(START, steps), who, d, pick);
  }

  /** Someone can always take a step that is not a failing lock. */
  lemma NoDeadlock(steps: seq<(Who, nat)>)
    requires ValidRun(START, steps)
    ensures exists who :: CanStep(Run(START, steps), who, 0)
  {
    var s := Run(START, steps);
    RunSafe(START, steps);
    var c := s.main.code;
    if c.Lock? && !Free(s, c.device) {
      var who := if c.device in s.audio.held then Audio else if c.device in s.video.held then Video else Main;
      HolderNeverWaits(steps, who, c.device, 0);
      assert CanStep(s, who, 0);
    } else {
      assert CanStep(s, Main, 0);
    }
  }
}
