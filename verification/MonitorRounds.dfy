/** What the rounds of the monitor's threads (monitor/main.c) bring about, in any interleaving: a round in which every
    lock is taken and every call succeeds sets up, takes down and uses the devices it is for. */
module MonitorRounds {
  import opened MonitorThreads

  /** What a step can do to a device. */
  datatype Deed = Sets(device: Device) | TakesDown(device: Device) | Uses(device: Device) | Accesses(device: Device)

  /** The next step is the deed. */
  predicate Does(c: Code, a: Deed)
  {
    match c
    case Init(d, _, _) => a == Sets(d)
    case Uninit(d, _) => a == TakesDown(d)
    case Use(d, _) => a == Uses(d)
    case Access(d, _) => a == Accesses(d)
    case _ => false
  }

  /** Every way through the code on which locks and calls succeed comes to the deed; `up` says whether the flag of its
      device is set. */
  predicate Promises(c: Code, a: Deed, up: bool)
  {
    Does(c, a)
    || match c
       case Stop => false
       case Lock(_, taken, _) => Promises(taken, a, up)
       case Unlock(_, next) => Promises(next, a, up)
       case Init(_, succeeded, _) => Promises(succeeded, a, up)
       case Uninit(_, next) => Promises(next, a, up)
       case Use(_, next) => Promises(next, a, up)
       case Access(_, next) => Promises(next, a, up)
       case SetFlag(d, value, next) => Promises(next, a, if d == a.device then value else up)
       case Test(d, yes, no) => if d == a.device then Promises(if up then yes else no, a, up)
                                else Promises(yes, a, up) && Promises(no, a, up)
       case Choose(left, _) => Promises(left, a, up)
  }

  /** The thread does the deed in one of the steps. */
  ghost predicate Performs(s: State, steps: seq<(Who, nat)>, who: Who, a: Deed)
    requires ValidRun(s, steps)
    decreases |steps|
  {
    steps != [] && ((steps[0].0 == who && Does(Get(s, who).code, a))
                    || Performs(Step(s, steps[0].0, steps[0].1), steps[1..], who, a))
  }

  /** In the thread's steps everything succeeds, and the others leave the device's flag alone. */
  ghost predicate Smooth(s: State, steps: seq<(Who, nat)>, who: Who, d: Device)
    requires ValidRun(s, steps)
    decreases |steps|
  {
    steps != [] ==>
      var r := Step(s, steps[0].0, steps[0].1);
      && (if steps[0].0 == who then steps[0].1 == 0 else (d in r.flags <==> d in s.flags))
      && Smooth(r, steps[1..], who, d)
  }

  /** A step of the thread itself does the deed or comes nearer to it. */
  lemma OwnStep(s: State, who: Who, a: Deed)
    requires CanStep(s, who, 0) && Promises(Get(s, who).code, a, a.device in s.flags) && !Does(Get(s, who).code, a)
    ensures var r := Step(s, who, 0); Promises(Get(r, who).code, a, a.device in r.flags)
  {
  }

  lemma OtherStep(s: State, who: Who, other: Who, pick: nat)
    requires other != who && CanStep(s, other, pick)
    ensures Get(Step(s, other, pick), who) == Get(s, who)
  {
  }

  /** In any interleaving a thread whose code promises a deed has done it when it comes to its end. */
  lemma {:induction false} PromiseKept(s: State, steps: seq<(Who, nat)>, who: Who, a: Deed)
    requires ValidRun(s, steps) && Smooth(s, steps, who, a.device)
    requires Promises(Get(s, who).code, a, a.device in s.flags) && Get(Run(s, steps), who).code.Stop?
    ensures Performs(s, steps, who, a)
    decreases |steps|
  {
    hide Promises, Does;
    if steps == [] {
      assert false by { StopPromisesNothing(a, a.device in s.flags); }
    } else {
      var r := Step(s, steps[0].0, steps[0].1);
      if steps[0].0 != who {
        OtherStep(s, who, steps[0].0, steps[0].1);
        PromiseKept(r, steps[1..], who, a);
      } else if !Does(Get(s, who).code, a) {
        OwnStep(s, who, a);
        PromiseKept(r, steps[1..], who, a);
      }
    }
  }

  lemma StopPromisesNothing(a: Deed, up: bool)
    ensures !Promises(Stop, a, up)
  {
  }

  /** The devices that come and go. */
  predicate ComesAndGoes(d: Device) { d.LogAnalyzer? || d.AudioRecorder? || d.AvAnalyzer? }

  /** The audio thread's round reads the sound card, feeds the main analyzer, and feeds every log, audio recording and
      recording that is there. */
  lemma AudioRoundPromises(d: Device, up: bool)
    ensures Promises(AudioRound(), Accesses(Recorder), up) && Promises(AudioRound(), Accesses(Analyzer), up)
    ensures ComesAndGoes(d) ==> Promises(AudioRound(), Uses(d), true)
  {
    var av := UseIfThere(AvAnalyzer, Stop);
    var audio := UseIfThere(AudioRecorder, av);
    var devices := UseIfThere(LogAnalyzer, audio);
    if ComesAndGoes(d) {
      FedIfThere(AvAnalyzer, Stop, d);
      FedIfThere(AudioRecorder, av, d);
      FedIfThere(LogAnalyzer, audio, d);
      Accessed(Analyzer, devices, Uses(d), true);
      Accessed(Recorder, Lock(Analyzer, Access(Analyzer, Unlock(Analyzer, devices)), devices), Uses(d), true);
    }
    Accessed(Analyzer, devices, Accesses(Analyzer), up);
    Accessed(Recorder, Lock(Analyzer, Access(Analyzer, Unlock(Analyzer, devices)), devices), Accesses(Analyzer), up);
    Accessed(Recorder, Lock(Analyzer, Access(Analyzer, Unlock(Analyzer, devices)), devices), Accesses(Recorder), up);
  }

  lemma FedIfThere(d: Device, next: Code, e: Device)
    ensures Promises(UseIfThere(d, next), Uses(e), true) <== d == e || Promises(next, Uses(e), true)
  {
    assert Promises(Unlock(d, next), Uses(e), true) == Promises(next, Uses(e), true);
    assert Promises(Use(d, Unlock(d, next)), Uses(e), true) <== d == e || Promises(next, Uses(e), true);
    assert Promises(Test(d, Use(d, Unlock(d, next)), Unlock(d, next)), Uses(e), true)
           <== d == e || Promises(next, Uses(e), true);
  }

  lemma Accessed(d: Device, next: Code, a: Deed, up: bool)
    ensures Promises(Lock(d, Access(d, Unlock(d, next)), next), a, up) <== a == Accesses(d) || Promises(next, a, up)
  {
    assert Promises(Unlock(d, next), a, up) == Promises(next, a, up);
    assert Promises(Access(d, Unlock(d, next)), a, up) <== a == Accesses(d) || Promises(next, a, up);
  }

  /** The device a pair of commands opens and closes: the main thread's rounds 0 to 5. */
  function DeviceOf(k: nat): Device
    requires k < 6
  {
    if k < 2 then LogAnalyzer else if k < 4 then AudioRecorder else AvAnalyzer
  }

  lemma OpenPromises(d: Device)
    ensures Promises(Open(d), Sets(d), false)
  {
    assert Promises(Init(d, SetFlag(d, true, Unlock(d, Stop)), Unlock(d, Stop)), Sets(d), false);
  }

  /** Closing what is there takes it down, and what follows is done with the flag cleared. */
  lemma ClosePromises(k: nat, next: Code, a: Deed)
    requires k < 6 && a.device == DeviceOf(k) && (a == TakesDown(DeviceOf(k)) || Promises(next, a, false))
    ensures k < 2 ==> Promises(CloseLog(next), a, true)
    ensures 2 <= k < 4 ==> Promises(CloseAudio(next), a, true)
    ensures 4 <= k ==> Promises(CloseAv(next), a, true)
  {
    var d := DeviceOf(k);
    var unlock := Unlock(d, next);
    assert Promises(unlock, a, false) == Promises(next, a, false);
    if 2 <= k < 4 {
      assert Promises(Uninit(d, unlock), a, false);
      assert Promises(SetFlag(d, false, Uninit(d, unlock)), a, true);
    } else {
      var flag := SetFlag(d, false, unlock);
      assert Promises(flag, a, true) == Promises(unlock, a, false);
      assert Promises(Uninit(d, flag), a, true);
      assert Promises(Use(d, Uninit(d, flag)), a, true);
    }
  }

  /** The code that opens the device, behind the test of its flag. */
  function Opening(k: nat): Code
    requires k < 6
  {
    if 2 <= k < 4 then Named(Open(DeviceOf(k))) else Named(Choose(Open(DeviceOf(k)), Stop))
  }

  lemma OpeningPromises(k: nat)
    requires k < 6
    ensures Promises(Opening(k), Sets(DeviceOf(k)), false)
  {
    OpenPromises(DeviceOf(k));
    assert Promises(Choose(Open(DeviceOf(k)), Stop), Sets(DeviceOf(k)), false);
  }

  /** A round tests the flag, and closes the device if it is set. */
  lemma RoundShape(k: nat)
    requires k < 6
    ensures var d, next := DeviceOf(k), if k % 2 == 0 then Opening(k) else Stop;
            Rounds(Main)[k] == Test(d, if k < 2 then CloseLog(next) else if k < 4 then CloseAudio(next) else CloseAv(next),
                                    next)
  {
  }

  /** A start sets the device up, after taking down the one that is there; an end takes it down. */
  lemma MainRoundPromises(k: nat, up: bool)
    requires k < 6
    ensures up ==> Promises(Rounds(Main)[k], TakesDown(DeviceOf(k)), true)
    ensures k % 2 == 0 ==> Promises(Rounds(Main)[k], Sets(DeviceOf(k)), up)
  {
    hide Rounds, Opening, CloseLog, CloseAudio, CloseAv;
    var d, next := DeviceOf(k), if k % 2 == 0 then Opening(k) else Stop;
    RoundShape(k);
    ClosePromises(k, next, TakesDown(d));
    if k % 2 == 0 {
      OpeningPromises(k);
      ClosePromises(k, next, Sets(d));
    }
  }

  /** The end of a recording reads its loudness before the analyzer is gone. */
  lemma AvCloseReadsLoudness(k: nat)
    requires 4 <= k < 6
    ensures Promises(Rounds(Main)[k], Uses(AvAnalyzer), true)
  {
    var next := if k == 4 then Named(Choose(Open(AvAnalyzer), Stop)) else Stop;
    var d := AvAnalyzer;
    assert Promises(Use(d, Uninit(d, SetFlag(d, false, Unlock(d, next)))), Uses(d), true);
    assert Promises(CloseAv(next), Uses(d), true);
  }

  /** A reset takes the main analyzer in hand; the periodic part reads it and writes a line of the log that is open; the
      video thread writes to the recorder. */
  lemma OtherRoundsPromise(up: bool)
    ensures Promises(Reset(), Accesses(Analyzer), up) && Promises(Period(), Accesses(Analyzer), up)
    ensures Promises(Period(), Uses(LogAnalyzer), true)
    ensures Promises(VideoRound(), Accesses(Recorder), up)
  {
    var d := LogAnalyzer;
    var line := Lock(d, Use(d, Unlock(d, Stop)), Stop);
    assert Promises(Use(d, Unlock(d, Stop)), Uses(d), true);
    assert Promises(line, Uses(d), true);
    assert Promises(Test(d, line, Stop), Uses(d), true);
    Accessed(Analyzer, Test(d, line, Stop), Uses(d), true);
    Accessed(Analyzer, Test(d, line, Stop), Accesses(Analyzer), up);
    Accessed(Recorder, Stop, Accesses(Recorder), up);
    assert Promises(Access(Analyzer, Access(Analyzer, Unlock(Analyzer, Stop))), Accesses(Analyzer), up);
  }

  // ----- in any interleaving -------------------------------------------------------------------------------------------

  /** A round of the audio thread that comes to its end with every lock taken has fed each device whose flag was set
      all the time, whatever the main thread and the video thread did meanwhile. */
  lemma AudioFeedsWhatIsThere(s: State, steps: seq<(Who, nat)>, d: Device)
    requires ValidRun(s, steps) && Smooth(s, steps, Audio, d) && ComesAndGoes(d) && d in s.flags
    requires s.audio.code == AudioRound() && Run(s, steps).audio.code.Stop?
    ensures Performs(s, steps, Audio, Uses(d))
  {
    AudioRoundPromises(d, true);
    PromiseKept(s, steps, Audio, Uses(d));
  }

  /** Only the main thread changes flags. */
  lemma {:induction false} MainIsSmooth(s: State, steps: seq<(Who, nat)>, d: Device)
    requires Inv(s) && ValidRun(s, steps) && forall k :: 0 <= k < |steps| && steps[k].0.Main? ==> steps[k].1 == 0
    ensures Smooth(s, steps, Main, d)
    decreases |steps|
  {
    hide Inv, Step;
    if steps == [] {
    } else {
      StepSafe(s, steps[0].0, steps[0].1);
      if !steps[0].0.Main? {
        OtherStepFrame(s, steps[0].0, steps[0].1);
      }
      MainIsSmooth(Step(s, steps[0].0, steps[0].1), steps[1..], d);
    }
  }

  /** A command of the main thread that is carried out without a failure, from any reachable state and however the other
      threads run meanwhile: a start sets its device up and takes down the one that was there; an end takes it down. */
  lemma CommandIsCarriedOut(before: seq<(Who, nat)>, steps: seq<(Who, nat)>, k: nat)
    requires k < 6 && ValidRun(START, before) && ValidRun(Run(START, before), steps)
    requires forall j :: 0 <= j < |steps| && steps[j].0.Main? ==> steps[j].1 == 0
    requires var s := Run(START, before); s.main.code == Rounds(Main)[k] && Run(s, steps).main.code.Stop?
    ensures var s, d := Run(START, before), DeviceOf(k);
            && (d in s.flags ==> Performs(s, steps, Main, TakesDown(d)))
            && (k % 2 == 0 ==> Performs(s, steps, Main, Sets(d)))
            && (4 <= k && d in s.flags ==> Performs(s, steps, Main, Uses(d)))
  {
    hide Promises, Rounds;
    var s, d := Run(START, before), DeviceOf(k);
    RunSafe(START, before);
    MainIsSmooth(s, steps, d);
    MainRoundPromises(k, d in s.flags);
    if d in s.flags {
      PromiseKept(s, steps, Main, TakesDown(d));
    }
    if k % 2 == 0 {
      PromiseKept(s, steps, Main, Sets(d));
    }
    if 4 <= k && d in s.flags {
      AvCloseReadsLoudness(k);
      PromiseKept(s, steps, Main, Uses(d));
    }
  }
}
