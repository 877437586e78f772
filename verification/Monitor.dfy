/** The command switch of the monitor's main loop (monitor/main.c), as one thread sees it: which devices are
    open under which names, and which recordings have been reported. */
module Monitor {
  import opened Ipc
  import opened Sequences
  import opened Text
  import opened Wrappers

  /** How the calls behind one command turn out: taking the mutex to close what is open and to open the new,
      opening the file, logger or socket, allocating analyzer or recorder, reading the loudness, sending it. */
  datatype Outcome = Outcome(lockOld: bool, lockNew: bool, open: bool, init: bool, loudness: bool, reply: bool)

  /** Everything behind the command but the loudness succeeds. */
  predicate Succeeds(o: Outcome) { o.lockOld && o.lockNew && o.open && o.init }

  /** Where a stream is sent. */
  datatype Target = Target(ip: string, port: int)

  const NO_TARGET := Target("", 0)

  /** The flags and names of `main`. */
  datatype Devices = Devices(logFlag: bool, logName: string, streamFlag: bool, streamTarget: Target,
                             audioFlag: bool, audioName: string, avFlag: bool, avName: string, ended: bool)

  const CLOSED := Devices(false, "", false, NO_TARGET, false, "", false, "", false)

  /** `strtok(s, " ")`: the first word and what is behind it. */
  function SkipBlanks(s: string): string
  {
    if s == [] || s[0] != ' ' then s else SkipBlanks(s[1..])
  }

  function Word(s: string): string
  {
    if s == [] || s[0] == ' ' then [] else [s[0]] + Word(s[1..])
  }

  function Behind(s: string): string
  {
    if s == [] || s[0] == ' ' then s else Behind(s[1..])
  }

  /** The target in the argument of a stream command: its two first words, if there are two. */
  function StreamTarget(arg: string): Option<Target>
  {
    var ip, rest := Word(SkipBlanks(arg)), Behind(SkipBlanks(arg));
    var port := Word(SkipBlanks(rest));
    if port == "" then None else Some(Target(ip, ToInt(Strtol(port))))
  }

  /** What one command makes of the devices. */
  function HandleDevices(m: Devices, c: Command, o: Outcome): Devices
  {
    if m.ended then m
    else
      match c
      case LoudnessLogStart(arg) =>
        if m.logFlag && !o.lockOld then m
        else if arg == "" then m.(logFlag := false)
        else m.(logFlag := o.open && o.lockNew && o.init, logName := arg)
      case LoudnessLogEnd => if o.lockOld then m.(logFlag := false) else m
      case AvStreamStart(arg) =>
        var target := StreamTarget(arg);
        if target.None? then m.(streamFlag := false) else m.(streamFlag := o.init, streamTarget := target.value)
      case AvStreamEnd => m.(streamFlag := false)
      case AudioRecordStart(arg) =>
        if m.audioFlag && !o.lockOld then m
        else if arg == "" then m.(audioFlag := false)
        else m.(audioFlag := o.lockNew && o.init, audioName := arg)
      case AudioRecordEnd => if o.lockOld then m.(audioFlag := false) else m
      case AvRecordStart(arg) =>
        if m.avFlag && !o.lockOld then m
        else if arg == "" then m.(avFlag := false)
        else m.(avFlag := o.open && o.lockNew && o.init, avName := arg)
      case AvRecordEnd => if o.lockOld then m.(avFlag := false) else m
      case AnalyzerReset => m
      case ProgramEnd => m.(ended := true)
  }

  /** A recording that ended, and whether its loudness was reported. */
  datatype Ending = Ending(name: string, reported: bool)

  /** The devices with the history of recordings. */
  datatype Machine = Machine(devices: Devices, begun: seq<string>, endings: seq<Ending>, replies: seq<string>)

  const FRESH := Machine(CLOSED, [], [], [])

  /** The running recording is closed by this command. */
  predicate Closes(m: Devices, c: Command, o: Outcome)
  {
    !m.ended && m.avFlag && o.lockOld && (c.AvRecordStart? || c.AvRecordEnd?)
  }

  /** A recording is begun by this command. */
  predicate Opens(m: Devices, c: Command, o: Outcome)
  {
    && !m.ended && c.AvRecordStart? && c.arg != "" && (m.avFlag ==> o.lockOld)
    && o.open && o.lockNew && o.init
  }

  function Handle(m: Machine, c: Command, o: Outcome): Machine
  {
    var d := m.devices;
    var closes, reported := Closes(d, c, o), o.loudness && o.reply;
    Machine(HandleDevices(d, c, o),
            if Opens(d, c, o) then m.begun + [c.arg] else m.begun,
            if closes then m.endings + [Ending(d.avName, reported)] else m.endings,
            if closes && reported then m.replies + [d.avName] else m.replies)
  }

  function RunCommands(commands: seq<(Command, Outcome)>): Machine
  {
    if commands == [] then FRESH
    else
      var n := |commands| - 1;
      Handle(RunCommands(commands[..n]), commands[n].0, commands[n].1)
  }

  function Names(endings: seq<Ending>): (names: seq<string>)
    ensures |names| == |endings|
  {
    seq(|endings|, k requires 0 <= k < |endings| => endings[k].name)
  }

  function Reported(endings: seq<Ending>): (names: seq<string>)
  {
    if endings == [] then []
    else
      var n := |endings| - 1;
      Reported(endings[..n]) + if endings[n].reported then [endings[n].name] else []
  }

  /** The recording that is running. */
  function Running(m: Devices): seq<string> { if m.avFlag then [m.avName] else [] }

  ghost predicate Accounted(m: Machine)
  {
    && m.begun == Names(m.endings) + Running(m.devices)
    && m.replies == Reported(m.endings)
  }

  /** A command that neither ends a recording nor begins one. */
  lemma OtherCommand(m: Machine, c: Command, o: Outcome)
    requires !Closes(m.devices, c, o) && !Opens(m.devices, c, o)
    ensures var r := Handle(m, c, o);
            && r.begun == m.begun && r.endings == m.endings && r.replies == m.replies
            && Running(r.devices) == Running(m.devices)
  {
  }

  lemma ClosingCommand(m: Machine, c: Command, o: Outcome)
    requires Closes(m.devices, c, o)
    ensures var r, e := Handle(m, c, o), Ending(m.devices.avName, o.loudness && o.reply);
            && r.endings == m.endings + [e]
            && r.replies == m.replies + (if e.reported then [e.name] else [])
            && r.begun == m.begun + Running(r.devices)
  {
    assert m.begun + [] == m.begun && m.replies + [] == m.replies;
  }

  lemma OpeningCommand(m: Machine, c: Command, o: Outcome)
    requires Opens(m.devices, c, o) && !m.devices.avFlag
    ensures var r := Handle(m, c, o);
            && r.endings == m.endings && r.replies == m.replies && r.begun == m.begun + Running(r.devices)
  {
  }

  lemma OneMoreEnding(endings: seq<Ending>, e: Ending)
    ensures Names(endings + [e]) == Names(endings) + [e.name]
    ensures Reported(endings + [e]) == Reported(endings) + if e.reported then [e.name] else []
  {
    assert (endings + [e])[..|endings|] == endings;
  }

  lemma HandleAccounted(m: Machine, c: Command, o: Outcome)
    requires Accounted(m)
    ensures Accounted(Handle(m, c, o))
  {
    hide Handle, Closes, Opens;
    if Closes(m.devices, c, o) {
      assert m.devices.avFlag by { ClosesRunning(m.devices, c, o); }
      ClosingCommand(m, c, o);
      OneMoreEnding(m.endings, Ending(m.devices.avName, o.loudness && o.reply));
    } else if Opens(m.devices, c, o) {
      assert !m.devices.avFlag by { OpensFree(m.devices, c, o); }
      OpeningCommand(m, c, o);
      assert Names(m.endings) + [] == Names(m.endings);
    } else {
      OtherCommand(m, c, o);
    }
  }

  lemma ClosesRunning(m: Devices, c: Command, o: Outcome)
    requires Closes(m, c, o)
    ensures m.avFlag
  {
  }

  /** A start that does not close the running recording first finds none. */
  lemma OpensFree(m: Devices, c: Command, o: Outcome)
    requires Opens(m, c, o) && !Closes(m, c, o)
    ensures !m.avFlag
  {
  }

  /** Over any command sequence, whatever fails: the recordings started are, in order, those that ended followed
      by the one running; the reports are, in order, those of the ended recordings whose loudness could be read
      and sent. */
  lemma {:induction false} RecordingsAccounted(commands: seq<(Command, Outcome)>)
    ensures Accounted(RunCommands(commands))
  {
    if commands == [] {
      assert Names([]) == [];
    } else {
      var n := |commands| - 1;
      RecordingsAccounted(commands[..n]);
      HandleAccounted(RunCommands(commands[..n]), commands[n].0, commands[n].1);
    }
  }

  lemma {:induction false} AllReported(endings: seq<Ending>)
    requires forall k :: 0 <= k < |endings| ==> endings[k].reported
    ensures Reported(endings) == Names(endings)
  {
    if endings != [] {
      var n := |endings| - 1;
      AllReported(endings[..n]);
      assert Names(endings) == Names(endings[..n]) + [endings[n].name];
    } else {
      assert Names(endings) == [];
    }
  }

  lemma {:induction false} EndingsReported(commands: seq<(Command, Outcome)>)
    requires forall k :: 0 <= k < |commands| ==> commands[k].1.loudness && commands[k].1.reply
    ensures forall k :: 0 <= k < |RunCommands(commands).endings| ==> RunCommands(commands).endings[k].reported
  {
    if commands == [] {
    } else {
      EndingsReported(commands[..|commands| - 1]);
    }
  }

  /** When loudness can always be read and sent, the reports followed by the running recording are exactly the
      recordings started. */
  lemma RepliesNameRecordings(commands: seq<(Command, Outcome)>)
    requires forall k :: 0 <= k < |commands| ==> commands[k].1.loudness && commands[k].1.reply
    ensures var m := RunCommands(commands); m.replies + Running(m.devices) == m.begun
  {
    RecordingsAccounted(commands);
    EndingsReported(commands);
    AllReported(RunCommands(commands).endings);
  }

  // ----- what the commands bring about ---------------------------------------------------------------------------

  lemma {:induction false} WordOf(s: string, t: string)
    requires (forall k :: 0 <= k < |s| ==> s[k] != ' ') && (t == [] || t[0] == ' ')
    ensures Word(s + t) == s && Behind(s + t) == t
  {
    if s == [] {
      assert s + t == t;
    } else {
      assert (s + t)[1..] == s[1..] + t;
      WordOf(s[1..], t);
      assert [s[0]] + s[1..] == s;
    }
  }

  lemma NumbersHaveNoBlanks(n: int)
    ensures IntToString(n) != "" && forall k :: 0 <= k < |IntToString(n)| ==> IntToString(n)[k] != ' '
  {
    var digits := NatToString(if n < 0 then -n else n);
    assert AllDigits(digits);
    assert forall k :: 0 <= k < |digits| ==> IsDigit(digits[k]);
  }

  /** The argument the controller prints for an address and a port is read back as that address and port. */
  lemma TargetIsReadBack(ip: string, port: int)
    requires ip != "" && (forall k :: 0 <= k < |ip| ==> ip[k] != ' ') && -INT_MAX - 1 <= port <= INT_MAX
    ensures StreamTarget(ip + " " + IntToString(port)) == Some(Target(ip, port))
  {
    var number := IntToString(port);
    NumbersHaveNoBlanks(port);
    Associative(ip, " ", number);
    WordOf(ip, " " + number);
    assert (" " + number)[1..] == number && number + [] == number;
    assert SkipBlanks(number) == number && SkipBlanks(" " + number) == number;
    WordOf(number, []);
    IntRoundTrip(port);
    assert (ip + (" " + number))[0] == ip[0];
  }

  /** The part of the devices a command is about. */
  datatype Part = LogPart | StreamPart | AudioPart | AvPart | NoPart

  function PartOf(c: Command): Part
  {
    match c
    case LoudnessLogStart(_) => LogPart
    case LoudnessLogEnd => LogPart
    case AvStreamStart(_) => StreamPart
    case AvStreamEnd => StreamPart
    case AudioRecordStart(_) => AudioPart
    case AudioRecordEnd => AudioPart
    case AvRecordStart(_) => AvPart
    case AvRecordEnd => AvPart
    case AnalyzerReset => NoPart
    case ProgramEnd => NoPart
  }

  /** What the command is for: the start of a device opens it under its name, the end closes it. */
  predicate InForce(m: Devices, c: Command)
  {
    match c
    case LoudnessLogStart(arg) => if arg == "" then !m.logFlag else m.logFlag && m.logName == arg
    case LoudnessLogEnd => !m.logFlag
    case AvStreamStart(arg) =>
      if StreamTarget(arg).None? then !m.streamFlag else m.streamFlag && m.streamTarget == StreamTarget(arg).value
    case AvStreamEnd => !m.streamFlag
    case AudioRecordStart(arg) => if arg == "" then !m.audioFlag else m.audioFlag && m.audioName == arg
    case AudioRecordEnd => !m.audioFlag
    case AvRecordStart(arg) => if arg == "" then !m.avFlag else m.avFlag && m.avName == arg
    case AvRecordEnd => !m.avFlag
    case AnalyzerReset => true
    case ProgramEnd => m.ended
  }

  /** A start that cannot be carried out: while the old device cannot be closed everything stays; otherwise the device is
      open exactly if everything the start needs succeeded. */
  lemma FailedStart(m: Devices, arg: string, o: Outcome)
    requires !m.ended && arg != ""
    ensures var r := HandleDevices(m, LoudnessLogStart(arg), o);
            if m.logFlag && !o.lockOld then r == m
            else (r.logFlag <==> o.open && o.lockNew && o.init) && r == m.(logFlag := r.logFlag, logName := arg)
    ensures var r := HandleDevices(m, AudioRecordStart(arg), o);
            if m.audioFlag && !o.lockOld then r == m
            else (r.audioFlag <==> o.lockNew && o.init) && r == m.(audioFlag := r.audioFlag, audioName := arg)
    ensures var r := HandleDevices(m, AvRecordStart(arg), o);
            if m.avFlag && !o.lockOld then r == m
            else (r.avFlag <==> o.open && o.lockNew && o.init) && r == m.(avFlag := r.avFlag, avName := arg)
    ensures var r := HandleDevices(m, AvStreamStart(arg), o);
            && (r.streamFlag <==> StreamTarget(arg).Some? && o.init)
            && r == m.(streamFlag := r.streamFlag, streamTarget := r.streamTarget)
  {
    hide StreamTarget;
  }

  lemma HandleEnds(m: Machine, c: Command, o: Outcome)
    ensures Handle(m, c, o).devices.ended <==> m.devices.ended || c.ProgramEnd?
  {
    hide StreamTarget;
  }

  /** Only the command to end ends the program. */
  lemma {:induction false} NotEndedUntold(commands: seq<(Command, Outcome)>)
    requires forall k :: 0 <= k < |commands| ==> !commands[k].0.ProgramEnd?
    ensures !RunCommands(commands).devices.ended
  {
    hide Handle;
    if commands == [] {
    } else {
      var n := |commands| - 1;
      NotEndedUntold(commands[..n]);
      HandleEnds(RunCommands(commands[..n]), commands[n].0, commands[n].1);
    }
  }

  /** Over any commands: the last one about a device that could be carried out decides whether the device is open and
      under which name, or where a stream goes; commands about other devices, and whatever fails in them, do not. */
  lemma {:induction false} LastDecides(before: seq<(Command, Outcome)>, c: Command, o: Outcome,
                                       after: seq<(Command, Outcome)>)
    requires Succeeds(o) && PartOf(c) != NoPart
    requires forall k :: 0 <= k < |before| ==> !before[k].0.ProgramEnd?
    requires forall k :: 0 <= k < |after| ==> PartOf(after[k].0) != PartOf(c)
    ensures InForce(RunCommands(before + [(c, o)] + after).devices, c)
    decreases |after|
  {
    var commands := before + [(c, o)] + after;
    var n := |commands| - 1;
    if after == [] {
      assert commands[..n] == before && commands[n] == (c, o);
      NotEndedUntold(before);
    } else {
      var m := |after| - 1;
      assert commands[..n] == before + [(c, o)] + after[..m] && commands[n] == after[m];
      LastDecides(before, c, o, after[..m]);
      OthersStayInForce(RunCommands(commands[..n]).devices, c, after[m].0, after[m].1);
    }
  }

  lemma OthersStayInForce(m: Devices, c: Command, d: Command, o: Outcome)
    requires InForce(m, c) && PartOf(c) != NoPart && PartOf(d) != PartOf(c)
    ensures InForce(HandleDevices(m, d, o), c)
  {
    hide StreamTarget;
  }

  // ----- the switch as an object --------------------------------------------------------------------------------

  class MonitorMain {
    var logFlag: bool
    var logName: string
    var streamFlag: bool
    var streamTarget: Target
    var audioFlag: bool
    var audioName: string
    var avFlag: bool
    var avName: string
    var programEnd: bool
    ghost var begun: seq<string>
    ghost var endings: seq<Ending>
    var replies: seq<string>

    ghost function Value(): Machine
      reads this
    {
      Machine(Devices(logFlag, logName, streamFlag, streamTarget, audioFlag, audioName, avFlag, avName, programEnd),
              begun, endings, replies)
    }

    constructor ()
      ensures Value() == FRESH
    {
      logFlag, logName, streamFlag, streamTarget := false, "", false, NO_TARGET;
      audioFlag, audioName, avFlag, avName, programEnd := false, "", false, "", false;
      begun, endings, replies := [], [], [];
    }

    /** Closing the running recording, under its mutex. */
    method CloseAvRecord(o: Outcome)
      requires avFlag
      modifies this`avFlag, this`endings, this`replies
      ensures var reported := o.loudness && o.reply;
              !avFlag && endings == old(endings) + [Ending(avName, reported)]
              && replies == if reported then old(replies) + [avName] else old(replies)
    {
      if o.loudness && o.reply {
        replies := replies + [avName];
      }
      endings := endings + [Ending(avName, o.loudness && o.reply)];
      avFlag := false;
    }

    method StartAvRecord(arg: string, o: Outcome)
      requires !programEnd
      modifies this
      ensures Value() == Handle(old(Value()), AvRecordStart(arg), o)
    {
      if avFlag {
        if !o.lockOld {
          return;
        }
        CloseAvRecord(o);
      }
      if |arg| == 0 {
        return;
      }
      avName := arg;
      if o.open && o.lockNew && o.init {
        avFlag := true;
        begun := begun + [arg];
      }
    }

    method StartLoudnessLog(arg: string, o: Outcome)
      requires !programEnd
      modifies this
      ensures Value() == Handle(old(Value()), LoudnessLogStart(arg), o)
    {
      if logFlag {
        if !o.lockOld {
          return;
        }
        logFlag := false;
      }
      if |arg| == 0 {
        return;
      }
      logName := arg;
      if o.open && o.lockNew && o.init {
        logFlag := true;
      }
    }

    method StartAudioRecord(arg: string, o: Outcome)
      requires !programEnd
      modifies this
      ensures Value() == Handle(old(Value()), AudioRecordStart(arg), o)
    {
      if audioFlag {
        if !o.lockOld {
          return;
        }
        audioFlag := false;
      }
      if |arg| == 0 {
        return;
      }
      audioName := arg;
      if o.lockNew && o.init {
        audioFlag := true;
      }
    }

    method StartAvStream(arg: string, o: Outcome)
      requires !programEnd
      modifies this
      ensures Value() == Handle(old(Value()), AvStreamStart(arg), o)
    {
      streamFlag := false;
      var target := StreamTarget(arg);
      if target.None? {
        return;
      }
      streamTarget := target.value;
      if o.init {
        streamFlag := true;
      }
    }

    method EndLoudnessLog(o: Outcome)
      requires !programEnd
      modifies this`logFlag
      ensures Value() == Handle(old(Value()), LoudnessLogEnd, o)
    {
      if logFlag && o.lockOld {
        logFlag := false;
      }
    }

    method EndAudioRecord(o: Outcome)
      requires !programEnd
      modifies this`audioFlag
      ensures Value() == Handle(old(Value()), AudioRecordEnd, o)
    {
      if audioFlag && o.lockOld {
        audioFlag := false;
      }
    }

    method EndAvRecord(o: Outcome)
      requires !programEnd
      modifies this
      ensures Value() == Handle(old(Value()), AvRecordEnd, o)
    {
      if avFlag && o.lockOld {
        CloseAvRecord(o);
      }
    }

    /** One received command. */
    method Receive(c: Command, o: Outcome)
      modifies this
      ensures Value() == Handle(old(Value()), c, o)
    {
      if programEnd {
        return;
      }
      match c
      case LoudnessLogStart(arg) => StartLoudnessLog(arg, o);
      case LoudnessLogEnd => EndLoudnessLog(o);
      case AvStreamStart(arg) => StartAvStream(arg, o);
      case AvStreamEnd => if streamFlag { streamFlag := false; }
      case AudioRecordStart(arg) => StartAudioRecord(arg, o);
      case AudioRecordEnd => EndAudioRecord(o);
      case AvRecordStart(arg) => StartAvRecord(arg, o);
      case AvRecordEnd => EndAvRecord(o);
      case AnalyzerReset =>
      case ProgramEnd => programEnd := true;
    }
  }
}
