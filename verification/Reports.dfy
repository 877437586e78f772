/** The report of a recording's loudness on its way from the monitor (monitor/main.c), which prints it, to the controller
    (controller/main.c), which reads it and looks for the recording's row. */
module Reports {
  import opened FileNames
  import opened Monitor
  import opened Sequences
  import opened Text
  import opened Wrappers

  /** `"%s %2.1f"`, in the argument of a message. */
  function Report(file: string, loudness: real): string
  {
    Truncate(file + " " + FormatTenths(loudness), IPC_MESSAGE_LENGTH - 1)
  }

  predicate NoSlash(s: string) { forall k :: 0 <= k < |s| ==> s[k] != '/' }

  predicate NoBlank(s: string) { forall k :: 0 <= k < |s| ==> s[k] != ' ' }

  /** What is behind the last slash. */
  function LastPart(s: string): string
  {
    if NoSlash(s) then s else LastPart(s[1..])
  }

  function WithoutSlashes(s: string): string
  {
    if s != "" && s[|s| - 1] == '/' then WithoutSlashes(s[..|s| - 1]) else s
  }

  /** `basename` of libgen.h: slashes at the end do not count. */
  function Basename(s: string): string
  {
    if s == "" then "." else if WithoutSlashes(s) == "" then "/" else LastPart(WithoutSlashes(s))
  }

  /** The first word's file name and the number in the second, if both are there. */
  function ReadReport(arg: string): Option<(string, real)>
  {
    var file, rest := Word(SkipBlanks(arg)), Behind(SkipBlanks(arg));
    var number := Word(SkipBlanks(rest));
    if file == "" || number == "" then None else Some((Basename(file), Strtod(number)))
  }

  lemma {:induction false} LastPartOf(path: string, name: string)
    requires NoSlash(name)
    ensures LastPart(path + "/" + name) == name
  {
    var s := path + "/" + name;
    assert s[|path|] == '/';
    if path == "" {
      assert s[1..] == name;
    } else {
      assert s[1..] == path[1..] + "/" + name;
      LastPartOf(path[1..], name);
    }
  }

  lemma BasenameOf(path: string, name: string)
    requires NoSlash(name) && name != ""
    ensures Basename(path + "/" + name) == name
  {
    var s := path + "/" + name;
    assert s[|s| - 1] == name[|name| - 1];
    LastPartOf(path, name);
  }

  lemma TenthsHaveNoBlanks(x: real)
    ensures FormatTenths(x) != "" && NoBlank(FormatTenths(x))
  {
    var t := RoundHalfEven(Abs(x) * 10.0);
    assert AllDigits(NatToString(t / 10)) && IsDigit(Digit(t % 10));
  }

  lemma TwoWords(file: string, number: string)
    requires file != "" && number != "" && NoBlank(file) && NoBlank(number)
    ensures var arg := file + " " + number;
            && Word(SkipBlanks(arg)) == file && Behind(SkipBlanks(arg)) == " " + number
            && Word(SkipBlanks(" " + number)) == number
  {
    Associative(file, " ", number);
    assert (file + (" " + number))[0] == file[0];
    WordOf(file, " " + number);
    assert (" " + number)[1..] == number && number + [] == number && SkipBlanks(number) == number;
    WordOf(number, []);
  }

  /** A report that fits its message, on a recording in a directory without blanks, is read as the recording's name and its
      loudness in tenths. */
  lemma ReportIsRead(path: string, name: string, loudness: real)
    requires name != "" && NoSlash(name) && NoBlank(path + "/" + name)
    requires |path| + 1 + |name| + 1 + |FormatTenths(loudness)| < IPC_MESSAGE_LENGTH
    ensures ReadReport(Report(path + "/" + name, loudness)) == Some((name, NearestTenth(loudness)))
  {
    hide NoBlank, NoSlash, Word, Behind, SkipBlanks, FormatTenths, Strtod, NearestTenth;
    TenthsHaveNoBlanks(loudness);
    TwoWords(path + "/" + name, FormatTenths(loudness));
    BasenameOf(path, name);
    DecimalRoundTrip(loudness);
  }

  /** A file name of 126 characters or more leaves no room for the number: the report is not read at all. */
  lemma LongNameHidesReport(file: string, loudness: real)
    requires NoBlank(file) && IPC_MESSAGE_LENGTH - 2 <= |file|
    ensures ReadReport(Report(file, loudness)) == None
  {
    var arg := Report(file, loudness);
    if |file| == IPC_MESSAGE_LENGTH - 2 {
      assert arg == file + " ";
      WordOf(file, " ");
      assert " "[1..] == [] && SkipBlanks(" ") == [];
    } else {
      assert arg == file[..IPC_MESSAGE_LENGTH - 1];
      WordOf(arg, []);
      assert arg + [] == arg;
    }
  }

  /** The name of a file with a blank is cut there, so the report is taken for another file's. */
  lemma BlankCutsName(front: string, back: string, loudness: real)
    requires NoBlank(front) && front != "" && |front| < IPC_MESSAGE_LENGTH - 1
    ensures var r := ReadReport(Report(front + " " + back, loudness)); r.Some? ==> r.value.0 == Basename(front)
  {
    hide Strtod, FormatTenths, Basename, NoBlank;
    var behind, room := " " + back + " " + FormatTenths(loudness), IPC_MESSAGE_LENGTH - 1;
    var tail := Truncate(behind, room - |front|);
    assert front + " " + back + " " + FormatTenths(loudness) == front + behind;
    TruncateBehind(front, behind, room);
    FirstWord(front, tail);
  }

  lemma FirstWord(front: string, tail: string)
    requires NoBlank(front) && front != "" && tail != "" && tail[0] == ' '
    ensures Word(SkipBlanks(front + tail)) == front
  {
    assert (front + tail)[0] == front[0];
    WordOf(front, tail);
  }
}
