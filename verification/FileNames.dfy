/** File names of recordings and logs (controller/main.c): the in-place cleaner and the names built with it. */
module FileNames {
  import opened Sequences
  import opened Text

  const NUL: char := '\0'

  predicate Forbidden(c: char)
  {
    c == '\\' || c == '/' || c == ':' || c == '*' || c == '?' || c == '\"' || c == '<' || c == '>' || c == '|'
    || c == '-' || c == ' '
  }

  predicate Permitted(c: char) { !Forbidden(c) }

  /** The C string at the front of a buffer. */
  function CString(s: string): (t: string)
  {
    if s == [] || s[0] == NUL then [] else [s[0]] + CString(s[1..])
  }

  /** What the cleaner makes of a text: a forbidden character is dropped, and the character behind it is
      kept unseen, whatever it is. */
  function Clean(s: string): (t: string)
    ensures |t| <= |s|
  {
    if s == [] then []
    else if Permitted(s[0]) then [s[0]] + Clean(s[1..])
    else if |s| == 1 then []
    else [s[1]] + Clean(s[2..])
  }

  function OnlyPermitted(s: string): (t: string)
  {
    if s == [] then [] else (if Permitted(s[0]) then [s[0]] else []) + OnlyPermitted(s[1..])
  }

  predicate NoForbidden(s: string) { forall k :: 0 <= k < |s| ==> Permitted(s[k]) }

  predicate AllForbidden(s: string) { forall k :: 0 <= k < |s| ==> Forbidden(s[k]) }

  predicate NoAdjacentForbidden(s: string)
  {
    forall k :: 0 <= k < |s| - 1 ==> Permitted(s[k]) || Permitted(s[k + 1])
  }

  /** The characters at the odd positions. */
  function Odds(s: string): (t: string)
    ensures |t| == |s| / 2
  {
    if |s| < 2 then [] else [s[1]] + Odds(s[2..])
  }

  // ----- what cleaning means ---------------------------------------------------------------------------

  /** Every permitted character survives, in order. */
  lemma {:induction false} CleanKeepsPermitted(s: string)
    ensures OnlyPermitted(Clean(s)) == OnlyPermitted(s)
  {
    if s == [] {
    } else if Permitted(s[0]) {
      CleanKeepsPermitted(s[1..]);
      assert Clean(s)[1..] == Clean(s[1..]);
    } else if |s| == 1 {
      assert s[1..] == [];
    } else {
      CleanKeepsPermitted(s[2..]);
      assert Clean(s)[1..] == Clean(s[2..]) && s[1..][1..] == s[2..] && s[1..][0] == s[1];
    }
  }

  /** Of a maximal run of k forbidden characters floor(k / 2) stay: the second, the fourth, and so on. */
  lemma {:induction false} CleanRun(run: string, t: string)
    requires AllForbidden(run) && (t == [] || Permitted(t[0]))
    ensures Clean(run + t) == Odds(run) + Clean(t)
    decreases |run|
  {
    var s := run + t;
    if run == [] {
      assert s == t;
    } else if |run| == 1 {
      assert s[0] == run[0];
      if t != [] {
        assert s[1] == t[0] && s[2..] == t[1..];
      }
    } else {
      CleanRun(run[2..], t);
      assert s[0] == run[0] && s[1] == run[1] && s[2..] == run[2..] + t;
      Associative([run[1]], Odds(run[2..]), Clean(t));
    }
  }

  /** Text that ends in a permitted character is cleaned by itself, whatever follows. */
  lemma {:induction false} CleanSplit(s: string, t: string)
    requires s == [] || Permitted(s[|s| - 1])
    ensures Clean(s + t) == Clean(s) + Clean(t)
    decreases |s|
  {
    var all := s + t;
    if s == [] {
      assert all == t;
    } else if Permitted(s[0]) {
      CleanSplit(s[1..], t);
      assert all[1..] == s[1..] + t;
      Associative([s[0]], Clean(s[1..]), Clean(t));
    } else {
      CleanSplit(s[2..], t);
      assert all[2..] == s[2..] + t && all[1] == s[1];
      Associative([s[1]], Clean(s[2..]), Clean(t));
    }
  }

  lemma {:induction false} OnlyPermittedIsPermitted(s: string)
    ensures NoForbidden(OnlyPermitted(s))
  {
    if s == [] {
    } else {
      OnlyPermittedIsPermitted(s[1..]);
    }
  }

  lemma {:induction false} NoForbiddenIsKept(s: string)
    requires NoForbidden(s)
    ensures OnlyPermitted(s) == s
  {
    if s == [] {
    } else {
      NoForbiddenIsKept(s[1..]);
    }
  }

  /** The promise of the function's name holds exactly for text without adjacent forbidden characters. */
  lemma {:induction false} CleanIsFilterIff(s: string)
    ensures Clean(s) == OnlyPermitted(s) <==> NoAdjacentForbidden(s)
    ensures NoForbidden(Clean(s)) <==> NoAdjacentForbidden(s)
  {
    CleanNoForbiddenIff(s);
    CleanKeepsPermitted(s);
    OnlyPermittedIsPermitted(s);
    if NoForbidden(Clean(s)) {
      NoForbiddenIsKept(Clean(s));
    }
  }

  /** A text on which it fails: of two adjacent forbidden characters the second stays. */
  lemma AdjacentForbiddenStays()
    ensures Clean("a::b") == "a:b" && OnlyPermitted("a::b") == "ab" && !NoAdjacentForbidden("a::b")
  {
    assert "a::b"[1..] == "::b" && "::b"[2..] == "b" && "b"[1..] == "" && "::b"[1..] == ":b" && ":b"[1..] == "b";
    assert Clean("::b") == ":" + Clean("b") && Clean("b") == "b";
    assert OnlyPermitted("b") == "b" && OnlyPermitted(":b") == "b" && OnlyPermitted("::b") == "b";
    assert Forbidden("a::b"[1]) && Forbidden("a::b"[2]);
  }

  lemma {:induction false} CleanNoForbiddenIff(s: string)
    ensures NoForbidden(Clean(s)) <==> NoAdjacentForbidden(s)
  {
    if |s| < 2 {
      if s != [] && Permitted(s[0]) { assert s[1..] == []; }
    } else if Permitted(s[0]) {
      CleanNoForbiddenIff(s[1..]);
      ConsPermitted(s[0], Clean(s[1..]));
      assert NoAdjacentForbidden(s) <==> NoAdjacentForbidden(s[1..]) by { AdjacentTail(s); }
    } else {
      CleanNoForbiddenIff(s[2..]);
      ConsPermitted(s[1], Clean(s[2..]));
      assert NoAdjacentForbidden(s) <==> Permitted(s[1]) && NoAdjacentForbidden(s[2..]) by {
        AdjacentTail(s);
        AdjacentTail(s[1..]);
        assert s[1..][1..] == s[2..];
      }
    }
  }

  lemma ConsPermitted(c: char, s: string)
    ensures NoForbidden([c] + s) <==> Permitted(c) && NoForbidden(s)
  {
    assert forall k :: 0 <= k < |s| ==> ([c] + s)[k + 1] == s[k];
    assert ([c] + s)[0] == c;
  }

  lemma AdjacentTail(s: string)
    requires s != []
    ensures NoAdjacentForbidden(s)
            <==> (|s| < 2 || Permitted(s[0]) || Permitted(s[1])) && NoAdjacentForbidden(s[1..])
  {
    var t := s[1..];
    assert forall k :: 0 <= k < |t| ==> t[k] == s[k + 1];
    if (|s| < 2 || Permitted(s[0]) || Permitted(s[1])) && NoAdjacentForbidden(t) {
      forall k | 0 <= k < |s| - 1 ensures Permitted(s[k]) || Permitted(s[k + 1]) {
        if k > 0 { assert t[k - 1] == s[k] && t[k] == s[k + 1]; }
      }
    }
  }

  // ----- the loop over the buffer ------------------------------------------------------------------------

  /** The inner loop: everything behind position `i` moves down by one; the last cell keeps its value. */
  function Shift(s: string, i: nat): (t: string)
    requires i < |s|
    ensures |t| == |s|
  {
    s[..i] + s[i + 1..] + [s[|s| - 1]]
  }

  /** The outer loop from position `i` on. */
  function CleanFrom(s: string, i: nat): (t: string)
    requires i <= |s|
    ensures |t| == |s|
    decreases |s| - i
  {
    if i == |s| then s else CleanFrom(if Forbidden(s[i]) then Shift(s, i) else s, i + 1)
  }

  lemma {:induction false} CleanFromKeepsFront(s: string, i: nat)
    requires i <= |s|
    ensures CleanFrom(s, i)[..i] == s[..i]
    decreases |s| - i
  {
    if i == |s| {
    } else {
      var t := if Forbidden(s[i]) then Shift(s, i) else s;
      CleanFromKeepsFront(t, i + 1);
      assert CleanFrom(s, i)[..i] == CleanFrom(t, i + 1)[..i + 1][..i] == t[..i] == s[..i];
    }
  }

  lemma {:induction false} CStringAt(s: string, n: nat)
    requires n < |s| && s[n] == NUL && NUL !in s[..n]
    ensures CString(s) == s[..n]
    decreases n
  {
    if n > 0 {
      assert s[..n][0] == s[0];
      assert s[..n] == [s[0]] + s[1..][..n - 1];
      CStringAt(s[1..], n - 1);
    }
  }

  /** The loop past the end of the string leaves the string alone. */
  lemma CleanFromPastEnd(s: string, i: nat, n: nat)
    requires n <= i <= |s| && n < |s| && s[n] == NUL && NUL !in s[..n]
    ensures CString(CleanFrom(s, i)) == s[..n] && NUL in CleanFrom(s, i)
  {
    var t := CleanFrom(s, i);
    CleanFromKeepsFront(s, i);
    if i == n {
      CleanFromKeepsNul(s, i);
    } else {
      assert t[n] == t[..i][n] == s[..i][n];
    }
    assert t[..n] == t[..i][..n] == s[..i][..n] == s[..n];
    CStringAt(t, n);
  }

  /** With the string still to be cleaned ending at `n`, the loop cleans s[i..n] and leaves a string. */
  lemma {:induction false} CleanFromCleans(s: string, i: nat, n: nat)
    requires i <= n < |s| && s[n] == NUL && NUL !in s[..n]
    ensures CString(CleanFrom(s, i)) == s[..i] + Clean(s[i..n]) && NUL in CleanFrom(s, i)
    decreases |s| - i
  {
    if i == n {
      CleanFromPastEnd(s, i, n);
      assert s[..i] + [] == s[..n];
    } else if Permitted(s[i]) {
      CleanFromCleans(s, i + 1, n);
      KeptAt(s, i, n);
    } else {
      ShiftString(s, i, n);
      if i + 1 == n {
        CleanFromPastEnd(Shift(s, i), i + 1, i);
        assert s[..i] + [] == s[..i];
      } else {
        CleanFromCleans(Shift(s, i), i + 1, n - 1);
        DroppedAt(s, i, n);
      }
    }
  }

  lemma KeptAt(s: string, i: nat, n: nat)
    requires i < n <= |s| && Permitted(s[i])
    ensures s[..i + 1] + Clean(s[i + 1..n]) == s[..i] + Clean(s[i..n])
  {
    assert s[..i + 1] == s[..i] + [s[i]] && s[i..n][1..] == s[i + 1..n];
    Associative(s[..i], [s[i]], Clean(s[i + 1..n]));
  }

  lemma DroppedAt(s: string, i: nat, n: nat)
    requires i + 1 < n <= |s| && Forbidden(s[i])
    ensures s[..i] + [s[i + 1]] + Clean(s[i + 2..n]) == s[..i] + Clean(s[i..n])
  {
    assert s[i..n][2..] == s[i + 2..n];
    Associative(s[..i], [s[i + 1]], Clean(s[i + 2..n]));
  }

  lemma ShiftString(s: string, i: nat, n: nat)
    requires i < n < |s| && s[n] == NUL && NUL !in s[..n]
    ensures var t := Shift(s, i);
            && t[n - 1] == NUL && NUL !in t[..n - 1]
            && t[..i] == s[..i]
            && (i + 1 < n ==> t[..i + 1] == s[..i] + [s[i + 1]] && t[i + 1..n - 1] == s[i + 2..n])
  {
    var t := Shift(s, i);
    assert t[..n - 1] == s[..i] + s[i + 1..n];
    assert forall k :: i + 1 <= k < n ==> s[k] == s[..n][k];
  }

  lemma CleanFromKeepsNul(s: string, i: nat)
    requires i < |s| && s[i] == NUL
    ensures CleanFrom(s, i)[i] == NUL
  {
    CleanFromKeepsFront(s, i + 1);
    var t := CleanFrom(s, i + 1);
    assert t[i] == t[..i + 1][i] == s[..i + 1][i];
  }

  lemma {:induction false} FindNul(s: string) returns (n: nat)
    requires NUL in s
    ensures n < |s| && s[n] == NUL && NUL !in s[..n]
  {
    n := 0;
    while s[n] != NUL
      invariant n < |s| && NUL !in s[..n] && NUL in s[n..]
      decreases |s| - n
    {
      assert s[n..] == [s[n]] + s[n + 1..] && s[..n + 1] == s[..n] + [s[n]];
      n := n + 1;
    }
  }

  /** On a buffer that holds a C string the cleaner leaves the C string that `Clean` describes. */
  lemma CleanBuffer(s: string)
    requires NUL in s
    ensures CString(CleanFrom(s, 0)) == Clean(CString(s)) && NUL in CleanFrom(s, 0)
  {
    var n := FindNul(s);
    CStringAt(s, n);
    CleanFromCleans(s, 0, n);
    assert s[0..n] == s[..n] && s[..0] + Clean(s[..n]) == Clean(s[..n]);
  }

  /** `remove_non_filename_character`. */
  method RemoveNonFilenameCharacter(str: array<char>)
    requires NUL in str[..]
    modifies str
    ensures str[..] == CleanFrom(old(str[..]), 0)
    ensures CString(str[..]) == Clean(CString(old(str[..]))) && NUL in str[..]
  {
    CleanBuffer(str[..]);
    for i := 0 to str.Length
      invariant CleanFrom(str[..], i) == CleanFrom(old(str[..]), 0)
    {
      if Forbidden(str[i]) {
        ShiftDown(str, i);
      }
    }
  }

  /** The inner loop: everything behind `i` moves one place down. */
  method ShiftDown(str: array<char>, i: nat)
    requires i < str.Length
    modifies str
    ensures str[..] == Shift(old(str[..]), i)
  {
    for j := i + 1 to str.Length
      invariant forall k :: 0 <= k < i ==> str[k] == old(str[k])
      invariant forall k :: i <= k < j - 1 ==> str[k] == old(str[k + 1])
      invariant forall k :: j - 1 <= k < str.Length ==> str[k] == old(str[k])
    {
      str[j - 1] := str[j];
    }
  }

  // ----- names of recordings and logs ----------------------------------------------------------------------

  /** The time stamp format YYYY-MM-DD HH:MM:SS. */
  predicate IsStamp(s: string)
  {
    && |s| == 19
    && s[4] == '-' && s[7] == '-' && s[10] == ' ' && s[13] == ':' && s[16] == ':'
    && forall k :: 0 <= k < 19 && k != 4 && k != 7 && k != 10 && k != 13 && k != 16 ==> IsDigit(s[k])
  }

  const IPC_MESSAGE_LENGTH: nat := 128

  function Truncate(s: string, n: nat): string { if n < |s| then s[..n] else s }

  /** The name behind `path/` in the argument of a start command: printed into what is left of the argument,
      then cleaned. */
  function RecordName(path: string, stamp: string, index: nat, channel: int, channelName: string, suffix: string)
    : (name: string)
    requires |path| + 2 <= IPC_MESSAGE_LENGTH
  {
    var text := stamp + "_" + IntToString(index) + "_" + IntToString(channel) + "_" + channelName + suffix;
    Clean(Truncate(text, IPC_MESSAGE_LENGTH - 2 - |path|))
  }

  /** With a longer directory a name does not tell its card. */
  const LONGEST_PATH: nat := 105

  /** The card a name belongs to, read off the name. */
  function CardOf(name: string): int
  {
    if |name| < 16 || !IsDigit(name[15]) then -1 else DigitValue(name[15])
  }

  lemma {:induction false} CleanDigits(s: string)
    requires AllDigits(s)
    ensures Clean(s) == s
  {
    if s == [] {
    } else {
      CleanDigits(s[1..]);
    }
  }

  /** A separator with the two digits behind it loses the separator. */
  lemma CleanField(s: string, i: nat)
    requires i + 3 < |s| && Forbidden(s[i]) && IsDigit(s[i + 1]) && IsDigit(s[i + 2])
    ensures |Clean(s[i..])| == 2 + |Clean(s[i + 3..])|
  {
    var t := s[i..];
    assert t[1] == s[i + 1] && t[2..] == s[i + 2..];
    assert t[2..][0] == s[i + 2] && t[2..][1..] == s[i + 3..];
  }

  lemma CleanStamp(stamp: string)
    requires IsStamp(stamp)
    ensures |Clean(stamp + "_")| == 15
  {
    var s := stamp + "_";
    var year, rest := s[..4], s[4..];
    assert s == year + rest;
    CleanSplit(year, rest);
    CleanDigits(year);
    CleanFields(s);
  }

  lemma CleanFields(s: string)
    requires |s| == 20 && s[19] == '_' && IsStamp(s[..19])
    ensures |Clean(s[4..])| == 11
  {
    assert forall k :: 0 <= k < 19 ==> s[k] == s[..19][k];
    CleanField(s, 4);
    CleanField(s, 7);
    CleanField(s, 10);
    CleanField(s, 13);
    CleanField(s, 16);
    CleanOne(s[19..]);
  }

  lemma CleanOne(s: string)
    requires |s| == 1 && Permitted(s[0])
    ensures |Clean(s)| == 1
  {
    assert s[1..] == [];
  }

  lemma FirstOfName(path: string, stamp: string, index: nat, channel: int, channelName: string, suffix: string)
    requires |path| + 2 < IPC_MESSAGE_LENGTH && IsStamp(stamp)
    ensures RecordName(path, stamp, index, channel, channelName, suffix) != ""
  {
    var text := stamp + "_" + IntToString(index) + "_" + IntToString(channel) + "_" + channelName + suffix;
    assert text[0] == stamp[0] && IsDigit(stamp[0]);
    CleanFirst(Truncate(text, IPC_MESSAGE_LENGTH - 2 - |path|));
  }

  /** A name is empty exactly when the directory fills the argument. */
  lemma NameEmptyIff(path: string, stamp: string, index: nat, channel: int, channelName: string, suffix: string)
    requires |path| + 2 <= IPC_MESSAGE_LENGTH && IsStamp(stamp)
    ensures RecordName(path, stamp, index, channel, channelName, suffix) == "" <==> |path| + 2 == IPC_MESSAGE_LENGTH
  {
    if |path| + 2 < IPC_MESSAGE_LENGTH {
      FirstOfName(path, stamp, index, channel, channelName, suffix);
    }
  }

  /** Names of different cards differ: with room for it, the sixteenth character of a name is the card's index
      (there are at most `IPC_SOCKET_COUNT` = 5 cards). */
  lemma RecordNameNamesCard(path: string, stamp: string, index: nat, channel: int, channelName: string, suffix: string)
    requires |path| <= LONGEST_PATH && IsStamp(stamp) && index < 5
    ensures var name := RecordName(path, stamp, index, channel, channelName, suffix);
            name != "" && CardOf(name) == index
  {
    var front, digit := stamp + "_", [Digit(index)];
    assert IntToString(index) == digit;
    var tail := "_" + IntToString(channel) + "_" + channelName + suffix;
    NameText(stamp, digit, IntToString(channel), channelName, suffix);
    var cut := IPC_MESSAGE_LENGTH - 2 - |path|;
    var back := Truncate(digit + tail, cut - 20);
    TruncateBehind(front, digit + tail, cut);
    CleanStamp(stamp);
    CleanSplit(front, back);
    CleanFirst(back);
    assert (Clean(front) + Clean(back))[15] == Digit(index);
  }

  /** In a longer directory two cards that start at the same time get the same name. */
  lemma LongPathHidesCard(path: string, stamp: string, i: nat, j: nat, channel: int, channel': int, channelName: string,
                          channelName': string, suffix: string)
    requires LONGEST_PATH < |path| && |path| + 2 <= IPC_MESSAGE_LENGTH && IsStamp(stamp)
    ensures RecordName(path, stamp, i, channel, channelName, suffix)
            == RecordName(path, stamp, j, channel', channelName', suffix)
  {
    var room := IPC_MESSAGE_LENGTH - 2 - |path|;
    NameText(stamp, IntToString(i), IntToString(channel), channelName, suffix);
    NameText(stamp, IntToString(j), IntToString(channel'), channelName', suffix);
    OnlyFront(stamp + "_", IntToString(i) + ("_" + IntToString(channel) + "_" + channelName + suffix), room);
    OnlyFront(stamp + "_", IntToString(j) + ("_" + IntToString(channel') + "_" + channelName' + suffix), room);
  }

  lemma OnlyFront(front: string, back: string, n: nat)
    requires n <= |front|
    ensures Truncate(front + back, n) == Truncate(front, n)
  {
  }

  lemma TruncateBehind(front: string, back: string, n: nat)
    requires |front| <= n
    ensures Truncate(front + back, n) == front + Truncate(back, n - |front|)
  {
  }

  lemma CleanFirst(s: string)
    requires s != [] && Permitted(s[0])
    ensures Clean(s) != [] && Clean(s)[0] == s[0]
  {
  }

  lemma NameText(stamp: string, index: string, channel: string, channelName: string, suffix: string)
    ensures stamp + "_" + index + "_" + channel + "_" + channelName + suffix
            == (stamp + "_") + (index + ("_" + channel + "_" + channelName + suffix))
  {
  }

  // ----- names and what a row keeps of them ------------------------------------------------------------------

  /** Cleaning stands behind a dropped character: the next one is kept unseen. */
  predicate Pending(s: string)
  {
    if s == [] then false
    else if Permitted(s[0]) then Pending(s[1..])
    else if |s| == 1 then true
    else Pending(s[2..])
  }

  function CleanBehind(pending: bool, t: string): string
  {
    if pending && t != [] then [t[0]] + Clean(t[1..]) else Clean(t)
  }

  lemma CleanKeeps(s: string, t: string)
    requires s != [] && Permitted(s[0])
    ensures Clean(s + t) == [s[0]] + Clean(s[1..] + t)
  {
    assert (s + t)[1..] == s[1..] + t;
  }

  lemma CleanDrops(s: string, t: string)
    requires 1 < |s| && Forbidden(s[0])
    ensures Clean(s + t) == [s[1]] + Clean(s[2..] + t)
  {
    assert (s + t)[2..] == s[2..] + t;
  }

  lemma CleanEnds(s: string, t: string)
    requires |s| == 1 && Forbidden(s[0])
    ensures Clean(s + t) == CleanBehind(true, t)
  {
    if t == [] {
      assert s + t == s;
    } else {
      var all := s + t;
      assert |all| == 1 + |t| && all[0] == s[0] && all[1] == t[0] && all[2..] == t[1..];
    }
  }

  /** Cleaning goes on where it stands. */
  lemma {:induction false} CleanAppend(s: string, t: string)
    ensures Clean(s + t) == Clean(s) + CleanBehind(Pending(s), t)
    decreases |s|
  {
    if s == [] {
      assert s + t == t;
    } else if Permitted(s[0]) {
      CleanKeeps(s, t);
      CleanAppend(s[1..], t);
      Associative([s[0]], Clean(s[1..]), CleanBehind(Pending(s), t));
    } else if |s| == 1 {
      CleanEnds(s, t);
    } else {
      CleanDrops(s, t);
      CleanAppend(s[2..], t);
      Associative([s[1]], Clean(s[2..]), CleanBehind(Pending(s), t));
    }
  }

  lemma {:induction false} CleanPermitted(s: string)
    requires NoForbidden(s)
    ensures Clean(s) == s
  {
    if s == [] {
    } else {
      CleanPermitted(s[1..]);
    }
  }

  /** The text of a name up to its channel name. */
  function NameFront(stamp: string, index: nat, channel: int): string
  {
    stamp + "_" + IntToString(index) + "_" + IntToString(channel) + "_"
  }

  /** A name made from the first `size` characters of the channel name is the name made from all of them: nothing is
      cut off, or the argument ends before it shows, or what is cut off leaves nothing in the name but the suffix. */
  predicate CutHarmless(path: string, stamp: string, index: nat, channel: int, channelName: string, suffix: string,
                        size: nat)
    requires |path| + 2 <= IPC_MESSAGE_LENGTH
  {
    var front := NameFront(stamp, index, channel) + Truncate(channelName, size);
    var room := IPC_MESSAGE_LENGTH - 2 - |path|;
    || |channelName| <= size || room <= |front|
    || CleanBehind(Pending(front), Truncate(channelName[size..] + suffix, room - |front|))
       == Truncate(suffix, room - |front|)
  }

  lemma NameOfParts(path: string, front: string, back: string)
    requires |path| + 2 <= IPC_MESSAGE_LENGTH
    ensures var room := IPC_MESSAGE_LENGTH - 2 - |path|;
            Clean(Truncate(front + back, room)) ==
              if room <= |front| then Clean(Truncate(front, room))
              else Clean(front) + CleanBehind(Pending(front), Truncate(back, room - |front|))
  {
    var room := IPC_MESSAGE_LENGTH - 2 - |path|;
    if room <= |front| {
      OnlyFront(front, back, room);
    } else {
      TruncateBehind(front, back, room);
      CleanAppend(front, Truncate(back, room - |front|));
    }
  }

  lemma NameParts(stamp: string, index: nat, channel: int, channelName: string, suffix: string, size: nat)
    ensures var front := NameFront(stamp, index, channel) + Truncate(channelName, size);
            NameFront(stamp, index, channel) + channelName + suffix
            == front + ((if size < |channelName| then channelName[size..] else []) + suffix)
  {
    hide NameFront;
    var start, kept := NameFront(stamp, index, channel), Truncate(channelName, size);
    var gone := if size < |channelName| then channelName[size..] else [];
    assert channelName == kept + gone;
    Associative(start, kept, gone);
    Associative(start + kept, gone, suffix);
  }

  /** The two names, when something is cut off and the argument has room behind what is left. */
  lemma CutNames(path: string, stamp: string, index: nat, channel: int, channelName: string, suffix: string, size: nat)
    requires |path| + 2 <= IPC_MESSAGE_LENGTH && NoForbidden(suffix) && size < |channelName|
    ensures var front := NameFront(stamp, index, channel) + Truncate(channelName, size);
            var room := IPC_MESSAGE_LENGTH - 2 - |path|;
            var whole, cut := RecordName(path, stamp, index, channel, channelName, suffix),
                              RecordName(path, stamp, index, channel, Truncate(channelName, size), suffix);
            if room <= |front| then whole == cut
            else whole == Clean(front) + CleanBehind(Pending(front), Truncate(channelName[size..] + suffix, room - |front|))
                 && cut == Clean(front) + Truncate(suffix, room - |front|)
  {
    hide Clean, Pending, CleanBehind, NoForbidden, IntToString;
    var front := NameFront(stamp, index, channel) + Truncate(channelName, size);
    var room := IPC_MESSAGE_LENGTH - 2 - |path|;
    NameParts(stamp, index, channel, channelName, suffix, size);
    NameOfParts(path, front, channelName[size..] + suffix);
    NameOfParts(path, front, suffix);
    if |front| < room {
      PermittedStart(suffix, room - |front|);
      PermittedBehind(Pending(front), Truncate(suffix, room - |front|));
    }
  }

  lemma PermittedStart(s: string, n: nat)
    requires NoForbidden(s)
    ensures NoForbidden(Truncate(s, n))
  {
  }

  /** The exact condition. */
  lemma CutNameIff(path: string, stamp: string, index: nat, channel: int, channelName: string, suffix: string, size: nat)
    requires |path| + 2 <= IPC_MESSAGE_LENGTH && NoForbidden(suffix)
    ensures RecordName(path, stamp, index, channel, Truncate(channelName, size), suffix)
            == RecordName(path, stamp, index, channel, channelName, suffix)
            <==> CutHarmless(path, stamp, index, channel, channelName, suffix, size)
  {
    hide RecordName, Clean, Pending, CleanBehind, NameFront;
    var front := NameFront(stamp, index, channel) + Truncate(channelName, size);
    var room := IPC_MESSAGE_LENGTH - 2 - |path|;
    if size < |channelName| {
      CutNames(path, stamp, index, channel, channelName, suffix, size);
      if |front| < room {
        SameFront(Clean(front), CleanBehind(Pending(front), Truncate(channelName[size..] + suffix, room - |front|)),
                  Truncate(suffix, room - |front|));
      }
    }
  }

  lemma SameFront(a: string, b: string, c: string)
    ensures a + b == a + c <==> b == c
  {
    assert (a + b)[|a|..] == b && (a + c)[|a|..] == c;
  }

  lemma PermittedBehind(pending: bool, t: string)
    requires NoForbidden(t)
    ensures CleanBehind(pending, t) == t
  {
    CleanPermitted(t);
    if pending && t != [] {
      CleanPermitted(t[1..]);
    }
  }

  /** When the first character that is cut off shows, only lengths matter: the channel name fits its field, or the
      argument has no room behind what the field holds. */
  lemma HarmlessIffLengths(path: string, stamp: string, index: nat, channel: int, channelName: string, suffix: string,
                           size: nat)
    requires |path| + 2 <= IPC_MESSAGE_LENGTH && suffix != ""
    requires size < |channelName| ==> Permitted(channelName[size]) && channelName[size] != suffix[0]
    ensures CutHarmless(path, stamp, index, channel, channelName, suffix, size)
            <==> |channelName| <= size || IPC_MESSAGE_LENGTH - 2 - |path| <= |NameFront(stamp, index, channel)| + size
  {
    var front := NameFront(stamp, index, channel) + Truncate(channelName, size);
    var room := IPC_MESSAGE_LENGTH - 2 - |path|;
    if size < |channelName| && |front| < room {
      FirstShows(Pending(front), channelName[size..] + suffix, suffix, room - |front|);
    }
  }

  lemma FirstShows(pending: bool, s: string, t: string, n: nat)
    requires s != [] && t != [] && 0 < n && Permitted(s[0]) && s[0] != t[0]
    ensures CleanBehind(pending, Truncate(s, n)) != Truncate(t, n)
  {
    assert CleanBehind(pending, Truncate(s, n))[0] == s[0];
  }

  /** A channel of the operator's table, in UTF-8: 25 bytes, one more than the field holds. */
  const DISCOVERY_ASIA: string :=
    "\U{EB}\U{94}\U{94}\U{EC}\U{8A}\U{A4}\U{EC}\U{BB}\U{A4}\U{EB}\U{B2}\U{84}\U{EB}\U{A6}\U{AC} \U{EC}\U{95}\U{84}\U{EC}\U{8B}\U{9C}\U{EC}\U{95}\U{84}"
  const DISCOVERY_ASIA_CHANNEL: int := 133

  /** In no directory of less than 76 characters is its recording's name the one that the row's channel name makes. */
  lemma LongChannelName(path: string, stamp: string, index: nat)
    requires |path| < 76 && IsStamp(stamp) && index < 5
    ensures |DISCOVERY_ASIA| == 25
    ensures RecordName(path, stamp, index, DISCOVERY_ASIA_CHANNEL, Truncate(DISCOVERY_ASIA, 24), ".ts")
            != RecordName(path, stamp, index, DISCOVERY_ASIA_CHANNEL, DISCOVERY_ASIA, ".ts")
  {
    assert |NameFront(stamp, index, 133)| == 26 by {
      assert NatToString(133) == NatToString(13) + [Digit(3)] && NatToString(13) == NatToString(1) + [Digit(3)];
      assert |NatToString(index)| == 1;
    }
    assert NoForbidden(".ts");
    HarmlessIffLengths(path, stamp, index, 133, DISCOVERY_ASIA, ".ts", 24);
    CutNameIff(path, stamp, index, 133, DISCOVERY_ASIA, ".ts", 24);
  }

  // ----- names, spelled out ----------------------------------------------------------------------------------

  /** Of a character between two that stay, eleven do not stay. */
  lemma ElevenVanish(a: char, c: char, b: char)
    requires Permitted(a) && Permitted(b)
    ensures Clean([a, c, b]) ==
              if c in {'\\', '/', ':', '*', '?', '\"', '<', '>', '|', '-', ' '} then [a, b] else [a, c, b]
  {
    assert [a, c, b][1..] == [c, b] && [c, b][1..] == [b] && [c, b][2..] == [] && [b][1..] == [];
    assert Clean([b]) == [b];
    assert Clean([c, b]) == if Forbidden(c) then [b] else [c, b];
  }

  /** The digits of a time. */
  function StampDigits(stamp: string): string
    requires |stamp| == 19
  {
    stamp[..4] + stamp[5..7] + stamp[8..10] + stamp[11..13] + stamp[14..16] + stamp[17..19]
  }

  /** A separator and its two digits. */
  lemma CleanPair(s: string, i: nat)
    requires i + 3 <= |s| && Forbidden(s[i]) && IsDigit(s[i + 1]) && IsDigit(s[i + 2])
    ensures Clean(s[i..i + 3]) == s[i + 1..i + 3]
  {
    var t := s[i..i + 3];
    assert t[1] == s[i + 1] && t[2..] == [s[i + 2]] && t[2..][1..] == [];
    assert s[i + 1..i + 3] == [s[i + 1], s[i + 2]];
  }

  lemma CleanUpTo(s: string, i: nat)
    requires i + 3 <= |s| && Forbidden(s[i]) && IsDigit(s[i + 1]) && IsDigit(s[i + 2]) && 0 < i && Permitted(s[i - 1])
    ensures Clean(s[..i + 3]) == Clean(s[..i]) + s[i + 1..i + 3]
  {
    assert s[..i + 3] == s[..i] + s[i..i + 3];
    CleanSplit(s[..i], s[i..i + 3]);
    CleanPair(s, i);
  }

  lemma StampIsDigits(stamp: string)
    requires IsStamp(stamp)
    ensures Clean(stamp) == StampDigits(stamp)
  {
    hide Clean;
    CleanDigits(stamp[..4]);
    CleanUpTo(stamp, 4);
    CleanUpTo(stamp, 7);
    CleanUpTo(stamp, 10);
    CleanUpTo(stamp, 13);
    CleanUpTo(stamp, 16);
    assert stamp[..19] == stamp;
  }

  lemma CleanNumber(n: nat)
    ensures Clean(IntToString(n) + "_") == IntToString(n) + "_"
  {
    assert AllDigits(NatToString(n));
    CleanPermitted(IntToString(n) + "_");
  }

  lemma CleanFront(stamp: string, index: nat, channel: nat)
    requires IsStamp(stamp)
    ensures Clean(NameFront(stamp, index, channel))
            == StampDigits(stamp) + "_" + IntToString(index) + "_" + IntToString(channel) + "_"
  {
    var card, number := IntToString(index) + "_", IntToString(channel) + "_";
    StampIsDigits(stamp);
    CleanPermitted("_");
    CleanNumber(index);
    CleanNumber(channel);
    CleanSplit(stamp, "_");
    CleanSplit(stamp + "_", card);
    CleanSplit(stamp + "_" + card, number);
    Associative(stamp + "_", IntToString(index), "_");
    Associative(stamp + "_" + card, IntToString(channel), "_");
    Associative(StampDigits(stamp) + "_", IntToString(index), "_");
    Associative(StampDigits(stamp) + "_" + card, IntToString(channel), "_");
  }

  /** What a name says, where the argument has room for it: the digits of the time, the card, the channel, the channel's
      name as far as it is permitted in file names, and the suffix. */
  lemma NameSpelled(path: string, stamp: string, index: nat, channel: nat, channelName: string, suffix: string)
    requires IsStamp(stamp) && NoForbidden(suffix)
    requires |path| + 2 + |NameFront(stamp, index, channel)| + |channelName| + |suffix| <= IPC_MESSAGE_LENGTH
    ensures RecordName(path, stamp, index, channel, channelName, suffix)
            == StampDigits(stamp) + "_" + IntToString(index) + "_" + IntToString(channel) + "_" + Clean(channelName) + suffix
  {
    hide Clean, IntToString, Pending, CleanBehind, StampDigits, IsStamp, NoForbidden;
    var front := NameFront(stamp, index, channel);
    Associative(front, channelName, suffix);
    assert Truncate(front + channelName + suffix, IPC_MESSAGE_LENGTH - 2 - |path|) == front + (channelName + suffix);
    CleanFront(stamp, index, channel);
    assert front[|front| - 1] == '_';
    CleanSplit(front, channelName + suffix);
    CleanAppend(channelName, suffix);
    PermittedBehind(Pending(channelName), suffix);
    Associative(Clean(front), Clean(channelName), suffix);
  }
}
