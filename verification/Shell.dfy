/** Shell quoting, against the token recognition of the POSIX shell command language. */
module Shell {
  import opened Types
  import opened Config

  // ---- Quoting ----

  function Escape(value: string): string {
    if value == "" then ""
    else (if value[0] == '\'' then "'\\''" else [value[0]]) + Escape(value[1..])
  }

  function ShellQuote(value: string): string {
    "'" + Escape(value) + "'"
  }

  function ShellJoin(parts: seq<string>): string {
    if parts == [] then ""
    else if |parts| == 1 then ShellQuote(parts[0])
    else ShellQuote(parts[0]) + " " + ShellJoin(parts[1..])
  }

  // ---- The reader: POSIX.1-2017 Shell Command Language, sections 2.2.1, 2.2.2 and 2.3 ----

  datatype Mode = Unquoted | SingleQuoted | Escaped

  predicate IsBlank(c: char) {
    c == ' ' || c == '\t'
  }

  // Bytes that start an operator, an expansion, a pattern, a double quote or a new command. None of them is covered
  // by the sections above, so a text using one unquoted has no reading here.
  predicate Reserved(c: char) {
    || c == '|' || c == '&' || c == ';' || c == '<' || c == '>' || c == '(' || c == ')' || c == '$'
    || c == '`' || c == '"' || c == '\n' || c == '*' || c == '?' || c == '[' || c == '\0'
  }

  // A comment or a tilde expansion, at the start of a word only.
  predicate ReservedFirst(c: char) {
    c == '#' || c == '~'
  }

  /** The words read from `s`, given the word under construction; None when there is no such reading. */
  function Read(s: string, mode: Mode, word: Option<string>): Option<seq<string>>
    decreases |s|
  {
    if s == "" then
      if !mode.Unquoted? then None else if word.None? then Some([]) else Some([word.value])
    else
      var c, rest := s[0], s[1..];
      match mode
      case SingleQuoted =>
        if c == '\0' then None
        else if c == '\'' then Read(rest, Unquoted, word)
        else Read(rest, SingleQuoted, Some(word.GetOr("") + [c]))
      case Escaped =>
        if c == '\0' then None
        else if c == '\n' then Read(rest, Unquoted, word)
        else Read(rest, Unquoted, Some(word.GetOr("") + [c]))
      case Unquoted =>
        if IsBlank(c) then
          var words := Read(rest, Unquoted, None);
          if word.None? || words.None? then words else Some([word.value] + words.value)
        else if c == '\'' then Read(rest, SingleQuoted, Some(word.GetOr("")))
        else if c == '\\' then Read(rest, Escaped, word)
        else if Reserved(c) || (word.None? && ReservedFirst(c)) then None
        else Read(rest, Unquoted, Some(word.GetOr("") + [c]))
  }

  function Tokenize(s: string): Option<seq<string>> {
    Read(s, Unquoted, None)
  }

  predicate NulFree(s: string) {
    '\0' !in s
  }

  /** One step of the reader. */
  lemma ReadCons(c: char, rest: string, mode: Mode, word: Option<string>)
    ensures mode.SingleQuoted? ==>
              Read([c] + rest, mode, word)
              == if c == '\0' then None else if c == '\'' then Read(rest, Unquoted, word)
                else Read(rest, SingleQuoted, Some(word.GetOr("") + [c]))
    ensures mode.Escaped? && c != '\0' && c != '\n' ==>
            Read([c] + rest, mode, word) == Read(rest, Unquoted, Some(word.GetOr("") + [c]))
    ensures mode.Unquoted? && c == '\'' ==>
            Read([c] + rest, mode, word) == Read(rest, SingleQuoted, Some(word.GetOr("")))
    ensures mode.Unquoted? && c == '\\' ==> Read([c] + rest, mode, word) == Read(rest, Escaped, word)
    ensures mode.Unquoted? && c == ' ' ==>
              Read([c] + rest, mode, word)
              == var words := Read(rest, Unquoted, None);
                if word.None? || words.None? then words else Some([word.value] + words.value)
    ensures mode.Unquoted? && Ordinary(c) && (word.Some? || !ReservedFirst(c)) ==>
              Read([c] + rest, mode, word) == Read(rest, Unquoted, Some(word.GetOr("") + [c]))
  {
    assert ([c] + rest)[1..] == rest;
  }

  predicate Ordinary(c: char) {
    !IsBlank(c) && !Reserved(c) && c != '\'' && c != '\\'
  }

  /** The four characters an embedded quote turns into. */
  lemma ReadEscapedQuote(after: string, word: string)
    ensures Read("'\\''" + after, SingleQuoted, Some(word)) == Read(after, SingleQuoted, Some(word + "'"))
  {
    hide Read;
    assert "'\\''" + after == ['\''] + (['\\'] + (['\''] + (['\''] + after)));
    ReadCons('\'', ['\\'] + (['\''] + (['\''] + after)), SingleQuoted, Some(word));
    ReadCons('\\', ['\''] + (['\''] + after), Unquoted, Some(word));
    ReadCons('\'', ['\''] + after, Escaped, Some(word));
    ReadCons('\'', after, Unquoted, Some(word + "'"));
  }

  lemma NulFreeCons(value: string)
    requires value != ""
    ensures NulFree(value) <==> value[0] != '\0' && NulFree(value[1..])
  {
  }

  lemma EscapeCons(value: string, rest: string)
    requires value != ""
    ensures Escape(value) + "'" + rest
            == (if value[0] == '\'' then "'\\''" else [value[0]]) + (Escape(value[1..]) + "'" + rest)
  {
  }

  lemma EscapeNothing(rest: string)
    ensures Escape("") + "'" + rest == ['\''] + rest && NulFree("")
  {
  }

  lemma {:induction false} ReadEscape(value: string, rest: string, word: string)
    ensures NulFree(value) ==>
            Read(Escape(value) + "'" + rest, SingleQuoted, Some(word)) == Read(rest, Unquoted, Some(word + value))
    ensures !NulFree(value) ==> Read(Escape(value) + "'" + rest, SingleQuoted, Some(word)) == None
    decreases |value|
  {
    hide Read, Escape, NulFree, ReservedFirst, Reserved, IsBlank;
    if value == "" {
      EscapeNothing(rest);
      assert word + value == word;
      ReadCons('\'', rest, SingleQuoted, Some(word));
    } else {
      var c, tail := value[0], value[1..];
      var after := Escape(tail) + "'" + rest;
      NulFreeCons(value);
      EscapeCons(value, rest);
      ReadEscape(tail, rest, word + [c]);
      assert word + [c] + tail == word + value;
      if c == '\'' { ReadEscapedQuote(after, word); } else { ReadCons(c, after, SingleQuoted, Some(word)); }
    }
  }

  /** A quoted value reads back as itself, glued to whatever word it is part of. */
  lemma ReadQuote(value: string, rest: string, word: Option<string>)
    ensures NulFree(value) ==>
            Read(ShellQuote(value) + rest, Unquoted, word) == Read(rest, Unquoted, Some(word.GetOr("") + value))
    ensures !NulFree(value) ==> Read(ShellQuote(value) + rest, Unquoted, word) == None
  {
    hide Read, Escape;
    assert ShellQuote(value) + rest == ['\''] + (Escape(value) + "'" + rest);
    ReadCons('\'', Escape(value) + "'" + rest, Unquoted, word);
    ReadEscape(value, rest, word.GetOr(""));
  }

  ghost predicate AllNulFree(parts: seq<string>) {
    forall i :: 0 <= i < |parts| ==> NulFree(parts[i])
  }

  lemma ReadQuotedWord(value: string, rest: string)
    ensures Tokenize(ShellQuote(value) + (" " + rest))
            == (if NulFree(value) && Tokenize(rest).Some? then Some([value] + Tokenize(rest).value) else None)
    ensures Tokenize(ShellQuote(value)) == (if NulFree(value) then Some([value]) else None)
  {
    hide ShellQuote;
    ReadQuote(value, " " + rest, None);
    ReadQuote(value, "", None);
    assert " " + rest == [' '] + rest && ShellQuote(value) + "" == ShellQuote(value) && "" + value == value;
    ReadCons(' ', rest, Unquoted, Some(value));
    assert Read("", Unquoted, Some(value)) == Some([value]);
  }

  /** The reader undoes the quoting: for every list of parts, exactly when none contains a NUL byte. */
  lemma {:induction false} ShellRoundTrip(parts: seq<string>)
    ensures Tokenize(ShellJoin(parts)) == if AllNulFree(parts) then Some(parts) else None
    decreases |parts|
  {
    hide Tokenize, ShellQuote;
    if parts == [] {
      NothingToRead();
    } else {
      var tail := parts[1..];
      assert parts == [parts[0]] + tail;
      assert AllNulFree(parts) <==> NulFree(parts[0]) && AllNulFree(tail) by {
        assert forall i :: 0 <= i < |tail| ==> tail[i] == parts[i + 1];
      }
      ReadQuotedWord(parts[0], ShellJoin(tail));
      if |parts| > 1 {
        ShellRoundTrip(tail);
        assert ShellJoin(parts) == ShellQuote(parts[0]) + (" " + ShellJoin(tail));
      } else {
        assert parts == [parts[0]];
      }
    }
  }

  lemma NothingToRead()
    ensures Tokenize("") == Some([])
  {
  }

  // ---- Delegated execution: the upstream host's shell reads the command, then ssh hands the rest to the target's ----

  datatype Target = Target(host: string, user: string, port: nat)

  function Decimal(n: nat): string {
    if n < 10 then [('0' as int + n) as char] else Decimal(n / 10) + [('0' as int + n % 10) as char]
  }

  function FromDecimal(s: string): nat {
    if s == "" || s[|s| - 1] < '0' then 0 else FromDecimal(s[..|s| - 1]) * 10 + (s[|s| - 1] as int - '0' as int)
  }

  /** A decimal reads back as its number. */
  lemma {:induction false} DecimalReads(n: nat)
    ensures Decimal(n) != "" && FromDecimal(Decimal(n)) == n
  {
    if n >= 10 {
      DecimalReads(n / 10);
      assert Decimal(n)[..|Decimal(n)| - 1] == Decimal(n / 10);
    } else {
      assert Decimal(n)[..0] == "";
    }
  }

  const SSH_OPTIONS :=
    ["ssh", "-o", "BatchMode=yes", "-o", "StrictHostKeyChecking=no", "-o", "UserKnownHostsFile=/dev/null"]

  method DelegateBaseTokens(target: Target) returns (tokens: seq<string>)
    ensures |tokens| >= 8 && tokens[..7] == SSH_OPTIONS && tokens[|tokens| - 1] == target.host
    ensures |tokens| == 8 + (if Blank(target.user) then 0 else 2) + (if target.port == 22 then 0 else 2)
    ensures !Blank(target.user) <==> |tokens| > 9 && tokens[7] == "-l" && tokens[8] == target.user
    ensures target.port != 22 <==> tokens[|tokens| - 3] == "-p" && FromDecimal(tokens[|tokens| - 2]) == target.port
    ensures tokens == BaseTokens(target)
  {
    BaseTokensMean(target);
    hide Decimal, FromDecimal, Blank;
    tokens := SSH_OPTIONS;
    if !Blank(target.user) { tokens := tokens + ["-l"] + [target.user]; }
    if target.port != 22 { tokens := tokens + ["-p"] + [Decimal(target.port)]; }
    tokens := tokens + [target.host];
  }

  function BaseTokens(target: Target): seq<string> {
    SSH_OPTIONS + (if Blank(target.user) then [] else ["-l", target.user])
    + (if target.port == 22 then [] else ["-p", Decimal(target.port)]) + [target.host]
  }

  lemma OptionsShape()
    ensures |SSH_OPTIONS| == 7 && SSH_OPTIONS[5] == "-o" && "-o" != "-p" && "-l" != "-p"
  {
    assert "-o"[1] == 'o' && "-p"[1] == 'p' && "-l"[1] == 'l';
  }

  /** The host comes last; user and port are given exactly when there is something to say. */
  lemma BaseTokensMean(target: Target)
    ensures var tokens := BaseTokens(target);
            && |tokens| == 8 + (if Blank(target.user) then 0 else 2) + (if target.port == 22 then 0 else 2)
            && tokens[..7] == SSH_OPTIONS && tokens[|tokens| - 1] == target.host
            && (!Blank(target.user) <==> |tokens| > 9 && tokens[7] == "-l" && tokens[8] == target.user)
            && (target.port != 22 <==> tokens[|tokens| - 3] == "-p" && FromDecimal(tokens[|tokens| - 2]) == target.port)
  {
    DecimalReads(target.port);
    OptionsShape();
    hide SSH_OPTIONS, Decimal, FromDecimal, Blank;
  }

  function RemoteCommand(command: string): string {
    "sh -lc " + ShellQuote(command)
  }

  function WrappedCommand(target: Target, command: string): string {
    ShellJoin(BaseTokens(target)) + " " + ShellQuote(RemoteCommand(command))
  }

  function WrappedArgv(target: Target, argv: seq<string>): string {
    ShellJoin(BaseTokens(target) + argv)
  }

  /** ssh passes the words after the host on as one text, joined by single spaces. */
  function Unwords(words: seq<string>): string {
    if words == [] then "" else if |words| == 1 then words[0] else words[0] + " " + Unwords(words[1..])
  }

  lemma {:induction false} JoinAppend(parts: seq<string>, last: string)
    requires parts != []
    ensures ShellJoin(parts + [last]) == ShellJoin(parts) + " " + ShellQuote(last)
    decreases |parts|
  {
    hide ShellQuote;
    var tail := parts[1..];
    assert (parts + [last])[1..] == tail + [last];
    if |parts| > 1 {
      JoinAppend(tail, last);
      Associate(ShellQuote(parts[0]), ShellJoin(tail), ShellQuote(last));
    } else {
      assert tail + [last] == [last];
    }
  }

  lemma Associate(a: string, b: string, c: string)
    ensures a + " " + (b + " " + c) == a + " " + b + " " + c
  {
  }

  lemma {:induction false} EscapeNulFree(value: string)
    requires NulFree(value)
    ensures NulFree(Escape(value))
  {
    if value != "" { EscapeNulFree(value[1..]); }
  }

  lemma BaseNulFree(target: Target, more: seq<string>)
    requires NulFree(target.host) && NulFree(target.user) && AllNulFree(more)
    ensures AllNulFree(BaseTokens(target) + more)
  {
    DecimalNulFree(target.port);
    OptionsNulFree();
    hide SSH_OPTIONS, Decimal, NulFree;
    var all := BaseTokens(target) + more;
    forall i | 0 <= i < |all| ensures NulFree(all[i]) {
      assert i >= |BaseTokens(target)| ==> all[i] == more[i - |BaseTokens(target)|];
    }
  }

  lemma OptionsNulFree()
    ensures AllNulFree(SSH_OPTIONS) && NulFree("-l") && NulFree("-p")
  {
  }

  lemma RemoteNulFree(command: string)
    requires NulFree(command)
    ensures NulFree(RemoteCommand(command))
  {
    EscapeNulFree(command);
  }

  /** `run_remote_command` quotes twice, and its command survives two readings, whatever it contains. */
  lemma CommandSurvivesTwoReadings(target: Target, command: string)
    requires NulFree(target.host) && NulFree(target.user) && NulFree(command)
    ensures Tokenize(WrappedCommand(target, command)) == Some(BaseTokens(target) + [RemoteCommand(command)])
    ensures Unwords([RemoteCommand(command)]) == RemoteCommand(command)
    ensures Tokenize(RemoteCommand(command)) == Some(["sh", "-lc", command])
  {
    RemoteNulFree(command);
    RemoteReading(command);
    hide Tokenize, ShellQuote, RemoteCommand, ShellJoin;
    var base := BaseTokens(target);
    BaseNulFree(target, [RemoteCommand(command)]);
    hide BaseTokens;
    assert |base| > 0 by { HostLast(target); }
    JoinAppend(base, RemoteCommand(command));
    ShellRoundTrip(base + [RemoteCommand(command)]);
  }

  lemma HostLast(target: Target)
    ensures |BaseTokens(target)| > 0 && BaseTokens(target)[|BaseTokens(target)| - 1] == target.host
  {
  }

  lemma RemoteReading(command: string)
    requires NulFree(command)
    ensures Tokenize(RemoteCommand(command)) == Some(["sh", "-lc", command])
  {
    hide Tokenize, ShellQuote;
    PlainSh();
    var quoted := ShellQuote(command);
    assert RemoteCommand(command) == "sh" + (" " + ("-lc" + (" " + quoted)));
    PlainHead("sh", "-lc" + (" " + quoted));
    PlainHead("-lc", quoted);
    ReadQuotedWord(command, "");
    assert ["sh"] + (["-lc"] + [command]) == ["sh", "-lc", command];
  }

  lemma PlainSh()
    ensures PlainWord("sh") && PlainWord("-lc")
  {
  }

  lemma {:induction false} DecimalNulFree(n: nat)
    ensures NulFree(Decimal(n))
  {
    if n >= 10 { DecimalNulFree(n / 10); }
  }

  // ---- run_remote_argv quotes once: exactly which argument lists survive the second reading ----

  predicate PlainWord(w: string) {
    w != "" && !ReservedFirst(w[0]) && forall i :: 0 <= i < |w| ==> Ordinary(w[i])
  }

  lemma {:induction false} ReadOrdinary(w: string, rest: string, word: Option<string>)
    requires forall i :: 0 <= i < |w| ==> Ordinary(w[i])
    requires word.None? ==> w == "" || !ReservedFirst(w[0])
    ensures Read(w + rest, Unquoted, word) == Read(rest, Unquoted, if w == "" then word else Some(word.GetOr("") + w))
    decreases |w|
  {
    hide Read, Ordinary, ReservedFirst;
    if w == "" {
      assert w + rest == rest;
    } else {
      ReadOrdinary(w[1..], rest, Some(word.GetOr("") + [w[0]]));
      assert w + rest == [w[0]] + (w[1..] + rest);
      ReadCons(w[0], w[1..] + rest, Unquoted, word);
      var longer := word.GetOr("") + [w[0]];
      assert longer + w[1..] == word.GetOr("") + w && (w[1..] == "" ==> longer == longer + w[1..]);
    }
  }

  lemma PlainHead(w: string, rest: string)
    requires PlainWord(w)
    ensures Tokenize(w + (" " + rest)) == if Tokenize(rest).None? then None else Some([w] + Tokenize(rest).value)
    ensures Tokenize(w) == Some([w])
  {
    hide Ordinary, ReservedFirst;
    ReadOrdinary(w, " " + rest, None);
    ReadOrdinary(w, "", None);
    assert " " + rest == [' '] + rest && w + "" == w && "" + w == w;
    ReadCons(' ', rest, Unquoted, Some(w));
    assert Read("", Unquoted, Some(w)) == Some([w]);
  }

  lemma {:induction false} PlainWordsSurvive(words: seq<string>)
    requires forall i :: 0 <= i < |words| ==> PlainWord(words[i])
    ensures Tokenize(Unwords(words)) == Some(words)
    decreases |words|
  {
    hide Tokenize, PlainWord;
    if words == [] {
      NothingToRead();
    } else {
      var tail := words[1..];
      assert forall i :: 0 <= i < |tail| ==> tail[i] == words[i + 1];
      assert words == [words[0]] + tail;
      PlainHead(words[0], Unwords(tail));
      if |words| > 1 {
        PlainWordsSurvive(tail);
        assert Unwords(words) == words[0] + (" " + Unwords(tail));
      } else {
        assert words == [words[0]];
      }
    }
  }

  /** What a list of words takes up, with one separator each. */
  function Weight(words: seq<string>): nat {
    if words == [] then 0 else |words[0]| + 1 + Weight(words[1..])
  }

  /** `words` continues the word under construction with ordinary bytes and then holds plain words only. */
  predicate ContinuesPlainly(words: seq<string>, word: Option<string>) {
    && words != []
    && (match word
        case None => PlainWord(words[0])
        case Some(w) => w <= words[0] && forall i :: |w| <= i < |words[0]| ==> Ordinary(words[0][i]))
    && forall i :: 1 <= i < |words| ==> PlainWord(words[i])
  }

  /** A reading never makes more than it is given, and makes exactly as much only from plain words. */
  lemma {:induction false} ReadWeight(s: string, mode: Mode, word: Option<string>)
    requires Read(s, mode, word).Some? && (mode.SingleQuoted? ==> word.Some?)
    ensures var words := Read(s, mode, word).value;
            && Weight(words) <= |s| + |word.GetOr("")| + (if mode.SingleQuoted? then 0 else 1)
            && (mode.Unquoted? && Weight(words) == |s| + |word.GetOr("")| + 1 ==> ContinuesPlainly(words, word))
    decreases |s|
  {
    hide Reserved, ReservedFirst, IsBlank;
    if s != "" {
      var c, rest := s[0], s[1..];
      var words := Read(s, mode, word).value;
      match mode
      case SingleQuoted =>
        if c == '\'' { ReadWeight(rest, Unquoted, word); }
          else { ReadWeight(rest, SingleQuoted, Some(word.GetOr("") + [c])); }
      case Escaped =>
        if c == '\n' { ReadWeight(rest, Unquoted, word); }
          else { ReadWeight(rest, Unquoted, Some(word.GetOr("") + [c])); }
      case Unquoted =>
        if IsBlank(c) {
          ReadWeight(rest, Unquoted, None);
          if word.Some? {
            assert words[1..] == Read(rest, Unquoted, None).value;
            assert forall i :: 1 <= i < |words| ==> words[i] == words[1..][i - 1];
          }
        } else if c == '\'' {
          ReadWeight(rest, SingleQuoted, Some(word.GetOr("")));
        } else if c == '\\' {
          ReadWeight(rest, Escaped, word);
        } else {
          var longer := word.GetOr("") + [c];
          ReadWeight(rest, Unquoted, Some(longer));
          if Weight(words) == |s| + |word.GetOr("")| + 1 {
            assert longer <= words[0];
            assert forall i :: 0 <= i < |longer| ==> words[0][i] == longer[i];
          }
        }
    }
  }

  lemma {:induction false} UnwordsWeight(words: seq<string>)
    requires words != []
    ensures |Unwords(words)| + 1 == Weight(words)
    decreases |words|
  {
    if |words| > 1 { UnwordsWeight(words[1..]); }
  }

  lemma SurvivorsArePlain(words: seq<string>)
    requires Tokenize(Unwords(words)) == Some(words)
    ensures forall i :: 0 <= i < |words| ==> PlainWord(words[i])
  {
    hide Read, PlainWord, Weight, Unwords;
    if words != [] {
      UnwordsWeight(words);
      ReadWeight(Unwords(words), Unquoted, None);
      PlainThroughout(words);
    }
  }

  lemma PlainThroughout(words: seq<string>)
    requires ContinuesPlainly(words, None)
    ensures forall i :: 0 <= i < |words| ==> PlainWord(words[i])
  {
    hide PlainWord;
  }

  /**
   * An argument list quoted once survives the second reading if and only if every argument is a plain word: non-empty
   * and free of blanks, quotes, backslashes and the shell's special bytes.
   */
  lemma ArgvSurvivesExactly(words: seq<string>)
    ensures Tokenize(Unwords(words)) == Some(words) <==> forall i :: 0 <= i < |words| ==> PlainWord(words[i])
  {
    hide Tokenize, PlainWord, Unwords;
    if forall i :: 0 <= i < |words| ==> PlainWord(words[i]) { PlainWordsSurvive(words); }
    if Tokenize(Unwords(words)) == Some(words) { SurvivorsArePlain(words); }
  }

  /** The first reading of a delegated argument list is exact, as for any joined list. */
  lemma ArgvFirstReading(target: Target, argv: seq<string>)
    requires NulFree(target.host) && NulFree(target.user) && AllNulFree(argv)
    ensures Tokenize(WrappedArgv(target, argv)) == Some(BaseTokens(target) + argv)
  {
    hide Tokenize, ShellJoin, BaseTokens;
    BaseNulFree(target, argv);
    ShellRoundTrip(BaseTokens(target) + argv);
  }

  // ---- The argument list of a delegated exec ----

  function Sextet(i: nat): char
    requires i < 64
  {
    if i < 26 then 'A' + i as char
    else if i < 52 then 'a' + (i - 26) as char
    else if i < 62 then '0' + (i - 52) as char
    else if i == 62 then '+' else '/'
  }

  function Byte(c: char): nat {
    c as int % 256
  }

  /** The standard alphabet with padding: three bytes become four characters. */
  function Base64(s: string): string {
    if s == "" then ""
    else
      var a := Byte(s[0]);
      if |s| == 1 then [Sextet(a / 4), Sextet(a % 4 * 16), '=', '=']
      else
        var b := Byte(s[1]);
        if |s| == 2 then [Sextet(a / 4), Sextet(a % 4 * 16 + b / 16), Sextet(b % 16 * 4), '=']
        else
          var c := Byte(s[2]);
          [Sextet(a / 4), Sextet(a % 4 * 16 + b / 16), Sextet(b % 16 * 4 + c / 64), Sextet(c % 64)] + Base64(s[3..])
  }

  lemma SextetOrdinary(i: nat)
    requires i < 64
    ensures Ordinary(Sextet(i)) && !ReservedFirst(Sextet(i))
  {
  }

  predicate OrdinaryText(s: string) {
    forall i :: 0 <= i < |s| ==> Ordinary(s[i])
  }

  lemma {:induction false} Base64Plain(s: string)
    ensures s == "" ==> Base64(s) == ""
    ensures s != "" ==> PlainWord(Base64(s))
    ensures OrdinaryText(Base64(s))
  {
    if s != "" {
      forall i: nat | i < 64 ensures Ordinary(Sextet(i)) && !ReservedFirst(Sextet(i)) { SextetOrdinary(i); }
      assert Ordinary('=');
      hide Ordinary, ReservedFirst, Sextet;
      if |s| > 2 { Base64Plain(s[3..]); }
    }
  }

  lemma {:induction false} DecimalPlain(n: nat)
    ensures PlainWord(Decimal(n))
  {
    if n >= 10 { DecimalPlain(n / 10); }
  }

  function EncodedEnv(env: seq<EnvVar>): seq<string> {
    if env == [] then [] else [Base64(env[0].key + "=" + env[0].value)] + EncodedEnv(env[1..])
  }

  /** What `prepare_exec` has the agent called with. */
  function ExecArgs(path: string, cwd: Option<string>, timeoutSeconds: nat, command: string,
      env: seq<EnvVar>): seq<string> {
    [path, "exec", if cwd.Some? then Base64(cwd.value) else "-", Decimal(timeoutSeconds), Base64(command)]
      + EncodedEnv(env)
  }

  // ---- What the agent reads ----

  predicate Bytes(s: string) {
    forall i :: 0 <= i < |s| ==> s[i] < 256 as char
  }

  /** The position of a character in the standard alphabet (section 4 of RFC 4648). */
  function Position(c: char): Option<nat> {
    if 'A' <= c <= 'Z' then Some((c - 'A') as nat)
    else if 'a' <= c <= 'z' then Some((c - 'a') as nat + 26)
    else if '0' <= c <= '9' then Some((c - '0') as nat + 52)
    else if c == '+' then Some(62)
    else if c == '/' then Some(63)
    else None
  }

  /** Decoding, four characters at a time; None for what no encoder writes. */
  function Unbase64(t: string): Option<string>
    decreases |t|
  {
    if t == "" then Some("")
    else if |t| < 4 then None
    else
      match (Position(t[0]), Position(t[1]), Position(t[2]), Position(t[3]))
      case (Some(a), Some(b), Some(c), Some(d)) =>
        var rest := Unbase64(t[4..]);
        if rest.None? then None
        else Some([Octet(a * 4 + b / 16), Octet(b % 16 * 16 + c / 4), Octet(c % 4 * 64 + d)] + rest.value)
      case (Some(a), Some(b), Some(c), None) =>
        if t[3..] == "=" then Some([Octet(a * 4 + b / 16), Octet(b % 16 * 16 + c / 4)]) else None
      case (Some(a), Some(b), None, None) => if t[2..] == "==" then Some([Octet(a * 4 + b / 16)]) else None
      case _ => None
  }

  function Octet(n: nat): char {
    (n % 256) as char
  }

  lemma PositionOf(i: nat)
    requires i < 64
    ensures Position(Sextet(i)) == Some(i) && Position('=') == None
  {
  }

  lemma Regrouped(a: nat, b: nat, c: nat)
    requires a < 256 && b < 256 && c < 256
    ensures a / 4 < 64 && a % 4 * 16 + b / 16 < 64 && b % 16 * 4 + c / 64 < 64 && c % 64 < 64
            && a % 4 * 16 < 64 && b % 16 * 4 < 64
    ensures a / 4 * 4 + a % 4 * 16 / 16 == a && a / 4 * 4 + (a % 4 * 16 + b / 16) / 16 == a
    ensures (a % 4 * 16 + b / 16) % 16 * 16 + b % 16 * 4 / 4 == b
            && (a % 4 * 16 + b / 16) % 16 * 16 + (b % 16 * 4 + c / 64) / 4 == b
    ensures (b % 16 * 4 + c / 64) % 4 * 64 + c % 64 == c
  {
  }

  lemma TwoRead(i: nat, j: nat)
    requires i < 64 && j < 64
    ensures Unbase64([Sextet(i), Sextet(j), '=', '=']) == Some([Octet(i * 4 + j / 16)])
  {
    PositionOf(i);
    PositionOf(j);
    hide Sextet, Position, Octet;
    assert [Sextet(i), Sextet(j), '=', '='][2..] == "==";
  }

  lemma ThreeRead(i: nat, j: nat, k: nat)
    requires i < 64 && j < 64 && k < 64
    ensures Unbase64([Sextet(i), Sextet(j), Sextet(k), '='])
            == Some([Octet(i * 4 + j / 16), Octet(j % 16 * 16 + k / 4)])
  {
    PositionOf(i);
    PositionOf(j);
    PositionOf(k);
    hide Sextet, Position, Octet;
    assert [Sextet(i), Sextet(j), Sextet(k), '='][3..] == "=";
  }

  lemma FourRead(i: nat, j: nat, k: nat, l: nat, rest: string)
    requires i < 64 && j < 64 && k < 64 && l < 64 && Unbase64(rest).Some?
    ensures Unbase64([Sextet(i), Sextet(j), Sextet(k), Sextet(l)] + rest)
            == Some([Octet(i * 4 + j / 16), Octet(j % 16 * 16 + k / 4), Octet(k % 4 * 64 + l)] + Unbase64(rest).value)
  {
    PositionOf(i);
    PositionOf(j);
    PositionOf(k);
    PositionOf(l);
    hide Sextet, Position, Octet;
    assert ([Sextet(i), Sextet(j), Sextet(k), Sextet(l)] + rest)[4..] == rest;
  }

  lemma OneByte(s: string)
    requires |s| == 1 && Bytes(s)
    ensures Unbase64(Base64(s)) == Some(s)
  {
    hide Sextet, Unbase64;
    var a := s[0] as nat;
    Regrouped(a, 0, 0);
    TwoRead(a / 4, a % 4 * 16);
    assert s == [Octet(a)];
  }

  lemma ByteBack(c: char)
    requires c < 256 as char
    ensures Byte(c) < 256 && Octet(Byte(c)) == c
  {
  }

  lemma TwoEncoded(s: string) returns (i: nat, j: nat, k: nat)
    requires |s| == 2 && Bytes(s)
    ensures i < 64 && j < 64 && k < 64 && Base64(s) == [Sextet(i), Sextet(j), Sextet(k), '=']
    ensures i * 4 + j / 16 == Byte(s[0]) && j % 16 * 16 + k / 4 == Byte(s[1])
  {
    ByteBack(s[0]);
    ByteBack(s[1]);
    hide Sextet, Byte, Octet;
    var a, b := Byte(s[0]), Byte(s[1]);
    i, j, k := a / 4, a % 4 * 16 + b / 16, b % 16 * 4;
    Regrouped(a, b, 0);
  }

  lemma TwoBytes(s: string)
    requires |s| == 2 && Bytes(s)
    ensures Unbase64(Base64(s)) == Some(s)
  {
    hide Sextet, Base64, Unbase64, Octet, Byte;
    var i, j, k := TwoEncoded(s);
    ThreeRead(i, j, k);
    ByteBack(s[0]);
    ByteBack(s[1]);
    assert s == [s[0], s[1]];
  }

  lemma ThreeEncoded(s: string) returns (i: nat, j: nat, k: nat, l: nat)
    requires |s| > 2 && Bytes(s)
    ensures i < 64 && j < 64 && k < 64 && l < 64
    ensures Base64(s) == [Sextet(i), Sextet(j), Sextet(k), Sextet(l)] + Base64(s[3..])
    ensures i * 4 + j / 16 == Byte(s[0]) && j % 16 * 16 + k / 4 == Byte(s[1]) && k % 4 * 64 + l == Byte(s[2])
  {
    ByteBack(s[0]);
    ByteBack(s[1]);
    ByteBack(s[2]);
    hide Sextet, Byte, Octet;
    var a, b, c := Byte(s[0]), Byte(s[1]), Byte(s[2]);
    i, j, k, l := a / 4, a % 4 * 16 + b / 16, b % 16 * 4 + c / 64, c % 64;
    Regrouped(a, b, c);
  }

  lemma ThreeBytes(s: string)
    requires |s| > 2 && Bytes(s) && Unbase64(Base64(s[3..])) == Some(s[3..])
    ensures Unbase64(Base64(s)) == Some(s)
  {
    hide Sextet, Base64, Unbase64, Octet, Byte;
    var i, j, k, l := ThreeEncoded(s);
    FourRead(i, j, k, l, Base64(s[3..]));
    ByteBack(s[0]);
    ByteBack(s[1]);
    ByteBack(s[2]);
    assert s == [s[0], s[1], s[2]] + s[3..];
  }

  /** Decoding undoes encoding, for every string of bytes. */
  lemma {:induction false} Base64RoundTrip(s: string)
    requires Bytes(s)
    ensures Unbase64(Base64(s)) == Some(s)
    decreases |s|
  {
    hide Base64, Unbase64;
    if s == "" {
      NothingDecoded();
    } else if |s| == 1 {
      OneByte(s);
    } else if |s| == 2 {
      TwoBytes(s);
    } else {
      Base64RoundTrip(s[3..]);
      ThreeBytes(s);
    }
  }

  lemma NothingDecoded()
    ensures Unbase64("") == Some("") && Base64("") == ""
  {
  }

  datatype Call = Call(cwd: Option<string>, timeoutSeconds: nat, command: string, assignments: seq<string>)

  function DecodedAll(words: seq<string>): Option<seq<string>> {
    if words == [] then Some([])
    else
      match (Unbase64(words[0]), DecodedAll(words[1..]))
      case (Some(w), Some(rest)) => Some([w] + rest)
      case _ => None
  }

  /** What the agent takes its arguments for: directory, seconds, command, and then assignments. */
  function ReadCall(args: seq<string>): Option<Call> {
    if |args| < 5 || args[1] != "exec" then None
    else
      match (if args[2] == "-" then Some("") else Unbase64(args[2]), Unbase64(args[4]), DecodedAll(args[5..]))
      case (Some(cwd), Some(command), Some(env)) =>
        Some(Call(if args[2] == "-" then None else Some(cwd), FromDecimal(args[3]), command, env))
      case _ => None
  }

  function Assignments(env: seq<EnvVar>): seq<string> {
    if env == [] then [] else [env[0].key + "=" + env[0].value] + Assignments(env[1..])
  }

  predicate EnvBytes(env: seq<EnvVar>) {
    forall i :: 0 <= i < |env| ==> Bytes(env[i].key) && Bytes(env[i].value)
  }

  lemma {:induction false} EnvReads(env: seq<EnvVar>)
    requires EnvBytes(env)
    ensures DecodedAll(EncodedEnv(env)) == Some(Assignments(env))
  {
    hide Base64, Unbase64;
    if env != [] {
      assert Bytes(env[0].key + "=" + env[0].value);
      Base64RoundTrip(env[0].key + "=" + env[0].value);
      assert forall i :: 0 <= i < |env[1..]| ==> env[1..][i] == env[i + 1];
      EnvReads(env[1..]);
    }
  }

  /** The agent reads from its arguments exactly the call that was made. */
  lemma ExecArgsRead(path: string, cwd: Option<string>, timeoutSeconds: nat, command: string, env: seq<EnvVar>)
    requires (cwd.Some? ==> Bytes(cwd.value)) && Bytes(command) && EnvBytes(env)
    ensures ReadCall(ExecArgs(path, cwd, timeoutSeconds, command, env))
            == Some(Call(cwd, timeoutSeconds, command, Assignments(env)))
  {
    var args := ExecArgs(path, cwd, timeoutSeconds, command, env);
    EnvReads(env);
    DecimalReads(timeoutSeconds);
    Base64RoundTrip(command);
    if cwd.Some? {
      Base64RoundTrip(cwd.value);
      assert Unbase64("-").None?;
    }
    hide Base64, Unbase64, Decimal, FromDecimal, EncodedEnv, DecodedAll, Assignments;
    assert args[5..] == EncodedEnv(env);
  }

  predicate PlainOrEmpty(words: seq<string>) {
    forall i :: 0 <= i < |words| ==> words[i] == "" || PlainWord(words[i])
  }

  predicate AllPlain(words: seq<string>) {
    forall i :: 0 <= i < |words| ==> PlainWord(words[i])
  }

  lemma {:induction false} EnvPlain(env: seq<EnvVar>)
    ensures AllPlain(EncodedEnv(env))
  {
    hide PlainWord;
    if env != [] {
      Base64Plain(env[0].key + "=" + env[0].value);
      EnvPlain(env[1..]);
    }
  }

  lemma FixedPlain()
    ensures PlainWord("exec") && PlainWord("-")
  {
  }

  /**
   * A delegated exec reaches its agent unchanged exactly when the agent's path is a plain word and neither the command
   * nor a given directory is empty.
   */
  lemma ExecArgsSurvive(path: string, cwd: Option<string>, timeoutSeconds: nat, command: string, env: seq<EnvVar>)
    ensures var args := ExecArgs(path, cwd, timeoutSeconds, command, env);
            Tokenize(Unwords(args)) == Some(args) <==> PlainWord(path) && command != "" && cwd != Some("")
  {
    var args := ExecArgs(path, cwd, timeoutSeconds, command, env);
    ArgvSurvivesExactly(args);
    FixedPlain();
    DecimalPlain(timeoutSeconds);
    Base64Plain(command);
    if cwd.Some? { Base64Plain(cwd.value); }
    EnvPlain(env);
    EmptyIsNotPlain();
    hide PlainWord, Base64, Decimal, EncodedEnv, Tokenize, Unwords;
    assert args[0] == path && args[4] == Base64(command) && args[2] == if cwd.Some? then Base64(cwd.value) else "-";
    assert forall i :: 5 <= i < |args| ==> args[i] == EncodedEnv(env)[i - 5];
  }

  lemma EmptyIsNotPlain()
    ensures !PlainWord("")
  {
  }

  function NonEmptyWords(words: seq<string>): seq<string> {
    if words == [] then [] else (if words[0] == "" then [] else [words[0]]) + NonEmptyWords(words[1..])
  }

  /** In the second reading an empty argument is lost, and the arguments after it move up. */
  lemma {:induction false} EmptyArgumentsVanish(words: seq<string>)
    requires PlainOrEmpty(words)
    ensures Tokenize(Unwords(words)) == Some(NonEmptyWords(words))
    decreases |words|
  {
    hide Tokenize, PlainWord;
    NothingToRead();
    if words != [] {
      var tail := words[1..];
      assert forall i :: 0 <= i < |tail| ==> tail[i] == words[i + 1];
      EmptyArgumentsVanish(tail);
      assert [] + NonEmptyWords(tail) == NonEmptyWords(tail);
      if words[0] != "" { PlainHead(words[0], Unwords(tail)); } else { EmptyHead(Unwords(tail)); }
      if |words| > 1 {
        assert Unwords(words) == words[0] + (" " + Unwords(tail));
        assert words[0] == "" ==> words[0] + (" " + Unwords(tail)) == " " + Unwords(tail);
      } else {
        assert tail == [] && NonEmptyWords(tail) == [] && [words[0]] + [] == [words[0]]
          && [] + NonEmptyWords(tail) == [];
      }
    }
  }

  lemma EmptyHead(rest: string)
    ensures Tokenize(" " + rest) == Tokenize(rest)
  {
    ReadCons(' ', rest, Unquoted, None);
    assert " " + rest == [' '] + rest;
  }
}
