/** Quoting for the shell, against a reader of words after sections 2.2 and 2.3 of
    the POSIX.1-2017 Shell Command Language. */
module ShellQuote {
  import opened Wrappers

  // ----- the reader -----

  datatype Mode = Plain | Single | Double | Escape | DoubleEscape

  /** The words read so far and the one being read, if any; reading stops as soon as
      a character would do anything but stand for itself. */
  datatype Reader = Reading(words: seq<string>, word: Option<string>, mode: Mode) | Stopped

  const NUL := 0 as char

  const FIRST := Reading([], None, Plain)

  /** Characters that are operators, expansions or patterns when not quoted. */
  predicate Active(c: char) {
    c == '|' || c == '&' || c == ';' || c == '<' || c == '>' || c == '(' || c == ')' || c == '$' || c == '`'
    || c == '*' || c == '?' || c == '[' || c == '\n' || c == NUL
  }

  function Text(word: Option<string>): string {
    if word.Some? then word.value else ""
  }

  function Step(r: Reader, c: char): Reader {
    match r
    case Stopped => Stopped
    case Reading(words, word, mode) =>
      if mode == Plain then StepPlain(words, word, c)
      else if mode == Single then
        if c == '\'' then Reading(words, word, Plain)
        else if c == NUL then Stopped
        else Reading(words, Some(Text(word) + [c]), Single)
      else if mode == Double then
        if c == '"' then Reading(words, word, Plain)
        else if c == '\\' then Reading(words, word, DoubleEscape)
        else if c == '$' || c == '`' || c == NUL then Stopped
        else Reading(words, Some(Text(word) + [c]), Double)
      else if c == NUL then Stopped
      else if mode == Escape then
        Reading(words, if c == '\n' then word else Some(Text(word) + [c]), Plain)
      else if c == '\n' then Reading(words, word, Double)
      else if c == '$' || c == '`' || c == '"' || c == '\\' then Reading(words, Some(Text(word) + [c]), Double)
      else Reading(words, Some(Text(word) + ['\\', c]), Double)
  }

  /** Blanks end a word; a quote begins one even when nothing is inside. */
  function StepPlain(words: seq<string>, word: Option<string>, c: char): Reader {
    if c == '\'' then Reading(words, Some(Text(word)), Single)
    else if c == '"' then Reading(words, Some(Text(word)), Double)
    else if c == '\\' then Reading(words, word, Escape)
    else if c == ' ' || c == '\t' then
      Reading(if word.Some? then words + [word.value] else words, None, Plain)
    else if Active(c) || (word.None? && (c == '#' || c == '~')) then Stopped
    else Reading(words, Some(Text(word) + [c]), Plain)
  }

  function Scan(r: Reader, s: string): Reader
    decreases |s|
  {
    if s == "" then r else Scan(Step(r, s[0]), s[1..])
  }

  /** The argument list that a command line stands for; none if a quote is left
      open or an unquoted character is active. */
  function Read(s: string): Option<seq<string>> {
    var r := Scan(FIRST, s);
    if r.Reading? && r.mode == Plain then Some(if r.word.Some? then r.words + [r.word.value] else r.words) else None
  }

  lemma {:induction false} ScanJoin(r: Reader, a: string, b: string)
    ensures Scan(r, a + b) == Scan(Scan(r, a), b)
    decreases |a|
  {
    if a == "" {
      assert a + b == b;
    } else {
      assert (a + b)[0] == a[0] && (a + b)[1..] == a[1..] + b;
      ScanJoin(Step(r, a[0]), a[1..], b);
    }
  }

  // ----- quoting -----

  /** strings.ReplaceAll of a single character. */
  function ReplaceAll(s: string, c: char, text: string): string {
    if s == "" then "" else (if s[0] == c then text else [s[0]]) + ReplaceAll(s[1..], c, text)
  }

  const QUOTED_QUOTE := "'\"'\"'"

  function Quote(s: string): string {
    "'" + ReplaceAll(s, '\'', QUOTED_QUOTE) + "'"
  }

  predicate NulFree(s: string) {
    NUL !in s
  }

  function StripNul(s: string): string {
    ReplaceAll(s, NUL, "")
  }

  lemma {:induction false} StripNulRemoves(s: string)
    ensures NulFree(StripNul(s))
    ensures NulFree(s) ==> StripNul(s) == s
  {
    if s != "" {
      StripNulRemoves(s[1..]);
      assert s == [s[0]] + s[1..];
    }
  }

  /** A quote inside ends the string, stands in double quotes, and opens it again. */
  lemma QuoteInside(words: seq<string>, word: string)
    ensures Scan(Reading(words, Some(word), Single), QUOTED_QUOTE) == Reading(words, Some(word + "'"), Single)
  {
    var r0 := Reading(words, Some(word), Single);
    var r1 := Reading(words, Some(word), Plain);
    var r2 := Reading(words, Some(word), Double);
    var r3 := Reading(words, Some(word + "'"), Double);
    var r4 := Reading(words, Some(word + "'"), Plain);
    var r5 := Reading(words, Some(word + "'"), Single);
    assert Scan(r0, QUOTED_QUOTE) == Scan(r1, "\"'\"'") by { assert QUOTED_QUOTE[1..] == "\"'\"'"; }
    assert Scan(r1, "\"'\"'") == Scan(r2, "'\"'") by { assert "\"'\"'"[1..] == "'\"'"; }
    assert Scan(r2, "'\"'") == Scan(r3, "\"'") by { assert "'\"'"[1..] == "\"'"; }
    assert Scan(r3, "\"'") == Scan(r4, "'") by { assert "\"'"[1..] == "'"; }
    assert Scan(r4, "'") == Scan(r5, "") by { assert "'"[1..] == ""; }
  }

  lemma {:induction false} ScanBody(words: seq<string>, word: string, s: string)
    requires NulFree(s)
    ensures Scan(Reading(words, Some(word), Single), ReplaceAll(s, '\'', QUOTED_QUOTE)) == Reading(words, Some(word + s), Single)
    decreases |s|
  {
    if s == "" {
      assert word + s == word;
    } else {
      var head, rest := if s[0] == '\'' then QUOTED_QUOTE else [s[0]], s[1..];
      var r := Reading(words, Some(word), Single);
      ScanJoin(r, head, ReplaceAll(rest, '\'', QUOTED_QUOTE));
      if s[0] == '\'' {
        QuoteInside(words, word);
      } else {
        assert Scan(r, head) == Scan(Step(r, s[0]), "") by { assert head[1..] == ""; }
      }
      assert s == [s[0]] + rest && word + [s[0]] + rest == word + s;
      ScanBody(words, word + [s[0]], rest);
    }
  }

  /** Wherever a quoted argument stands, it adds exactly itself to the word being read. */
  lemma QuoteAddsItself(words: seq<string>, word: Option<string>, s: string)
    requires NulFree(s)
    ensures Scan(Reading(words, word, Plain), Quote(s)) == Reading(words, Some(Text(word) + s), Plain)
  {
    var body := ReplaceAll(s, '\'', QUOTED_QUOTE);
    var open := Reading(words, Some(Text(word)), Single);
    assert Quote(s)[0] == '\'' && Quote(s)[1..] == body + "'";
    ScanBody(words, Text(word), s);
    ScanJoin(open, body, "'");
    var full := Reading(words, Some(Text(word) + s), Single);
    assert Scan(full, "'") == Scan(Step(full, '\''), "") by { assert "'"[1..] == ""; }
  }

  // ----- lists of arguments -----

  /** strings.Join with a blank. */
  function Join(parts: seq<string>): string {
    if parts == [] then "" else if |parts| == 1 then parts[0]
    else Join(parts[..|parts| - 1]) + " " + parts[|parts| - 1]
  }

  function QuoteEach(args: seq<string>): (q: seq<string>)
    ensures |q| == |args| && forall i :: 0 <= i < |args| ==> q[i] == Quote(args[i])
  {
    seq(|args|, i requires 0 <= i < |args| => Quote(args[i]))
  }

  function QuoteList(args: seq<string>): string { Join(QuoteEach(args)) }

  /** One more argument after a blank. */
  lemma ScanMore(line: string, words: seq<string>, s: string)
    requires words != [] && NulFree(s)
    requires Scan(FIRST, line) == Reading(words[..|words| - 1], Some(words[|words| - 1]), Plain)
    ensures Scan(FIRST, line + " " + Quote(s)) == Reading(words, Some(s), Plain)
  {
    assert words[..|words| - 1] + [words[|words| - 1]] == words;
    ScanBlank(words[..|words| - 1], words[|words| - 1]);
    ScanJoin(FIRST, line, " ");
    ScanJoin(FIRST, line + " ", Quote(s));
    QuoteAddsItself(words, None, s);
    assert "" + s == s;
  }

  lemma ScanBlank(words: seq<string>, word: string)
    ensures Scan(Reading(words, Some(word), Plain), " ") == Reading(words + [word], None, Plain)
  {
    assert " "[1..] == "";
  }

  lemma {:induction false} ScanList(args: seq<string>)
    requires args != [] && forall i :: 0 <= i < |args| ==> NulFree(args[i])
    ensures Scan(FIRST, QuoteList(args)) == Reading(args[..|args| - 1], Some(args[|args| - 1]), Plain)
  {
    var most, last := args[..|args| - 1], args[|args| - 1];
    assert QuoteEach(args)[..|args| - 1] == QuoteEach(most);
    if |args| == 1 {
      QuoteAddsItself([], None, last);
      assert "" + last == last;
    } else {
      ScanList(most);
      ScanMore(QuoteList(most), most, last);
    }
  }

  /** Reading back the quoted and joined arguments gives the same list: nothing is
      split, dropped, expanded or run, empty arguments included. */
  lemma QuoteRoundTrip(args: seq<string>)
    requires forall i :: 0 <= i < |args| ==> NulFree(args[i])
    ensures Read(QuoteList(args)) == Some(args)
  {
    if args != [] {
      ScanList(args);
      assert args[..|args| - 1] + [args[|args| - 1]] == args;
    }
  }

  /** An argument with NUL bytes is read back without them. */
  lemma StrippedRoundTrip(s: string)
    ensures Read(Quote(StripNul(s))) == Some([StripNul(s)])
  {
    StripNulRemoves(s);
    var args := [StripNul(s)];
    QuoteRoundTrip(args);
    assert QuoteList(args) == Quote(args[0]);
  }

  // ----- commands inside commands -----

  const SUDO_WORDS := ["sudo", "-n", "sh", "-c"]

  /** Words written out with a blank after each. */
  function Spaced(words: seq<string>): string {
    if words == [] then "" else Spaced(words[..|words| - 1]) + (words[|words| - 1] + " ")
  }

  function Sudo(command: string): string { Spaced(SUDO_WORDS) + Quote(command) }

  /** A command quoted again for each of several shells. */
  function Nest(depth: nat, command: string): string {
    if depth == 0 then command else Sudo(Nest(depth - 1, command))
  }

  /** What the innermost shell is given. */
  function Unnest(depth: nat, line: string): Option<string> {
    if depth == 0 then Some(line)
    else
      var words := Read(line);
      if words.Some? && |words.value| == 5 && words.value[..4] == SUDO_WORDS then
        Unnest(depth - 1, words.value[4])
      else None
  }

  predicate Ordinary(c: char) {
    !Active(c) && c != '\'' && c != '"' && c != '\\' && c != ' ' && c != '\t' && c != '#' && c != '~'
  }

  predicate OrdinaryWord(s: string) {
    forall i :: 0 <= i < |s| ==> Ordinary(s[i])
  }

  lemma {:induction false} ScanPlain(words: seq<string>, word: Option<string>, s: string)
    requires s != "" && OrdinaryWord(s)
    ensures Scan(Reading(words, word, Plain), s) == Reading(words, Some(Text(word) + s), Plain)
    decreases |s|
  {
    assert s == [s[0]] + s[1..];
    if |s| > 1 {
      ScanPlain(words, Some(Text(word) + [s[0]]), s[1..]);
      assert Text(word) + [s[0]] + s[1..] == Text(word) + s;
    } else {
      assert s == [s[0]];
    }
  }

  lemma ScanWord(words: seq<string>, s: string)
    requires s != "" && OrdinaryWord(s)
    ensures Scan(Reading(words, None, Plain), s + " ") == Reading(words + [s], None, Plain)
  {
    ScanJoin(Reading(words, None, Plain), s, " ");
    ScanPlain(words, None, s);
    assert "" + s == s && " "[1..] == "";
  }

  lemma {:induction false} ScanSpaced(words: seq<string>)
    requires forall k :: 0 <= k < |words| ==> words[k] != "" && OrdinaryWord(words[k])
    ensures Scan(FIRST, Spaced(words)) == Reading(words, None, Plain)
  {
    if words != [] {
      var most, last := words[..|words| - 1], words[|words| - 1];
      ScanSpaced(most);
      ScanJoin(FIRST, Spaced(most), last + " ");
      ScanWord(most, last);
      assert most + [last] == words;
    }
  }

  /** The words as they are sent. */
  lemma SudoIsSpaced()
    ensures Spaced(SUDO_WORDS) == "sudo -n sh -c "
  {
    assert SUDO_WORDS[..3] == ["sudo", "-n", "sh"];
    assert SUDO_WORDS[..3][..2] == ["sudo", "-n"];
    assert ["sudo", "-n"][..1] == ["sudo"];
    assert ["sudo"][..0] == [];
  }

  lemma SudoWordsOrdinary()
    ensures forall k :: 0 <= k < |SUDO_WORDS| ==> SUDO_WORDS[k] != "" && OrdinaryWord(SUDO_WORDS[k])
  {
  }

  lemma PassesCommand(prefix: string, words: seq<string>, command: string)
    requires NulFree(command) && Scan(FIRST, prefix) == Reading(words, None, Plain)
    ensures Read(prefix + Quote(command)) == Some(words + [command])
  {
    ScanJoin(FIRST, prefix, Quote(command));
    QuoteAddsItself(words, None, command);
    assert "" + command == command;
  }

  /** The shell that sudo starts is given exactly the command. */
  lemma SudoPassesCommand(command: string)
    requires NulFree(command)
    ensures Read(Sudo(command)) == Some(SUDO_WORDS + [command])
  {
    SudoWordsOrdinary();
    SpacedPasses(SUDO_WORDS, command);
  }

  lemma SpacedPasses(words: seq<string>, command: string)
    requires NulFree(command) && forall k :: 0 <= k < |words| ==> words[k] != "" && OrdinaryWord(words[k])
    ensures Read(Spaced(words) + Quote(command)) == Some(words + [command])
  {
    ScanSpaced(words);
    PassesCommand(Spaced(words), words, command);
  }

  lemma {:induction false} ReplacedNulFree(s: string, c: char, text: string)
    requires NulFree(s) && NulFree(text)
    ensures NulFree(ReplaceAll(s, c, text))
  {
    if s != "" {
      ReplacedNulFree(s[1..], c, text);
    }
  }

  lemma {:induction false} NestNulFree(depth: nat, command: string)
    requires NulFree(command)
    ensures NulFree(Nest(depth, command))
  {
    if depth > 0 {
      NestNulFree(depth - 1, command);
      SudoIsSpaced();
      ReplacedNulFree(Nest(depth - 1, command), '\'', QUOTED_QUOTE);
    }
  }

  /** To any depth, the innermost shell is given the command itself. */
  lemma {:induction false} NestRoundTrip(depth: nat, command: string)
    requires NulFree(command)
    ensures Unnest(depth, Nest(depth, command)) == Some(command)
  {
    if depth > 0 {
      NestNulFree(depth - 1, command);
      SudoPassesCommand(Nest(depth - 1, command));
      NestRoundTrip(depth - 1, command);
    }
  }

  /** So a quoted list, wrapped any number of times, reaches its program unchanged. */
  lemma NestedListRoundTrip(depth: nat, args: seq<string>)
    requires forall i :: 0 <= i < |args| ==> NulFree(args[i])
    ensures var inner := Unnest(depth, Nest(depth, QuoteList(args)));
            inner.Some? && Read(inner.value) == Some(args)
  {
    QuoteListNulFree(args);
    NestRoundTrip(depth, QuoteList(args));
    QuoteRoundTrip(args);
  }

  lemma {:induction false} QuoteListNulFree(args: seq<string>)
    requires forall i :: 0 <= i < |args| ==> NulFree(args[i])
    ensures NulFree(QuoteList(args))
  {
    if args != [] {
      var most, last := args[..|args| - 1], args[|args| - 1];
      assert QuoteEach(args)[..|args| - 1] == QuoteEach(most);
      QuoteListNulFree(most);
      ReplacedNulFree(last, '\'', QUOTED_QUOTE);
    }
  }

  // ----- the programs -----

  /** Quote each argument and join the results. */
  method ShellQuoteList(args: seq<string>) returns (s: string)
    ensures s == QuoteList(args)
    ensures (forall i :: 0 <= i < |args| ==> NulFree(args[i])) ==> Read(s) == Some(args)
  {
    var quoted := new string[|args|];
    for i := 0 to |args|
      invariant forall j :: 0 <= j < i ==> quoted[j] == Quote(args[j])
    {
      quoted[i] := Quote(args[i]);
    }
    s := "";
    for i := 0 to |args|
      invariant s == Join(quoted[..i])
      invariant forall j :: 0 <= j < |args| ==> quoted[j] == Quote(args[j])
    {
      assert quoted[..i + 1][..i] == quoted[..i];
      s := if i == 0 then quoted[0] else s + " " + quoted[i];
    }
    assert quoted[..|args|] == QuoteEach(args);
    if forall i :: 0 <= i < |args| ==> NulFree(args[i]) {
      QuoteRoundTrip(args);
    }
  }

  predicate AllSpace(s: string) { forall i :: 0 <= i < |s| ==> Space(s[i]) }

  lemma {:induction false} TrimLeftTrims(s: string) returns (before: string)
    ensures s == before + TrimLeft(s) && AllSpace(before)
    ensures TrimLeft(s) != "" ==> !Space(TrimLeft(s)[0])
  {
    before := "";
    if s != "" && Space(s[0]) {
      before := TrimLeftTrims(s[1..]);
      assert s == [s[0]] + (before + TrimLeft(s));
      before := [s[0]] + before;
    }
  }

  lemma {:induction false} TrimRightTrims(s: string) returns (after: string)
    ensures s == TrimRight(s) + after && AllSpace(after)
    ensures TrimRight(s) != "" ==> !Space(TrimRight(s)[|TrimRight(s)| - 1]) && TrimRight(s)[0] == s[0]
  {
    after := "";
    if s != "" && Space(s[|s| - 1]) {
      after := TrimRightTrims(s[..|s| - 1]);
      assert s == (TrimRight(s) + after) + [s[|s| - 1]];
      after := after + [s[|s| - 1]];
    }
  }

  /** What is left out at both ends is white space, and what is left neither begins nor
      ends with it. */
  lemma TrimSpaceTrims(s: string) returns (before: string, after: string)
    ensures s == before + TrimSpace(s) + after && AllSpace(before) && AllSpace(after)
    ensures TrimSpace(s) != "" ==> !Space(TrimSpace(s)[0]) && !Space(TrimSpace(s)[|TrimSpace(s)| - 1])
  {
    before := TrimLeftTrims(s);
    after := TrimRightTrims(TrimLeft(s));
  }

  function TrimSpace(s: string): string {
    TrimRight(TrimLeft(s))
  }

  /** White space as Unicode defines it. */
  predicate Space(c: char) {
    || 9 <= c as int <= 13
    || 0x2000 <= c as int <= 0x200A
    || c as int in [0x20, 0x85, 0xA0, 0x1680, 0x2028, 0x2029, 0x202F, 0x205F, 0x3000]
  }

  function TrimLeft(s: string): string {
    if s != "" && Space(s[0]) then TrimLeft(s[1..]) else s
  }

  function TrimRight(s: string): string {
    if s != "" && Space(s[|s| - 1]) then TrimRight(s[..|s| - 1]) else s
  }

  class Client {
    const user: string
    var sudo: bool

    constructor (user: string)
      ensures this.user == user && !sudo
    {
      this.user, sudo := user, false;
    }

    /** The line sent for a command; with sudo, a shell that is given the command
        without its NUL bytes. */
    function Command(command: string): (line: string)
      reads this
      ensures !sudo ==> line == command
      ensures sudo ==> Read(line) == Some(SUDO_WORDS + [StripNul(command)])
    {
      if sudo then
        StripNulRemoves(command);
        SudoPassesCommand(StripNul(command));
        SudoIsSpaced();
        "sudo -n sh -c " + Quote(StripNul(command))
      else command
    }

    /** Opt in to root once `sudo -n id -u`, sent as this client would, has answered
        zero; otherwise nothing changes. */
    method EnableSudo(id: string -> Option<string>) returns (ok: bool)
      modifies this
      ensures ok <==> user == "root" || old(sudo) || (id("sudo -n id -u").Some? && TrimSpace(id("sudo -n id -u").value) == "0")
      ensures sudo <==> old(sudo) || (ok && user != "root")
    {
      if user == "root" || sudo { return true; }
      var out := id(Command("sudo -n id -u"));
      if out.None? || TrimSpace(out.value) != "0" { return false; }
      sudo := true;
      ok := true;
    }
  }
}
