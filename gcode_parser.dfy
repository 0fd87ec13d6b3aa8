/**
 * The modal G-code line parser of gcode_parser.go. A line is split into
 * whitespace-separated tokens; a first token starting with `G` names the
 * command, otherwise the command of the previous line is repeated. The
 * remaining tokens are a letter followed by a number and override the
 * parameters of the previous line. The parser remembers the last command and
 * parameters of every line whose tokens all parse, and produces a G0 to G3
 * record for the four supported commands.
 *
 * Go's `strconv.ParseFloat` is an oracle `parseFloat` from the text of a
 * number to its value, or `None` where Go reports an error.
 */
module GCode {
  import opened Wrappers
  import opened Vectors

  // ---------------------------------------------------------------------
  // Text: the parts of Go's `strings` package the parser relies on

  /** `unicode.IsSpace`: the white-space characters `strings.Fields` and `strings.TrimSpace` split or trim at. */
  predicate IsSpace(ch: char) {
    || ch == ' ' || ('\t' <= ch <= '\r')
    || ch == '\U{85}' || ch == '\U{A0}' || ch == '\U{1680}'
    || ('\U{2000}' <= ch <= '\U{200A}')
    || ch == '\U{2028}' || ch == '\U{2029}' || ch == '\U{202F}' || ch == '\U{205F}' || ch == '\U{3000}'
  }

  predicate NoSpace(w: string) {
    forall k :: 0 <= k < |w| ==> !IsSpace(w[k])
  }

  /** The longest prefix of `s` free of white space. */
  function Word(s: string): (r: string)
    ensures |r| <= |s| && r == s[..|r|]
    ensures NoSpace(r)
    ensures |r| < |s| ==> IsSpace(s[|r|])
  {
    if s == [] || IsSpace(s[0]) then [] else [s[0]] + Word(s[1..])
  }

  /** `strings.Fields`: the maximal runs of non-space characters, in order. */
  function Fields(s: string): (r: seq<string>)
    decreases |s|
    ensures forall k :: 0 <= k < |r| ==> r[k] != [] && NoSpace(r[k])
  {
    if s == [] then []
    else if IsSpace(s[0]) then Fields(s[1..])
    else
      var w := Word(s);
      [w] + Fields(s[|w|..])
  }

  /** Words joined by single blanks. */
  function Join(ws: seq<string>): string {
    if ws == [] then []
    else if |ws| == 1 then ws[0]
    else ws[0] + " " + Join(ws[1..])
  }

  /** A word followed by nothing or by white space is the first word of the text. */
  lemma {:induction false} WordOf(w: string, rest: string)
    requires NoSpace(w) && (rest == [] || IsSpace(rest[0]))
    ensures Word(w + rest) == w
  {
    if w != [] {
      assert (w + rest)[1..] == w[1..] + rest;
      WordOf(w[1..], rest);
    } else {
      assert w + rest == rest;
    }
  }

  /** Splitting words joined by blanks gives back the words. */
  lemma {:induction false} FieldsJoin(ws: seq<string>)
    requires forall k :: 0 <= k < |ws| ==> ws[k] != [] && NoSpace(ws[k])
    ensures Fields(Join(ws)) == ws
  {
    if |ws| == 1 {
      WordOf(ws[0], []);
      assert ws[0] + [] == ws[0];
      assert ws[0][|ws[0]|..] == [];
    } else if |ws| > 1 {
      var w, tail := ws[0], Join(ws[1..]);
      var s := w + " " + tail;
      assert s == w + (" " + tail);
      WordOf(w, " " + tail);
      assert s[0] == w[0];
      assert s[|w|..] == " " + tail;
      assert (" " + tail)[1..] == tail;
      FieldsJoin(ws[1..]);
    }
  }

  /** The index of the first character at or after `i` that is not white space, or the length. */
  function SpanStart(s: string, i: nat): (r: nat)
    requires i <= |s|
    decreases |s| - i
    ensures i <= r <= |s|
    ensures forall k :: i <= k < r ==> IsSpace(s[k])
    ensures r == |s| || !IsSpace(s[r])
  {
    if i < |s| && IsSpace(s[i]) then SpanStart(s, i + 1) else i
  }

  /** The index just past the last character before `hi`, and not before `lo`, that is not white space, or `lo`. */
  function SpanEnd(s: string, lo: nat, hi: nat): (r: nat)
    requires lo <= hi <= |s|
    decreases hi
    ensures lo <= r <= hi
    ensures forall k :: r <= k < hi ==> IsSpace(s[k])
    ensures r == lo || !IsSpace(s[r - 1])
  {
    if lo < hi && IsSpace(s[hi - 1]) then SpanEnd(s, lo, hi - 1) else hi
  }

  /**
   * `strings.TrimSpace`: the slice of `s` that neither starts nor ends with
   * white space and outside which there is only white space.
   */
  function TrimSpace(s: string): (r: string)
    ensures r == [] || (!IsSpace(r[0]) && !IsSpace(r[|r| - 1]))
    ensures var i := SpanStart(s, 0);
      var j := SpanEnd(s, i, |s|);
      && r == s[i..j]
      && (forall k :: 0 <= k < i ==> IsSpace(s[k]))
      && (forall k :: j <= k < |s| ==> IsSpace(s[k]))
  {
    var i := SpanStart(s, 0);
    s[i..SpanEnd(s, i, |s|)]
  }

  /** Trimming a second time changes nothing. */
  lemma TrimSpaceIdempotent(s: string)
    ensures TrimSpace(TrimSpace(s)) == TrimSpace(s)
  {
    var r := TrimSpace(s);
    assert SpanStart(r, 0) == 0;
    assert SpanEnd(r, 0, |r|) == |r|;
    assert r[0..|r|] == r;
  }

  /** `strings.HasPrefix`: `s` starts with `prefix`, character by character. */
  predicate HasPrefix(s: string, prefix: string): (r: bool)
    ensures r <==> |prefix| <= |s| && forall k :: 0 <= k < |prefix| ==> s[k] == prefix[k]
    ensures r ==> s == prefix + s[|prefix|..]
  {
    |prefix| <= |s| && s[..|prefix|] == prefix
  }

  /**
   * The rule `Parse` applies to each trimmed line before parsing it: blank
   * lines and lines starting with `;`, `(` or `%` are skipped.
   */
  predicate Skipped(line: string): (r: bool)
    ensures r <==> line == [] || HasPrefix(line, ";") || HasPrefix(line, "(") || HasPrefix(line, "%")
    ensures !r && !IsSpace(line[0]) ==> Fields(line) != []
  {
    line == [] || line[0] == ';' || line[0] == '(' || line[0] == '%'
  }

  // ---------------------------------------------------------------------
  // Commands and errors

  /** The records `parseCommand` returns for the four supported commands; an arc has no K offset. */
  datatype Command =
    | G0(x: real, y: real, z: real)
    | G1(x: real, y: real, z: real, f: real)
    | G2(x: real, y: real, z: real, i: real, j: real, f: real)
    | G3(x: real, y: real, z: real, i: real, j: real, f: real)

  /** The command word a record stands for. */
  function Name(c: Command): string {
    match c
    case G0(_, _, _) => "G0"
    case G1(_, _, _, _) => "G1"
    case G2(_, _, _, _, _, _) => "G2"
    case G3(_, _, _, _, _, _) => "G3"
  }

  /** The errors `parseCommand` reports, with the text its message quotes. */
  datatype ParseError =
    | EmptyLine
    | InvalidToken(token: string)
    | InvalidValue(value: string)
    | UnsupportedCommand(command: string)

  /** A Go map lookup: a letter that was never given reads as 0. */
  function Lookup(params: map<string, real>, key: string): (r: real)
    ensures key !in params ==> r == 0.0
    ensures key in params ==> r == params[key]
  {
    if key in params then params[key] else 0.0
  }

  /**
   * The switch at the end of `parseCommand` (lines 93-107): a record for G0
   * to G3 filled from the parameters, and an error naming any other command.
   */
  function CommandOf(cmd: string, params: map<string, real>): (r: Result<Command, ParseError>)
    ensures r.Success? <==> cmd == "G0" || cmd == "G1" || cmd == "G2" || cmd == "G3"
    ensures r.Failure? ==> r.error == UnsupportedCommand(cmd)
    ensures r.Success? ==> Name(r.value) == cmd
    ensures r.Success? ==>
      r.value.x == Lookup(params, "X") && r.value.y == Lookup(params, "Y") && r.value.z == Lookup(params, "Z")
    ensures r.Success? && !r.value.G0? ==> r.value.f == Lookup(params, "F")
    ensures r.Success? && (r.value.G2? || r.value.G3?) ==>
      r.value.i == Lookup(params, "I") && r.value.j == Lookup(params, "J")
  {
    var x, y, z := Lookup(params, "X"), Lookup(params, "Y"), Lookup(params, "Z");
    if cmd == "G0" then Success(G0(x, y, z))
    else if cmd == "G1" then Success(G1(x, y, z, Lookup(params, "F")))
    else if cmd == "G2" then Success(G2(x, y, z, Lookup(params, "I"), Lookup(params, "J"), Lookup(params, "F")))
    else if cmd == "G3" then Success(G3(x, y, z, Lookup(params, "I"), Lookup(params, "J"), Lookup(params, "F")))
    else Failure(UnsupportedCommand(cmd))
  }

  // ---------------------------------------------------------------------
  // Parameters

  /** The parameter a token sets: its first character. */
  function Key(token: string): string {
    if token == [] then [] else [token[0]]
  }

  /** What is wrong with a parameter token, if anything: it is too short, or its value does not parse. */
  function TokenError(token: string, parseFloat: string -> Option<real>): (r: Option<ParseError>)
    ensures r.None? <==> |token| >= 2 && parseFloat(token[1..]).Some?
  {
    if |token| < 2 then Some(InvalidToken(token))
    else if parseFloat(token[1..]).None? then Some(InvalidValue(token[1..]))
    else None
  }

  /** The value a well-formed token gives its parameter. */
  function Value(token: string, parseFloat: string -> Option<real>): real
    requires TokenError(token, parseFloat).None?
  {
    parseFloat(token[1..]).value
  }

  predicate WellFormed(tokens: seq<string>, parseFloat: string -> Option<real>) {
    forall k :: 0 <= k < |tokens| ==> TokenError(tokens[k], parseFloat).None?
  }

  /**
   * The token loop of `parseCommand` (lines 77-88): token by token, either
   * stop at the first bad one or set its parameter.
   */
  function Assign(params: map<string, real>, tokens: seq<string>, parseFloat: string -> Option<real>)
    : (r: Result<map<string, real>, ParseError>)
    decreases |tokens|
    ensures r.Success? ==> params.Keys <= r.value.Keys
    ensures r.Success? ==> forall k :: 0 <= k < |tokens| ==> Key(tokens[k]) in r.value
    ensures r.Failure? ==> exists k :: 0 <= k < |tokens| && TokenError(tokens[k], parseFloat) == Some(r.error)
  {
    if tokens == [] then Success(params)
    else
      match TokenError(tokens[0], parseFloat)
      case Some(e) => Failure(e)
      case None => Assign(params[Key(tokens[0]) := Value(tokens[0], parseFloat)], tokens[1..], parseFloat)
  }

  /**
   * The parameters a list of well-formed tokens sets on its own: each
   * token's letter with its value, a later token overriding an earlier one.
   */
  function Overrides(tokens: seq<string>, parseFloat: string -> Option<real>): (r: map<string, real>)
    requires WellFormed(tokens, parseFloat)
    ensures r.Keys == set k | 0 <= k < |tokens| :: Key(tokens[k])
  {
    if tokens == [] then map[]
    else
      var rest := Overrides(tokens[1..], parseFloat);
      assert forall k :: 1 <= k < |tokens| ==> Key(tokens[k]) == Key(tokens[1..][k - 1]);
      map[Key(tokens[0]) := Value(tokens[0], parseFloat)] + rest
  }

  /** The loop succeeds exactly when all tokens are well formed. */
  lemma {:induction false} AssignSucceeds(params: map<string, real>, tokens: seq<string>,
                                          parseFloat: string -> Option<real>)
    decreases |tokens|
    ensures Assign(params, tokens, parseFloat).Success? <==> WellFormed(tokens, parseFloat)
  {
    if tokens != [] && TokenError(tokens[0], parseFloat).None? {
      AssignSucceeds(params[Key(tokens[0]) := Value(tokens[0], parseFloat)], tokens[1..], parseFloat);
      assert forall k :: 1 <= k < |tokens| ==> tokens[k] == tokens[1..][k - 1];
    }
  }

  /** When it succeeds, the loop leaves the old parameters overridden by those of the tokens. */
  lemma {:induction false} AssignOverrides(params: map<string, real>, tokens: seq<string>,
                                           parseFloat: string -> Option<real>)
    requires WellFormed(tokens, parseFloat)
    decreases |tokens|
    ensures Assign(params, tokens, parseFloat) == Success(params + Overrides(tokens, parseFloat))
  {
    if tokens == [] {
      assert params + map[] == params;
    } else {
      var key, v := Key(tokens[0]), Value(tokens[0], parseFloat);
      assert WellFormed(tokens[1..], parseFloat) by {
        assert forall k :: 0 <= k < |tokens| - 1 ==> tokens[1..][k] == tokens[k + 1];
      }
      AssignOverrides(params[key := v], tokens[1..], parseFloat);
      UpdateThenOverride(params, key, v, Overrides(tokens[1..], parseFloat));
    }
  }

  /** Proof aid (map algebra, no counterpart in the Go code): setting one entry and then overriding is overriding with that entry first. */
  lemma UpdateThenOverride(params: map<string, real>, key: string, v: real, rest: map<string, real>)
    ensures params[key := v] + rest == params + (map[key := v] + rest)
  {
  }

  /** The loop stops with the error of the first bad token. */
  lemma {:induction false} AssignFirstError(params: map<string, real>, tokens: seq<string>,
                                            parseFloat: string -> Option<real>, j: int)
    requires 0 <= j < |tokens| && TokenError(tokens[j], parseFloat).Some?
    requires WellFormed(tokens[..j], parseFloat)
    decreases j
    ensures Assign(params, tokens, parseFloat) == Failure(TokenError(tokens[j], parseFloat).value)
  {
    if j > 0 {
      assert tokens[..j][0] == tokens[0];
      assert tokens[1..][..j - 1] == tokens[..j][1..];
      assert tokens[1..][j - 1] == tokens[j];
      AssignFirstError(params[Key(tokens[0]) := Value(tokens[0], parseFloat)], tokens[1..], parseFloat, j - 1);
    }
  }

  /** Among tokens for the same parameter, the last one wins. */
  lemma {:induction false} LaterTokenWins(tokens: seq<string>, parseFloat: string -> Option<real>, j: int)
    requires WellFormed(tokens, parseFloat) && 0 <= j < |tokens|
    requires forall m :: j < m < |tokens| ==> Key(tokens[m]) != Key(tokens[j])
    ensures Overrides(tokens, parseFloat)[Key(tokens[j])] == Value(tokens[j], parseFloat)
  {
    var rest := tokens[1..];
    if j == 0 {
      assert Key(tokens[0]) !in Overrides(rest, parseFloat) by {
        assert forall k :: 0 <= k < |rest| ==> rest[k] == tokens[k + 1];
      }
    } else {
      assert rest[j - 1] == tokens[j];
      LaterTokenWins(rest, parseFloat, j - 1);
    }
  }

  // ---------------------------------------------------------------------
  // One line

  /** What the parser remembers between lines: `lastCmd` and `lastParams`. */
  datatype ParserState = ParserState(lastCmd: string, lastParams: map<string, real>)

  /** The parser's state before its first line: no command and no parameters. */
  const Initial := ParserState("", map[])

  /** The outcome of parsing one line: the command or error, and the state after it. */
  datatype LineOutcome = LineOutcome(result: Result<Command, ParseError>, state: ParserState)

  /**
   * The command of a line and its parameter tokens (lines 65-70): the
   * first token when it starts with `G`, which is then no parameter, and
   * otherwise the last command, with every token a parameter.
   */
  function Split(lastCmd: string, tokens: seq<string>): (r: (string, seq<string>))
    requires tokens != []
    ensures HasPrefix(tokens[0], "G") ==> r.0 == tokens[0] && tokens == [r.0] + r.1
    ensures !HasPrefix(tokens[0], "G") ==> r.0 == lastCmd && tokens == r.1
  {
    if HasPrefix(tokens[0], "G") then (tokens[0], tokens[1..]) else (lastCmd, tokens)
  }

  /**
   * `parseCommand` on values (lines 59-108). A produced record is of the
   * command the parser now remembers, and the state changes only when every
   * token parses.
   */
  function ParseLine(st: ParserState, line: string, parseFloat: string -> Option<real>): (r: LineOutcome)
    ensures r.result.Success? ==> Name(r.result.value) == r.state.lastCmd
    ensures r.state == st || r.result.Success? || r.result.error.UnsupportedCommand?
  {
    var tokens := Fields(line);
    if tokens == [] then LineOutcome(Failure(EmptyLine), st)
    else
      var (cmd, args) := Split(st.lastCmd, tokens);
      match Assign(st.lastParams, args, parseFloat)
      case Failure(e) => LineOutcome(Failure(e), st)
      case Success(params) => LineOutcome(CommandOf(cmd, params), ParserState(cmd, params))
  }

  /**
   * The outcome of a line, case by case: a blank line is an error that
   * keeps the state; a line whose parameter tokens all parse remembers its
   * command and the old parameters overridden by its own, and yields the
   * record for that command or an unsupported-command error; otherwise the
   * first bad token is the error and the state is kept.
   */
  lemma ParseLineCases(st: ParserState, line: string, parseFloat: string -> Option<real>)
    ensures Fields(line) == [] ==> ParseLine(st, line, parseFloat) == LineOutcome(Failure(EmptyLine), st)
    ensures Fields(line) != [] ==>
      var (cmd, args) := Split(st.lastCmd, Fields(line));
      && (WellFormed(args, parseFloat) ==>
            var params := st.lastParams + Overrides(args, parseFloat);
            ParseLine(st, line, parseFloat) == LineOutcome(CommandOf(cmd, params), ParserState(cmd, params)))
      && (forall j :: 0 <= j < |args| && TokenError(args[j], parseFloat).Some? && WellFormed(args[..j], parseFloat) ==>
            ParseLine(st, line, parseFloat) == LineOutcome(Failure(TokenError(args[j], parseFloat).value), st))
  {
    if Fields(line) != [] {
      var (cmd, args) := Split(st.lastCmd, Fields(line));
      if WellFormed(args, parseFloat) {
        AssignOverrides(st.lastParams, args, parseFloat);
      }
      forall j | 0 <= j < |args| && TokenError(args[j], parseFloat).Some? && WellFormed(args[..j], parseFloat)
        ensures ParseLine(st, line, parseFloat) == LineOutcome(Failure(TokenError(args[j], parseFloat).value), st)
      {
        AssignFirstError(st.lastParams, args, parseFloat, j);
      }
    }
  }

  /** A line without a command word keeps the modal command, and a record it yields is of that command. */
  lemma ModalLine(st: ParserState, line: string, parseFloat: string -> Option<real>)
    requires Fields(line) != [] && !HasPrefix(Fields(line)[0], "G")
    ensures ParseLine(st, line, parseFloat).state.lastCmd == st.lastCmd
    ensures ParseLine(st, line, parseFloat).result.Success? ==>
      Name(ParseLine(st, line, parseFloat).result.value) == st.lastCmd
  {
  }

  /** Parsing the same line again gives the same record or error and the same state. */
  lemma ParseLineRepeat(st: ParserState, line: string, parseFloat: string -> Option<real>)
    ensures var once := ParseLine(st, line, parseFloat);
      ParseLine(once.state, line, parseFloat) == once
  {
    var tokens := Fields(line);
    if tokens != [] {
      var (cmd, args) := Split(st.lastCmd, tokens);
      AssignSucceeds(st.lastParams, args, parseFloat);
      if WellFormed(args, parseFloat) {
        var ov := Overrides(args, parseFloat);
        AssignOverrides(st.lastParams, args, parseFloat);
        AssignOverrides(st.lastParams + ov, args, parseFloat);
        OverrideTwice(st.lastParams, ov);
        assert Split(cmd, tokens) == (cmd, args);
      }
    }
  }

  /** Proof aid (map algebra, no counterpart in the Go code): overriding twice with the same entries is overriding once. */
  lemma OverrideTwice<K, V>(m: map<K, V>, ov: map<K, V>)
    ensures (m + ov) + ov == m + ov
  {
  }

  // ---------------------------------------------------------------------
  // A file

  /** What parsing a sequence of lines yields: the commands in order, and the parser's state after them. */
  datatype Batch = Batch(commands: seq<Command>, state: ParserState)

  /**
   * What one line of the file contributes in the scanning loop of `Parse`
   * (lines 123-134): nothing when the trimmed line is skipped; otherwise the
   * trimmed line is parsed, and it contributes its command if it has one.
   * A line with an error contributes no command but may change the state.
   */
  function Feed(st: ParserState, raw: string, parseFloat: string -> Option<real>): (r: Batch)
    ensures |r.commands| <= 1
    ensures Skipped(TrimSpace(raw)) ==> r == Batch([], st)
  {
    var line := TrimSpace(raw);
    if Skipped(line) then Batch([], st)
    else
      var o := ParseLine(st, line, parseFloat);
      Batch(if o.result.Success? then [o.result.value] else [], o.state)
  }

  /** The scanning loop of `Parse` (lines 122-135) over the lines of a file, in order. */
  function ParseLines(st: ParserState, lines: seq<string>, parseFloat: string -> Option<real>): (r: Batch)
    ensures |r.commands| <= |lines|
  {
    if lines == [] then Batch([], st)
    else
      var front := ParseLines(st, lines[..|lines| - 1], parseFloat);
      var last := Feed(front.state, lines[|lines| - 1], parseFloat);
      Batch(front.commands + last.commands, last.state)
  }

  /** A file of blank and comment lines yields no command and leaves the parser as it was. */
  lemma {:induction false} CommentsOnly(st: ParserState, lines: seq<string>, parseFloat: string -> Option<real>)
    requires forall k :: 0 <= k < |lines| ==> Skipped(TrimSpace(lines[k]))
    ensures ParseLines(st, lines, parseFloat) == Batch([], st)
  {
    if lines != [] {
      var front := lines[..|lines| - 1];
      assert forall k :: 0 <= k < |front| ==> front[k] == lines[k];
      CommentsOnly(st, front, parseFloat);
    }
  }

  /** Parsing two pieces of a file in turn is parsing the whole file. */
  lemma {:induction false} ParseLinesConcat(st: ParserState, a: seq<string>, b: seq<string>,
                                            parseFloat: string -> Option<real>)
    ensures var first := ParseLines(st, a, parseFloat);
      var second := ParseLines(first.state, b, parseFloat);
      ParseLines(st, a + b, parseFloat) == Batch(first.commands + second.commands, second.state)
    decreases |b|
  {
    var first := ParseLines(st, a, parseFloat);
    if b == [] {
      assert a + b == a;
      assert first.commands + [] == first.commands;
    } else {
      var front := b[..|b| - 1];
      assert (a + b)[..|a + b| - 1] == a + front;
      assert (a + b)[|a + b| - 1] == b[|b| - 1];
      ParseLinesConcat(st, a, front, parseFloat);
      var middle := ParseLines(first.state, front, parseFloat);
      var last := Feed(middle.state, b[|b| - 1], parseFloat);
      AppendAssociative(first.commands, middle.commands, last.commands);
    }
  }

  /** Proof aid (sequence algebra, no counterpart in the Go code): concatenation is associative. */
  lemma AppendAssociative<T>(x: seq<T>, y: seq<T>, z: seq<T>)
    ensures (x + y) + z == x + (y + z)
  {
  }

  class GCodeParser {
    var lastCmd: string
    var previousPosition: Vector3d
    var previousFeedrate: real
    var lastParams: map<string, real>

    function State(): ParserState
      reads this
    {
      ParserState(lastCmd, lastParams)
    }

    /** `NewGCodeParser`: every field at its zero value. */
    constructor()
      ensures State() == Initial
      ensures previousPosition == Origin && previousFeedrate == 0.0
    {
      lastCmd := "";
      previousPosition := Origin;
      previousFeedrate := 0.0;
      lastParams := map[];
    }

    /**
     * `parseCommand`: parses one line, remembering its command and
     * parameters once all its tokens parse.
     */
    method ParseCommand(line: string, parseFloat: string -> Option<real>) returns (r: Result<Command, ParseError>)
      modifies this
      ensures LineOutcome(r, State()) == ParseLine(old(State()), line, parseFloat)
      ensures previousPosition == old(previousPosition) && previousFeedrate == old(previousFeedrate)
    {
      var tokens := Fields(line);
      if |tokens| < 1 {
        return Failure(EmptyLine);
      }
      var cmd := tokens[0];
      if !HasPrefix(cmd, "G") {
        cmd := lastCmd;
      } else {
        tokens := tokens[1..];
      }
      var params := lastParams;
      for k := 0 to |tokens|
        invariant Assign(lastParams, tokens, parseFloat) == Assign(params, tokens[k..], parseFloat)
      {
        var token := tokens[k];
        assert tokens[k..][0] == token && tokens[k..][1..] == tokens[k + 1..];
        if |token| < 2 {
          return Failure(InvalidToken(token));
        }
        var val := parseFloat(token[1..]);
        if val.None? {
          return Failure(InvalidValue(token[1..]));
        }
        params := params[[token[0]] := val.value];
      }
      lastCmd := cmd;
      lastParams := params;
      r := CommandOf(cmd, params);
    }

    /**
     * `Parse`, on the lines of the file: the commands of the lines that
     * are not skipped and parse, in order. Go prints them where this
     * returns them.
     */
    method Parse(lines: seq<string>, parseFloat: string -> Option<real>) returns (commands: seq<Command>)
      modifies this
      ensures Batch(commands, State()) == ParseLines(old(State()), lines, parseFloat)
      ensures previousPosition == old(previousPosition) && previousFeedrate == old(previousFeedrate)
    {
      ghost var st0 := State();
      commands := [];
      for k := 0 to |lines|
        invariant previousPosition == old(previousPosition) && previousFeedrate == old(previousFeedrate)
        invariant Batch(commands, State()) == ParseLines(st0, lines[..k], parseFloat)
      {
        ghost var before := State();
        ghost var done := commands;
        assert lines[..k + 1][..k] == lines[..k];
        var line := TrimSpace(lines[k]);
        if Skipped(line) {
          assert done + [] == done;
          continue;
        }
        var command := ParseCommand(line, parseFloat);
        if command.Failure? {
          assert done + [] == done;
          continue;
        }
        commands := commands + [command.value];
      }
      assert lines[..|lines|] == lines;
    }
  }
}
