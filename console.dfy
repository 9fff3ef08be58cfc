/** The debug console's command line: choosing a command by its first word, the argument
    checks of the individual commands, the sprite range parser, the memory-dump argument
    pairing and the search of a listing for an address. Evaluating expressions and looking
    up labels belong to other components; they come in as functions. */
module DebugConsole {
  import opened Common
  import opened JsStrings

  // ---- Dispatch ----

  datatype Command = Help | Logpoint | Assert | Eval | Exec | Label | MemDump | Patterns | Wpmem | Sprites | State | Debug

  /** The command a first word selects, or `None` for an unknown one. */
  function CommandFor(word: string): (c: Option<Command>)
    ensures c.Some? ==> |word| >= 2 && word[0] == '-' && ' ' !in word
  {
    if word == "-help" || word == "-h" then Some(Help)
    else if word == "-LOGPOINT" || word == "-logpoint" then Some(Logpoint)
    else if word == "-ASSERT" || word == "-assert" then Some(Assert)
    else if word == "-eval" then Some(Eval)
    else if word == "-exec" || word == "-e" then Some(Exec)
    else if word == "-label" || word == "-l" then Some(Label)
    else if word == "-md" then Some(MemDump)
    else if word == "-patterns" then Some(Patterns)
    else if word == "-WPMEM" || word == "-wpmem" then Some(Wpmem)
    else if word == "-sprites" then Some(Sprites)
    else if word == "-state" then Some(State)
    else if word == "-dbg" then Some(Debug)
    else None
  }

  /** The spellings each command accepts, as the help text lists them. */
  function Aliases(c: Command): set<string>
  {
    match c
    case Help => {"-help", "-h"}
    case Logpoint => {"-LOGPOINT", "-logpoint"}
    case Assert => {"-ASSERT", "-assert"}
    case Eval => {"-eval"}
    case Exec => {"-exec", "-e"}
    case Label => {"-label", "-l"}
    case MemDump => {"-md"}
    case Patterns => {"-patterns"}
    case Wpmem => {"-WPMEM", "-wpmem"}
    case Sprites => {"-sprites"}
    case State => {"-state"}
    case Debug => {"-dbg"}
  }

  /** A word selects a command exactly when it is one of that command's spellings. */
  lemma CommandForAliases(word: string, c: Command)
    ensures CommandFor(word) == Some(c) <==> word in Aliases(c)
  {
  }

  /** A command line split into the selected command and its argument words. */
  datatype Request = Request(command: Command, args: seq<string>)

  /** `evaluateCommand`: trims the line, splits it at every space and dispatches on the
      first word; anything else is an unknown command, quoted as trimmed. */
  function ParseCommand(command: string): (r: Result<Request>)
    ensures r.Err? ==> r == Err(Thrown("Unknown command: '" + Trim(command) + "'"))
    ensures r.Ok? ==> forall a <- r.value.args :: ' ' !in a
    ensures r.Ok? ==> exists w :: w in Aliases(r.value.command) && Join([w] + r.value.args, " ") == Trim(command)
  {
    var expression := Trim(command);
    var tokens := Split(expression, ' ');
    match CommandFor(tokens[0])
    case None => Err(Thrown("Unknown command: '" + expression + "'"))
    case Some(c) =>
      CommandForAliases(tokens[0], c);
      assert tokens == [tokens[0]] + tokens[1..];
      Ok(Request(c, tokens[1..]))
  }

  /** White space around a command line makes no difference. */
  lemma ParseCommandTrimmed(command: string)
    ensures ParseCommand(Trim(command)) == ParseCommand(command)
  {
    TrimIdempotent(command);
  }

  /** A command word followed by space-separated arguments selects that command with
      exactly those arguments. */
  lemma {:induction false} ParseCommandWords(word: string, c: Command, args: seq<string>)
    requires word in Aliases(c)
    requires forall a <- args :: ' ' !in a
    requires Trim(Join([word] + args, " ")) == Join([word] + args, " ")
    ensures ParseCommand(Join([word] + args, " ")) == Ok(Request(c, args))
  {
    CommandForAliases(word, c);
    var words := [word] + args;
    assert forall a <- words :: ' ' !in a;
    SplitJoin(words, ' ');
    assert words[1..] == args;
  }

  // ---- Argument checks ----

  /** `tokens[k]||''`: the k-th argument, or empty when it is missing. */
  function Arg(tokens: seq<string>, k: nat): string
  {
    if k < |tokens| then tokens[k] else ""
  }

  /** `s||d`: the string, or the default when it is empty. */
  function OrDefault(s: string, d: string): string
  {
    if s == "" then d else s
  }

  function UnknownArgument(param: string): Failure
  {
    Thrown("Unknown argument: '" + param + "'")
  }

  /** The argument of `-ASSERT`, `-WPMEM` and `-LOGPOINT`. */
  datatype Switch = Enable | Disable | Status

  function SwitchWord(s: Switch): string
  {
    match s
    case Enable => "enable"
    case Disable => "disable"
    case Status => "status"
  }

  /** The first argument of `-ASSERT`, `-WPMEM` and `-LOGPOINT`: enable, disable or
      status, anything else (a missing one included) is an unknown argument. */
  function SwitchArg(tokens: seq<string>): (r: Result<Switch>)
    ensures r.Ok? ==> tokens != [] && SwitchWord(r.value) == tokens[0]
    ensures r.Err? ==> r == Err(UnknownArgument(Arg(tokens, 0)))
  {
    var param := Arg(tokens, 0);
    if param == "enable" then Ok(Enable)
    else if param == "disable" then Ok(Disable)
    else if param == "status" then Ok(Status)
    else Err(UnknownArgument(param))
  }

  /** Every switch word is accepted, whatever follows it. */
  lemma SwitchArgAccepts(s: Switch, rest: seq<string>)
    ensures SwitchArg([SwitchWord(s)] + rest) == Ok(s)
  {
  }

  /** Whether a switch turns the setting on, off, or leaves it as it was. */
  function Switched(s: Switch, enabled: bool): bool
  {
    match s
    case Enable => true
    case Disable => false
    case Status => enabled
  }

  /** `-ASSERT` and `-WPMEM`: the setting after the command and the status line it
      reports, given the setting before (the WPMEM watchpoint list is not modelled). */
  function SwitchCommand(tokens: seq<string>, what: string, enabled: bool): (r: Result<(bool, string)>)
    ensures r.Ok? <==> SwitchArg(tokens).Ok?
    ensures r.Ok? ==> r.value.0 == (SwitchWord(SwitchArg(tokens).value) == "enable"
                                    || (SwitchWord(SwitchArg(tokens).value) == "status" && enabled))
    ensures r.Ok? ==> r.value.1 == what + " watchpoints are " + (if r.value.0 then "enabled" else "disabled") + ".\n"
  {
    match SwitchArg(tokens)
    case Err(f) => Err(f)
    case Ok(s) =>
      var now := Switched(s, enabled);
      Ok((now, what + " watchpoints are " + (if now then "enabled" else "disabled") + ".\n"))
  }

  /** `-LOGPOINT`: the switch and the group it is for; `None` is every group. */
  function LogpointCommand(tokens: seq<string>): (r: Result<(Switch, Option<string>)>)
    ensures r.Ok? <==> SwitchArg(tokens).Ok?
    ensures r.Ok? ==> r.value.0 == SwitchArg(tokens).value
    ensures r.Ok? ==> (r.value.1.Some? <==> |tokens| >= 2) && (|tokens| >= 2 ==> r.value.1 == Some(tokens[1]))
  {
    match SwitchArg(tokens)
    case Err(f) => Err(f)
    case Ok(s) => Ok((s, if |tokens| >= 2 then Some(tokens[1]) else None))
  }

  /** What `-state` asks for. */
  datatype StateAction = Save(name: string) | Restore(name: string) | List | ClearAll | Clear(name: string)

  const NAME_MISSING := "Parameter missing: " + "You need to add a name for the state, e.g. '0', '1' or more descriptive 'start'"

  /** The words that ask for an action. */
  function StateWords(a: StateAction): seq<string>
  {
    match a
    case Save(name) => ["save", name]
    case Restore(name) => ["restore", name]
    case List => ["list"]
    case ClearAll => ["clearall"]
    case Clear(name) => ["clear", name]
  }

  /** `-state`: save, restore and clear need a non-empty name, list and clearall do not;
      any other argument is unknown. */
  function StateCommand(tokens: seq<string>): (r: Result<StateAction>)
    ensures r.Ok? ==> StateWords(r.value) <= tokens
    ensures r.Ok? && (r.value.Save? || r.value.Restore? || r.value.Clear?) ==> r.value.name != ""
    ensures r.Err? ==> r == Err(Thrown(NAME_MISSING)) || r == Err(UnknownArgument(Arg(tokens, 0)))
    ensures r == Err(Thrown(NAME_MISSING)) <==>
      Arg(tokens, 0) in {"save", "restore", "clear"} && Arg(tokens, 1) == ""
    ensures r == Err(UnknownArgument(Arg(tokens, 0))) <==>
      Arg(tokens, 0) !in {"save", "restore", "list", "clearall", "clear"}
  {
    var param := Arg(tokens, 0);
    var stateName := Arg(tokens, 1);
    if stateName == "" && (param == "save" || param == "restore" || param == "clear") then
      Err(Thrown(NAME_MISSING))
    else if param == "save" then Ok(Save(stateName))
    else if param == "restore" then Ok(Restore(stateName))
    else if param == "list" then Ok(List)
    else if param == "clearall" then Ok(ClearAll)
    else if param == "clear" then Ok(Clear(stateName))
    else
      assert UnknownArgument(param).message[0] == 'U' && NAME_MISSING[0] == 'P';
      Err(UnknownArgument(param))
  }

  /** The words of an action read back as that action, whatever words follow them. */
  lemma StateCommandWords(a: StateAction, rest: seq<string>)
    requires (a.Save? || a.Restore? || a.Clear?) ==> a.name != ""
    ensures StateCommand(StateWords(a) + rest) == Ok(a)
  {
    var w := StateWords(a);
    assert Arg(w + rest, 0) == w[0];
    assert |w| == 2 ==> Arg(w + rest, 1) == w[1];
  }

  /** Save, restore or clear with an empty or missing name is refused, whatever follows. */
  lemma StateNameMissing(tokens: seq<string>)
    requires Arg(tokens, 0) in {"save", "restore", "clear"} && Arg(tokens, 1) == ""
    ensures StateCommand(tokens) == Err(Thrown(NAME_MISSING))
  {
  }

  /** `-dbg` has no arguments left: each one is refused. */
  function DebugCommand(tokens: seq<string>): (r: Result<()>)
    ensures r.Err? && r.failure.Thrown?
  {
    Err(UnknownArgument(Arg(tokens, 0)))
  }

  /** `-exec [-view] cmd args`: whether the output goes to a view, and the command line
      passed on. */
  function ExecCommand(tokens: seq<string>): (r: (bool, string))
    ensures r.0 <==> tokens != [] && tokens[0] == "-view"
    ensures Join(tokens, " ") == if r.0 then Join(["-view"] + (if |tokens| > 1 then [r.1] else []), " ") else r.1
    ensures r.0 && |tokens| == 1 ==> r.1 == ""
  {
    if tokens != [] && tokens[0] == "-view" then (true, Join(tokens[1..], " ")) else (false, Join(tokens, " "))
  }

  // ---- -eval ----

  /** How `-eval` shows a value: decimal, upper-case hexadecimal with an `h`, binary with a
      `b`, then the labels for the value, if any. */
  function Describe(v: int, labels: seq<string>): string
  {
    RadixString(v, 10) + ", " + HexOnward(v, labels)
  }

  function HexOnward(v: int, labels: seq<string>): string
  {
    ToUpperAscii(RadixString(v, 16)) + BinaryOnward(v, labels)
  }

  function BinaryOnward(v: int, labels: seq<string>): (s: string)
    ensures s != [] && s[0] == 'h'
  {
    "h, " + RadixString(v, 2) + "b" + (if labels == [] then "" else ", " + Join(labels, ", "))
  }

  /** `-eval expr`: the arguments joined back into the expression; an empty one is refused
      and one that cannot be evaluated fails with the evaluator's error. */
  function EvalCommand(tokens: seq<string>, evaluate: string -> Option<int>, labelsOf: int -> seq<string>): (r: Result<string>)
    ensures Trim(Join(tokens, " ")) == "" ==> r == Err(Thrown("Expression expected."))
    ensures r.Ok? <==> Trim(Join(tokens, " ")) != "" && evaluate(Trim(Join(tokens, " "))).Some?
  {
    var expr := Trim(Join(tokens, " "));
    if |expr| == 0 then Err(Thrown("Expression expected."))
    else
      match evaluate(expr)
      case None => Err(Unevaluable(expr))
      case Some(value) => Ok(Describe(value, labelsOf(value)))
  }

  /** The text `-eval` prints starts with the decimal value, and its hexadecimal field
      reads back as the value. */
  lemma EvalShowsValue(tokens: seq<string>, evaluate: string -> Option<int>, labelsOf: int -> seq<string>)
    requires EvalCommand(tokens, evaluate, labelsOf).Ok?
    ensures var v := evaluate(Trim(Join(tokens, " "))).value;
      var text := EvalCommand(tokens, evaluate, labelsOf).value;
      var k := |RadixString(v, 10)| + 2;
      k <= |text| && text[..k] == RadixString(v, 10) + ", " && ParseIntHex(text[k..]) == Some(v)
  {
    var v := evaluate(Trim(Join(tokens, " "))).value;
    DescribeShowsValue(v, labelsOf(v));
  }

  lemma DescribeShowsValue(v: int, labels: seq<string>)
    ensures var text := Describe(v, labels);
      var k := |RadixString(v, 10)| + 2;
      k <= |text| && text[..k] == RadixString(v, 10) + ", " && ParseIntHex(text[k..]) == Some(v)
  {
    var dec := RadixString(v, 10) + ", ";
    var text := Describe(v, labels);
    assert text[..|dec|] == dec && text[|dec|..] == HexOnward(v, labels);
    HexTextParses(v, BinaryOnward(v, labels));
  }

  // ---- Sprite ranges ----

  /** What `/([^+-]*)(([-+])(.*))?/` captures in a token: the start text, the sign if one
      follows, and the text after the sign up to the first line terminator. */
  datatype RangeMatch = RangeMatch(start: string, sign: Option<char>, tail: string)

  /** The whole match (`match[0]`). */
  function Whole(m: RangeMatch): string
  {
    m.start + (if m.sign.Some? then [m.sign.value] + m.tail else "")
  }

  predicate IsSign(c: char)
  {
    c == '+' || c == '-'
  }

  /** Position of the first sign, or the length when there is none. */
  function SignIndex(s: string): (k: nat)
    ensures k <= |s| && (forall j :: 0 <= j < k ==> !IsSign(s[j])) && (k < |s| ==> IsSign(s[k]))
  {
    if s == [] || IsSign(s[0]) then 0 else 1 + SignIndex(s[1..])
  }

  /** Position of the first line terminator, or the length when there is none. */
  function LineEnd(s: string): (k: nat)
    ensures k <= |s| && (forall j :: 0 <= j < k ==> !IsLineTerminator(s[j])) && (k < |s| ==> IsLineTerminator(s[k]))
  {
    if s == [] || IsLineTerminator(s[0]) then 0 else 1 + LineEnd(s[1..])
  }

  /** The regular-expression match of a range token; it always matches, at the start. */
  function SplitRange(tok: string): (m: RangeMatch)
    ensures Whole(m) <= tok
    ensures forall j :: 0 <= j < |m.start| ==> !IsSign(m.start[j])
    ensures m.sign.None? <==> m.start == tok
    ensures m.sign.Some? ==> IsSign(m.sign.value)
    ensures forall j :: 0 <= j < |m.tail| ==> !IsLineTerminator(m.tail[j])
    ensures m.sign.Some? ==> |Whole(m)| == |tok| || IsLineTerminator(tok[|Whole(m)|])
  {
    var i := SignIndex(tok);
    if i == |tok| then RangeMatch(tok, None, "")
    else
      var rest := tok[i + 1..];
      var e := LineEnd(rest);
      var m := RangeMatch(tok[..i], Some(tok[i]), rest[..e]);
      assert |m.start| == i < |tok|;
      assert Whole(m) == tok[..i + 1 + e] by {
        assert tok[..i + 1 + e] == tok[..i] + [tok[i]] + rest[..e];
      }
      assert i + 1 + e < |tok| ==> tok[i + 1 + e] == rest[e];
      m
  }

  /** The start and count one range token stands for: `a` is one entry, `a+n` is n
      entries and `a-b` runs from a to b; a count below one is refused. */
  function ParseRange(tok: string, parse: string -> Option<int>): (r: Result<(int, int)>)
    ensures r.Ok? ==> r.value.1 > 0 && parse(SplitRange(tok).start) == Some(r.value.0)
    ensures var m := SplitRange(tok);
      parse(m.start).None? ==> r == Err(Thrown("Expected slot but got: '" + m.start + "'"))
    ensures var m := SplitRange(tok);
      parse(m.start).Some? && m.sign.Some? && parse(m.tail).None? ==> r == Err(Thrown("Can't parse: '" + m.tail + "'"))
  {
    var m := SplitRange(tok);
    match parse(m.start)
    case None => Err(Thrown("Expected slot but got: '" + m.start + "'"))
    case Some(start) =>
      var count :=
        if m.sign.None? then Some(1)
        else match parse(m.tail)
          case None => None
          case Some(n) => Some(if m.sign.value == '-' then n + 1 - start else n);
      if count.None? then Err(Thrown("Can't parse: '" + m.tail + "'"))
      else if count.value <= 0 then Err(Thrown("Not allowed count: '" + Whole(m) + "'"))
      else Ok((start, count.value))
  }

  predicate NoSign(s: string)
  {
    forall j :: 0 <= j < |s| ==> !IsSign(s[j])
  }

  predicate OneLine(s: string)
  {
    forall j :: 0 <= j < |s| ==> !IsLineTerminator(s[j])
  }

  lemma SplitRangePlain(a: string)
    requires NoSign(a)
    ensures SplitRange(a) == RangeMatch(a, None, "")
  {
  }

  lemma SplitRangeSigned(a: string, sign: char, b: string, rest: string)
    requires NoSign(a) && IsSign(sign) && OneLine(b)
    requires rest == [] || IsLineTerminator(rest[0])
    ensures SplitRange(a + [sign] + b + rest) == RangeMatch(a, Some(sign), b)
  {
    var tok := a + [sign] + b + rest;
    assert tok[|a|] == sign;
    assert forall j :: 0 <= j < |a| ==> tok[j] == a[j];
    assert SignIndex(tok) == |a|;
    var after := tok[|a| + 1..];
    assert tok[..|a|] == a && after == b + rest;
    assert forall j :: 0 <= j < |b| ==> after[j] == b[j];
    assert rest != [] ==> after[|b|] == rest[0];
    assert LineEnd(after) == |b|;
    assert after[..|b|] == b;
  }

  /** `a` is the single entry a. */
  lemma RangeSingle(a: string, parse: string -> Option<int>, x: int)
    requires NoSign(a) && parse(a) == Some(x)
    ensures ParseRange(a, parse) == Ok((x, 1))
  {
    SplitRangePlain(a);
  }

  /** `a+n` is n entries from a, refused unless n is positive; a line break after `n`
      ends the match, and what follows it is not read. */
  lemma RangePlus(a: string, n: string, rest: string, parse: string -> Option<int>, x: int, c: int)
    requires NoSign(a) && OneLine(n) && parse(a) == Some(x) && parse(n) == Some(c)
    requires rest == [] || IsLineTerminator(rest[0])
    ensures ParseRange(a + "+" + n + rest, parse) ==
      if c > 0 then Ok((x, c)) else Err(Thrown("Not allowed count: '" + (a + "+" + n) + "'"))
  {
    SplitRangeSigned(a, '+', n, rest);
    assert a + "+" + n + rest == a + ['+'] + n + rest;
    assert a + "+" + n == a + ['+'] + n;
    assert Whole(RangeMatch(a, Some('+'), n)) == a + "+" + n;
  }

  /** `a-b` is the entries a to b inclusive, refused unless b is at least a. */
  lemma RangeMinus(a: string, b: string, rest: string, parse: string -> Option<int>, x: int, y: int)
    requires NoSign(a) && OneLine(b) && parse(a) == Some(x) && parse(b) == Some(y)
    requires rest == [] || IsLineTerminator(rest[0])
    ensures ParseRange(a + "-" + b + rest, parse) ==
      if y >= x then Ok((x, y + 1 - x)) else Err(Thrown("Not allowed count: '" + (a + "-" + b) + "'"))
  {
    SplitRangeSigned(a, '-', b, rest);
    assert a + "-" + b + rest == a + ['-'] + b + rest;
    assert a + "-" + b == a + ['-'] + b;
    assert Whole(RangeMatch(a, Some('-'), b)) == a + "-" + b;
  }

  /** After the ranges: the two words that follow the empty one, defaulting to `0` and `1`,
      must still be values. The slot word is checked first, so its error wins. */
  function TrailingCheck(rest: seq<string>, parse: string -> Option<int>): (r: Result<()>)
    ensures var slot := OrDefault(Arg(rest, 0), "0"); var count := OrDefault(Arg(rest, 1), "1");
      (r.Ok? <==> parse(slot).Some? && parse(count).Some?)
      && (parse(slot).None? ==> r == Err(Thrown("Expected slot but got: '" + slot + "'")))
      && (parse(slot).Some? && parse(count).None? ==> r == Err(Thrown("Expected count but got: '" + count + "'")))
  {
    var slotString := OrDefault(Arg(rest, 0), "0");
    if parse(slotString).None? then Err(Thrown("Expected slot but got: '" + slotString + "'"))
    else
      var countString := OrDefault(Arg(rest, 1), "1");
      if parse(countString).None? then Err(Thrown("Expected count but got: '" + countString + "'"))
      else Ok(())
  }

  /** The ranges of `-sprites` and `-patterns`, token by token until the first empty or
      missing one, then the trailing check on what follows the empty one. */
  function RangeList(tokens: seq<string>, parse: string -> Option<int>): Result<seq<(int, int)>>
    decreases |tokens|
  {
    if tokens == [] then
      match TrailingCheck([], parse)
      case Err(f) => Err(f)
      case Ok(_) => Ok([])
    else if tokens[0] == "" then
      match TrailingCheck(tokens[1..], parse)
      case Err(f) => Err(f)
      case Ok(_) => Ok([])
    else
      match ParseRange(tokens[0], parse)
      case Err(f) => Err(f)
      case Ok(p) =>
        match RangeList(tokens[1..], parse)
        case Err(f) => Err(f)
        case Ok(ps) => Ok([p] + ps)
  }

  /** Number of tokens before the first empty one. */
  function Stop(tokens: seq<string>): (k: nat)
    ensures k <= |tokens| && (forall i :: 0 <= i < k ==> tokens[i] != "") && (k < |tokens| ==> tokens[k] == "")
  {
    if tokens == [] || tokens[0] == "" then 0 else 1 + Stop(tokens[1..])
  }

  /** What follows the first empty token. */
  function AfterStop(tokens: seq<string>): seq<string>
  {
    if Stop(tokens) < |tokens| then tokens[Stop(tokens) + 1..] else []
  }

  /** A successful parse has one pair per token before the first empty one, in order,
      each with a positive count. */
  lemma {:induction false} RangeListOk(tokens: seq<string>, parse: string -> Option<int>)
    requires RangeList(tokens, parse).Ok?
    ensures var ps := RangeList(tokens, parse).value;
      |ps| == Stop(tokens) && TrailingCheck(AfterStop(tokens), parse).Ok?
      && forall i :: 0 <= i < |ps| ==> ParseRange(tokens[i], parse) == Ok(ps[i]) && ps[i].1 > 0
    decreases |tokens|
  {
    if tokens != [] && tokens[0] != "" {
      RangeListOk(tokens[1..], parse);
      assert AfterStop(tokens) == AfterStop(tokens[1..]);
      var ps := RangeList(tokens, parse).value;
      assert forall i :: 1 <= i < |ps| ==> ps[i] == RangeList(tokens[1..], parse).value[i - 1] && tokens[i] == tokens[1..][i - 1];
    }
  }

  /** When every token up to the first empty one parses and the trailing check passes,
      the ranges are accepted. */
  lemma {:induction false} RangeListAccepts(tokens: seq<string>, parse: string -> Option<int>)
    requires forall i :: 0 <= i < Stop(tokens) ==> ParseRange(tokens[i], parse).Ok?
    requires TrailingCheck(AfterStop(tokens), parse).Ok?
    ensures RangeList(tokens, parse).Ok?
    decreases |tokens|
  {
    if tokens != [] && tokens[0] != "" {
      assert AfterStop(tokens) == AfterStop(tokens[1..]);
      assert forall i :: 0 <= i < Stop(tokens[1..]) ==> tokens[1..][i] == tokens[i + 1];
      RangeListAccepts(tokens[1..], parse);
    }
  }

  /** The first token that does not parse decides the error. */
  lemma {:induction false} RangeListFirstError(tokens: seq<string>, parse: string -> Option<int>, i: nat)
    requires i < Stop(tokens)
    requires forall j :: 0 <= j < i ==> ParseRange(tokens[j], parse).Ok?
    requires ParseRange(tokens[i], parse).Err?
    ensures RangeList(tokens, parse) == Err(ParseRange(tokens[i], parse).failure)
    decreases i
  {
    if i > 0 {
      assert forall j :: 0 <= j < i - 1 ==> tokens[1..][j] == tokens[j + 1];
      RangeListFirstError(tokens[1..], parse, i - 1);
    }
  }

  /** Beyond the two words after the first empty token nothing is looked at. */
  lemma {:induction false} RangeListIgnoresRest(done: seq<string>, rest: seq<string>, more: seq<string>, parse: string -> Option<int>)
    requires forall i :: 0 <= i < |done| ==> done[i] != ""
    requires |rest| >= 2
    ensures RangeList(done + [""] + rest + more, parse) == RangeList(done + [""] + rest, parse)
    decreases |done|
  {
    var a := done + [""] + rest + more;
    var b := done + [""] + rest;
    if done == [] {
      assert a[1..] == rest + more && b[1..] == rest;
      assert Arg(rest + more, 0) == Arg(rest, 0) && Arg(rest + more, 1) == Arg(rest, 1);
    } else {
      assert a[1..] == done[1..] + [""] + rest + more && b[1..] == done[1..] + [""] + rest;
      assert forall j :: 0 <= j < |done| - 1 ==> done[1..][j] == done[j + 1];
      RangeListIgnoresRest(done[1..], rest, more, parse);
    }
  }

  /** The flat `params` array: start and count of each range, in order. */
  function Flatten(ps: seq<(int, int)>): (r: seq<int>)
    ensures |r| == 2 * |ps|
    ensures forall i :: 0 <= i < |ps| ==> r[2 * i] == ps[i].0 && r[2 * i + 1] == ps[i].1
  {
    if ps == [] then [] else [ps[0].0, ps[0].1] + Flatten(ps[1..])
  }

  lemma {:induction false} FlattenAppend(ps: seq<(int, int)>, p: (int, int))
    ensures Flatten(ps + [p]) == Flatten(ps) + [p.0, p.1]
    decreases |ps|
  {
    if ps != [] {
      assert (ps + [p])[1..] == ps[1..] + [p];
      FlattenAppend(ps[1..], p);
    }
  }

  function Continue(done: seq<(int, int)>, r: Result<seq<(int, int)>>): Result<seq<(int, int)>>
  {
    match r
    case Err(f) => Err(f)
    case Ok(ps) => Ok(done + ps)
  }

  function Flattened(r: Result<seq<(int, int)>>): Result<seq<int>>
  {
    match r
    case Err(f) => Err(f)
    case Ok(ps) => Ok(Flatten(ps))
  }

  /** The range loop of `evalSprites` and `evalSpritePatterns`: takes tokens from the front
      until an empty or missing one, pushing start and count of each. */
  method ParseRanges(tokens: seq<string>, parse: string -> Option<int>) returns (r: Result<seq<int>>)
    ensures r == Flattened(RangeList(tokens, parse))
  {
    var rest := tokens;
    var params: seq<int> := [];
    ghost var done: seq<(int, int)> := [];
    ContinueNothing(RangeList(tokens, parse));
    while true
      invariant RangeList(tokens, parse) == Continue(done, RangeList(rest, parse))
      invariant params == Flatten(done)
      decreases |rest|
    {
      ghost var before := rest;
      // `shift` of an empty array gives undefined
      var param := if rest == [] then "" else rest[0];
      rest := if rest == [] then [] else rest[1..];
      if param == "" {
        break;
      }
      var p := ParseRange(param, parse);
      if p.Err? {
        return Err(p.failure);
      }
      ContinueAppend(done, [p.value], RangeList(rest, parse));
      FlattenAppend(done, p.value);
      params := params + [p.value.0, p.value.1];
      done := done + [p.value];
    }
    var t := TrailingCheck(rest, parse);
    if t.Err? {
      return Err(t.failure);
    }
    assert done + [] == done;
    return Ok(params);
  }

  lemma ContinueNothing(r: Result<seq<(int, int)>>)
    ensures Continue([], r) == r
  {
    if r.Ok? {
      assert [] + r.value == r.value;
    }
  }

  lemma ContinueAppend(done: seq<(int, int)>, more: seq<(int, int)>, r: Result<seq<(int, int)>>)
    ensures Continue(done, Continue(more, r)) == Continue(done + more, r)
  {
    if r.Ok? {
      assert done + (more + r.value) == done + more + r.value;
    }
  }

  /** What a sprite view is opened with: its title and the flat start/count list. */
  datatype SpriteView = SpriteView(title: string, params: Option<seq<int>>)

  const TBBLUE_ONLY := "Command is available only on tbblue (ZX Next)."

  /** `-sprites`: without arguments the view picks the visible sprites itself. */
  method SpritesCommand(tokens: seq<string>, isTbBlue: bool, parse: string -> Option<int>) returns (r: Result<SpriteView>)
    ensures !isTbBlue ==> r == Err(Thrown(TBBLUE_ONLY))
    ensures isTbBlue && tokens == [] ==> r == Ok(SpriteView("Visible Sprites", None))
    ensures isTbBlue && tokens != [] ==>
      r == match RangeList(tokens, parse)
           case Err(f) => Err(f)
           case Ok(ps) => Ok(SpriteView("Sprites: " + Join(tokens, " "), Some(Flatten(ps))))
  {
    if !isTbBlue {
      return Err(Thrown(TBBLUE_ONLY));
    }
    if |tokens| == 0 {
      return Ok(SpriteView("Visible Sprites", None));
    }
    var title := "Sprites: " + Join(tokens, " ");
    var params := ParseRanges(tokens, parse);
    if params.Err? {
      return Err(params.failure);
    }
    return Ok(SpriteView(title, Some(params.value)));
  }

  /** `-patterns`: without arguments all 64 patterns from 0 are shown. */
  method PatternsCommand(tokens: seq<string>, isTbBlue: bool, parse: string -> Option<int>) returns (r: Result<SpriteView>)
    ensures !isTbBlue ==> r == Err(Thrown(TBBLUE_ONLY))
    ensures isTbBlue && tokens == [] ==> r == Ok(SpriteView("Sprite Patterns: 0-63", Some([0, 64])))
    ensures isTbBlue && tokens != [] ==>
      r == match RangeList(tokens, parse)
           case Err(f) => Err(f)
           case Ok(ps) => Ok(SpriteView("Sprite Patterns: " + Join(tokens, " "), Some(Flatten(ps))))
  {
    if !isTbBlue {
      return Err(Thrown(TBBLUE_ONLY));
    }
    if |tokens| == 0 {
      return Ok(SpriteView("Sprite Patterns: 0-63", Some([0, 64])));
    }
    var title := "Sprite Patterns: " + Join(tokens, " ");
    var params := ParseRanges(tokens, parse);
    if params.Err? {
      return Err(params.failure);
    }
    return Ok(SpriteView(title, Some(params.value)));
  }

  // ---- -md ----

  /** Index of the first token the evaluator rejects, or the length when it takes them all. */
  function FirstUnevaluable(tokens: seq<string>, evaluate: string -> Option<int>): (k: nat)
    ensures k <= |tokens| && (forall i :: 0 <= i < k ==> evaluate(tokens[i]).Some?)
    ensures k < |tokens| ==> evaluate(tokens[k]).None?
  {
    if tokens == [] || evaluate(tokens[0]).None? then 0 else 1 + FirstUnevaluable(tokens[1..], evaluate)
  }

  /** `-md address size [address size]*`: evaluates the words in order into the
      interleaved address/size list; the first word that cannot be evaluated fails. */
  method MemDumpArgs(tokens: seq<string>, evaluate: string -> Option<int>) returns (r: Result<seq<int>>)
    ensures tokens == [] ==> r == Err(Thrown("Address and size expected."))
    ensures tokens != [] && |tokens| % 2 != 0 ==> r == Err(Thrown("No size given for address '" + tokens[|tokens| - 1] + "'."))
    ensures r.Ok? <==> tokens != [] && |tokens| % 2 == 0 && FirstUnevaluable(tokens, evaluate) == |tokens|
    ensures r.Ok? ==> |r.value| == |tokens| && forall i :: 0 <= i < |tokens| ==> evaluate(tokens[i]) == Some(r.value[i])
    ensures tokens != [] && |tokens| % 2 == 0 && r.Err? ==> r == Err(Unevaluable(tokens[FirstUnevaluable(tokens, evaluate)]))
  {
    if |tokens| == 0 {
      return Err(Thrown("Address and size expected."));
    }
    if |tokens| % 2 != 0 {
      return Err(Thrown("No size given for address '" + tokens[|tokens| - 1] + "'."));
    }
    var addrSizes: seq<int> := [];
    var k := 0;
    while k < |tokens|
      invariant 0 <= k <= |tokens| && k % 2 == 0
      invariant |addrSizes| == k
      invariant forall i :: 0 <= i < k ==> evaluate(tokens[i]) == Some(addrSizes[i])
    {
      var addressString := tokens[k];
      var address := evaluate(addressString);
      if address.None? {
        return Err(Unevaluable(addressString));
      }
      addrSizes := addrSizes + [address.value];
      var sizeString := tokens[k + 1];
      var size := evaluate(sizeString);
      if size.None? {
        return Err(Unevaluable(sizeString));
      }
      addrSizes := addrSizes + [size.value];
      k := k + 2;
    }
    return Ok(addrSizes);
  }

  // ---- Listing search ----

  /** `searchLines`: the last line whose leading hexadecimal number is the address, or -1. */
  method SearchLines(allLines: seq<string>, addr: int) returns (r: int)
    ensures -1 <= r < |allLines|
    ensures r == -1 <==> forall i :: 0 <= i < |allLines| ==> ParseIntHex(allLines[i]) != Some(addr)
    ensures r >= 0 ==> ParseIntHex(allLines[r]) == Some(addr)
    ensures r >= 0 ==> forall j :: r < j < |allLines| ==> ParseIntHex(allLines[j]) != Some(addr)
  {
    var i := |allLines|;
    while i > 0
      invariant 0 <= i <= |allLines|
      invariant forall j :: i <= j < |allLines| ==> ParseIntHex(allLines[j]) != Some(addr)
    {
      i := i - 1;
      var line := allLines[i];
      var la := ParseIntHex(line);
      if la == Some(addr) {
        return i;
      }
    }
    return -1;
  }

  /** A line that does not start with a hexadecimal number, after white space and an
      optional sign, never matches. */
  lemma NoLeadingHex(line: string)
    requires var t := TrimStart(line);
      var u := if t != [] && IsSign(t[0]) then t[1..] else t;
      u == [] || !IsDigitIn(u[0], 16)
    ensures ParseIntHex(line) == None
  {
  }
}
