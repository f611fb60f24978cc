/**
 * The ESL event handler of the bridge: the switch on Event-Subclass, the
 * User-Data query whose Sh-Data is flattened into channel variables, the
 * Profile-Update dispatch, and the `uuid_setvar` loop. What the handler
 * does is returned as a trace of effects, in the order they happen.
 */
module ShBridge {
  import opened Wrappers
  import opened JsText
  import opened Avp
  import opened ShRequests
  import opened ShAnswers
  import opened DiameterSh
  import opened ShData

  /** A CUSTOM event from FreeSWITCH, seen through its headers. */
  datatype Event = Event(headers: map<string, string>)

  /** `evt.getHeader(name)`: the header's value, or null (None). */
  function Header(evt: Event, name: string): Option<string> {
    if name in evt.headers then Some(evt.headers[name]) else None
  }

  /** How a header value is written into a template literal: null becomes "null". */
  function HeaderText(h: Option<string>): string {
    match h
    case Some(s) => s
    case None => "null"
  }

  /** What `xml2js.parseString` hands to the callback. */
  datatype ParseOutcome =
    | ParseFailed          // err is set
    | NoDocument           // no error, but the result is null (blank input)
    | Parsed(doc: Node)

  /** What the handler does that can be observed outside it. */
  datatype Effect =
    | Diameter(request: Request)          // a request handed to sendRequest
    | Api(command: string, arg: string)   // an ESL api command
    | Warn(text: string)                  // console.warn
    | Unhandled(reason: string)           // a promise rejection nobody handles (see UntilFatal)

  /**
   * The effects that happen when an unhandled rejection ends the process, as
   * Node does by default: the trace up to and including its first `Unhandled`.
   */
  function UntilFatal(trace: seq<Effect>): seq<Effect> {
    if trace == [] then []
    else if trace[0].Unhandled? then [trace[0]]
    else [trace[0]] + UntilFatal(trace[1..])
  }

  /**
   * What survives is a prefix of the trace with no unhandled rejection before
   * its last effect, and it is cut short only right after one.
   */
  lemma {:induction false} UntilFatalStopsAtFirst(trace: seq<Effect>)
    ensures var r := UntilFatal(trace);
      && |r| <= |trace| && r == trace[..|r|]
      && (forall i :: 0 <= i < |r| - 1 ==> !r[i].Unhandled?)
      && (|r| < |trace| ==> |r| > 0 && r[|r| - 1].Unhandled?)
  {
    if trace != [] && !trace[0].Unhandled? {
      UntilFatalStopsAtFirst(trace[1..]);
      var r := UntilFatal(trace);
      assert r == [trace[0]] + UntilFatal(trace[1..]);
      forall i | 1 <= i < |r| - 1 ensures !r[i].Unhandled? {
        assert r[i] == UntilFatal(trace[1..])[i - 1];
      }
    }
  }

  /** No promise rejection is left unhandled in `trace`. */
  predicate Calm(trace: seq<Effect>) {
    forall i :: 0 <= i < |trace| ==> !trace[i].Unhandled?
  }

  /** Effects before which no rejection is left unhandled are all kept, and the rest is cut as before. */
  lemma {:induction false} UntilFatalKeepsCalmPrefix(a: seq<Effect>, b: seq<Effect>)
    requires Calm(a)
    ensures UntilFatal(a + b) == a + UntilFatal(b)
  {
    if a != [] {
      assert (a + b)[0] == a[0] && !a[0].Unhandled?;
      assert (a + b)[1..] == a[1..] + b;
      assert Calm(a[1..]) by {
        forall i | 0 <= i < |a[1..]| ensures !a[1..][i].Unhandled? {
          assert a[1..][i] == a[i + 1];
        }
      }
      UntilFatalKeepsCalmPrefix(a[1..], b);
      assert UntilFatal(a + b) == [a[0]] + UntilFatal(a[1..] + b);
      assert a + UntilFatal(b) == [a[0]] + (a[1..] + UntilFatal(b));
    } else {
      assert a + b == b;
    }
  }

  /**
   * What the handler gets from outside: the clock, the UTF-8 decoder, the
   * XML parser, and the body of FreeSWITCH's reply to each api argument.
   */
  datatype Env = Env(
    now: nat,
    utf8: seq<bv8> -> string,
    parse: Value -> ParseOutcome,
    reply: string -> string)

  /**
   * What xml2js does with the two inputs the handler can hand it besides
   * XML text: undefined cannot be read as a string, so the callback gets an
   * error; blank text (after JavaScript's trim) yields no error and a null
   * result.
   */
  ghost predicate ParserBehaviour(parse: Value -> ParseOutcome) {
    && parse(Undefined) == ParseFailed
    && forall s :: Trim(s) == "" ==> parse(Str(s)) == NoDocument
  }

  const UdrSubclass: string := "sendUDRRequest"
  const PurSubclass: string := "sendPURRequest"
  const SetvarCommand: string := "uuid_setvar"
  const OkReply: string := "+OK"
  /** The error a property read on null or undefined throws. */
  const TypeErrorReason: string := "TypeError"

  function UnknownSubclassWarning(subclass: string): string {
    "Unknown ShFunction: " + subclass
  }

  function FailedWriteWarning(key: string): string {
    "Failed to set var " + key
  }

  // ---------------------------------------------------------------------------
  // The uuid_setvar argument

  /** `${uuid} ${key} '${value}'` */
  function SetvarArg(uuid: string, key: string, value: string): string {
    uuid + " " + key + " '" + value + "'"
  }

  /** Reads an argument back as uuid, key and the value between the outer quotes. */
  function ParseSetvarArg(arg: string): Option<(string, string, string)> {
    match SplitAtFirst(arg, ' ')
    case None => None
    case Some((uuid, rest)) =>
      match SplitAtFirst(rest, ' ')
      case None => None
      case Some((key, quoted)) =>
        if |quoted| >= 2 && quoted[0] == '\'' && quoted[|quoted| - 1] == '\''
        then Some((uuid, key, quoted[1..|quoted| - 1]))
        else None
  }

  /**
   * The argument names the channel, the variable and the whole value, provided
   * neither the uuid nor the key has a space in it; the value may hold anything.
   */
  lemma SetvarArgRoundTrip(uuid: string, key: string, value: string)
    requires ' ' !in uuid && ' ' !in key
    ensures ParseSetvarArg(SetvarArg(uuid, key, value)) == Some((uuid, key, value))
  {
    var rest := key + " '" + value + "'";
    var quoted := "'" + value + "'";
    assert SetvarArg(uuid, key, value) == uuid + [' '] + rest;
    SplitAtFirstJoin(uuid, ' ', rest);
    assert rest == key + [' '] + quoted;
    SplitAtFirstJoin(key, ' ', quoted);
    assert quoted[1..|quoted| - 1] == value;
  }

  /** No variable name has a space in it. */
  lemma VarNamesHaveNoSpace()
    ensures forall i :: 0 <= i < |VarNames| ==> ' ' !in VarNames[i]
  {
  }

  /** An entry of the `vars` object: a variable name and its value, not yet written as text. */
  type Entry = (string, Node)

  /** The setvar commands for `vars`, one per entry, in order. */
  function SetvarCommands(uuid: string, vars: seq<Entry>): seq<Effect> {
    seq(|vars|, i requires 0 <= i < |vars| => Api(SetvarCommand, SetvarArg(uuid, vars[i].0, Text(vars[i].1))))
  }

  /** Appending an entry appends its command. */
  lemma SetvarCommandsStep(uuid: string, vars: seq<Entry>, i: nat)
    requires i < |vars|
    ensures SetvarCommands(uuid, vars[..i + 1])
         == SetvarCommands(uuid, vars[..i]) + [Api(SetvarCommand, SetvarArg(uuid, vars[i].0, Text(vars[i].1)))]
  {
  }

  /** The set attempt for `key` was refused: the reply's body, trimmed, is not "+OK". */
  predicate WriteFailed(uuid: string, entry: Entry, reply: string -> string) {
    Trim(reply(SetvarArg(uuid, entry.0, Text(entry.1)))) != OkReply
  }

  /** A reply body "+OK" followed by a line break counts as accepted. */
  lemma OkLineAccepted(uuid: string, entry: Entry, reply: string -> string)
    requires reply(SetvarArg(uuid, entry.0, Text(entry.1))) == "+OK\n"
    ensures !WriteFailed(uuid, entry, reply)
  {
    assert TrimStart("+OK\n") == "+OK\n";
    assert TrimEnd("+OK") == "+OK";
  }

  /**
   * How many entries the loop gets through: it stops at the first value that
   * cannot be written into the template literals of the loop body.
   */
  function WritableCount(vars: seq<Entry>): (k: nat)
    ensures k <= |vars|
  {
    if vars == [] || !Renderable(vars[0].1) then 0 else 1 + WritableCount(vars[1..])
  }

  /** The entries before the count all render, and the one at the count, if any, does not. */
  lemma {:induction false} WritableCountStops(vars: seq<Entry>)
    ensures forall j :: 0 <= j < WritableCount(vars) ==> Renderable(vars[j].1)
    ensures WritableCount(vars) < |vars| ==> !Renderable(vars[WritableCount(vars)].1)
  {
    if vars != [] && Renderable(vars[0].1) {
      WritableCountStops(vars[1..]);
      forall j | 1 <= j < WritableCount(vars) ensures Renderable(vars[j].1) {
        assert vars[j] == vars[1..][j - 1];
      }
    }
  }

  /** The warnings the reply callbacks log, in the order the commands were issued. */
  function FailedWrites(uuid: string, vars: seq<Entry>, reply: string -> string): seq<Effect> {
    if vars == [] then []
    else
      var entry := vars[|vars| - 1];
      FailedWrites(uuid, vars[..|vars| - 1], reply)
        + (if WriteFailed(uuid, entry, reply) then [Warn(FailedWriteWarning(entry.0))] else [])
  }

  /** Appending an entry appends its warning, if its write is refused. */
  lemma FailedWritesStep(uuid: string, vars: seq<Entry>, i: nat, reply: string -> string)
    requires i < |vars|
    ensures FailedWrites(uuid, vars[..i + 1], reply)
         == FailedWrites(uuid, vars[..i], reply)
            + (if WriteFailed(uuid, vars[i], reply) then [Warn(FailedWriteWarning(vars[i].0))] else [])
  {
    assert vars[..i + 1][..i] == vars[..i];
  }

  /** There are never more warnings than writes. */
  lemma {:induction false} FailedWritesBound(uuid: string, vars: seq<Entry>, reply: string -> string)
    ensures |FailedWrites(uuid, vars, reply)| <= |vars|
  {
    if vars != [] {
      FailedWritesBound(uuid, vars[..|vars| - 1], reply);
    }
  }

  /** The reply callbacks only ever warn. */
  lemma {:induction false} FailedWritesAreWarnings(uuid: string, vars: seq<Entry>, reply: string -> string)
    ensures forall i :: 0 <= i < |FailedWrites(uuid, vars, reply)| ==> FailedWrites(uuid, vars, reply)[i].Warn?
  {
    if vars != [] {
      FailedWritesAreWarnings(uuid, vars[..|vars| - 1], reply);
    }
  }

  /** Each warning names a variable whose write was refused. */
  lemma {:induction false} FailedWritesNameRefused(uuid: string, vars: seq<Entry>, reply: string -> string)
    ensures forall w | w in FailedWrites(uuid, vars, reply) ::
      exists i :: 0 <= i < |vars| && WriteFailed(uuid, vars[i], reply) && w == Warn(FailedWriteWarning(vars[i].0))
  {
    if vars != [] {
      var front := vars[..|vars| - 1];
      FailedWritesNameRefused(uuid, front, reply);
      forall w | w in FailedWrites(uuid, vars, reply)
        ensures exists i :: 0 <= i < |vars| && WriteFailed(uuid, vars[i], reply) && w == Warn(FailedWriteWarning(vars[i].0))
      {
        if w in FailedWrites(uuid, front, reply) {
          var i :| 0 <= i < |front| && WriteFailed(uuid, front[i], reply) && w == Warn(FailedWriteWarning(front[i].0));
          assert vars[i] == front[i];
        } else {
          assert WriteFailed(uuid, vars[|vars| - 1], reply);
        }
      }
    }
  }

  /** There are no warnings exactly when every write is accepted. */
  lemma {:induction false} NoWarningsIffAllAccepted(uuid: string, vars: seq<Entry>, reply: string -> string)
    ensures FailedWrites(uuid, vars, reply) == [] <==> forall i :: 0 <= i < |vars| ==> !WriteFailed(uuid, vars[i], reply)
  {
    if vars != [] {
      var n := |vars| - 1;
      var front := vars[..n];
      NoWarningsIffAllAccepted(uuid, front, reply);
      assert forall i :: 0 <= i < n ==> front[i] == vars[i];
      assert FailedWrites(uuid, vars, reply) == [] <==>
        FailedWrites(uuid, front, reply) == [] && !WriteFailed(uuid, vars[n], reply);
    }
  }

  /**
   * The `for…of` loop over the entries of `vars`: one uuid_setvar per entry,
   * whatever the replies, until a value that cannot be written as text throws
   * (`threw`) and ends the loop; then the warnings of the refused writes as
   * the replies come back.
   */
  method InjectVars(uuid: string, vars: seq<Entry>, reply: string -> string)
    returns (commands: seq<Effect>, threw: bool, warnings: seq<Effect>)
    ensures var k := WritableCount(vars);
      && k <= |vars|
      && commands == SetvarCommands(uuid, vars[..k])
      && threw == (k < |vars|)
      && warnings == FailedWrites(uuid, vars[..k], reply)
  {
    WritableCountStops(vars);
    ghost var k := WritableCount(vars);
    commands, threw, warnings := [], false, [];
    var i := 0;
    while i < |vars|
      invariant i <= k
      invariant commands == SetvarCommands(uuid, vars[..i])
      invariant warnings == FailedWrites(uuid, vars[..i], reply)
    {
      var (key, value) := vars[i];
      if !Renderable(value) {
        threw := true;
        break;
      }
      var arg := SetvarArg(uuid, key, Text(value));
      SetvarCommandsStep(uuid, vars, i);
      FailedWritesStep(uuid, vars, i, reply);
      commands := commands + [Api(SetvarCommand, arg)];
      if Trim(reply(arg)) != OkReply {
        warnings := warnings + [Warn(FailedWriteWarning(key))];
      }
      i := i + 1;
    }
    assert i == k;
  }

  /**
   * What the loop over `vars` leads to: the writes it issues, the TypeError
   * that ends it early, if any, and the warnings of the refused writes.
   */
  function SetvarTrace(uuid: string, vars: seq<Entry>, reply: string -> string): seq<Effect> {
    var k := WritableCount(vars);
    SetvarCommands(uuid, vars[..k])
      + (if k < |vars| then [Unhandled(TypeErrorReason)] else [])
      + FailedWrites(uuid, vars[..k], reply)
  }

  /**
   * One write per entry up to the first value that cannot be written, then
   * the TypeError if there is such a value, then nothing but warnings.
   */
  lemma SetvarTraceShape(uuid: string, vars: seq<Entry>, reply: string -> string)
    ensures var trace, k := SetvarTrace(uuid, vars, reply), WritableCount(vars);
      && |trace| >= k
      && (forall i :: 0 <= i < k ==>
            Renderable(vars[i].1) && trace[i] == Api(SetvarCommand, SetvarArg(uuid, vars[i].0, Text(vars[i].1))))
      && (k < |vars| ==> !Renderable(vars[k].1) && |trace| > k && trace[k] == Unhandled(TypeErrorReason))
      && (forall j :: k <= j < |trace| ==> trace[j].Warn? || (j == k && k < |vars|))
  {
    WritableCountStops(vars);
    var k := WritableCount(vars);
    var trace := SetvarTrace(uuid, vars, reply);
    var tail := if k < |vars| then [Unhandled(TypeErrorReason)] else [];
    var warnings := FailedWrites(uuid, vars[..k], reply);
    assert trace == SetvarCommands(uuid, vars[..k]) + tail + warnings;
    FailedWritesNameRefused(uuid, vars[..k], reply);
    forall j | k + |tail| <= j < |trace| ensures trace[j].Warn? {
      assert trace[j] in warnings;
    }
  }

  lemma Regrouped(a: seq<Effect>, b: seq<Effect>, c: seq<Effect>)
    ensures a + b + c == a + (b + c)
  {
  }

  /**
   * A trace of calm effects, then possibly one unhandled rejection, then
   * calm effects again, is cut right after the rejection, if there is one.
   */
  lemma UntilFatalOfLoop(commands: seq<Effect>, threw: bool, reason: string, warnings: seq<Effect>)
    requires Calm(commands) && Calm(warnings)
    ensures UntilFatal(commands + (if threw then [Unhandled(reason)] else []) + warnings)
         == if threw then commands + [Unhandled(reason)] else commands + warnings
  {
    var tail: seq<Effect> := if threw then [Unhandled(reason)] else [];
    Regrouped(commands, tail, warnings);
    UntilFatalKeepsCalmPrefix(commands, tail + warnings);
    if threw {
      assert UntilFatal(tail + warnings) == tail;
    } else {
      assert tail + warnings == warnings + [];
      UntilFatalKeepsCalmPrefix(warnings, []);
      assert warnings + [] == warnings;
    }
  }

  lemma SetvarCommandsCalm(uuid: string, vars: seq<Entry>)
    ensures Calm(SetvarCommands(uuid, vars))
  {
  }

  lemma FailedWritesCalm(uuid: string, vars: seq<Entry>, reply: string -> string)
    ensures Calm(FailedWrites(uuid, vars, reply))
  {
    FailedWritesAreWarnings(uuid, vars, reply);
  }

  /**
   * Under Node's default for unhandled rejections, a loop that meets an
   * unwritable value ends the process after its writes: no warning about a
   * refused write is ever logged. A loop that gets through every entry keeps
   * its whole trace.
   */
  lemma SetvarTraceUntilFatal(uuid: string, vars: seq<Entry>, reply: string -> string)
    ensures var k := WritableCount(vars);
      UntilFatal(SetvarTrace(uuid, vars, reply))
        == if k < |vars| then SetvarCommands(uuid, vars[..k]) + [Unhandled(TypeErrorReason)]
           else SetvarTrace(uuid, vars, reply)
  {
    var k := WritableCount(vars);
    SetvarCommandsCalm(uuid, vars[..k]);
    FailedWritesCalm(uuid, vars[..k], reply);
    UntilFatalOfLoop(SetvarCommands(uuid, vars[..k]), k < |vars|, TypeErrorReason, FailedWrites(uuid, vars[..k], reply));
  }

  /**
   * Every write the loop issues for a channel whose uuid has no space reads
   * back as that uuid, the variable's name and the text of its value.
   */
  lemma SetvarCommandsReadBack(uuid: string, doc: Node, i: nat)
    requires ' ' !in uuid
    requires i < WritableCount(Flatten(doc))
    ensures var e := SetvarCommands(uuid, Flatten(doc)[..WritableCount(Flatten(doc))])[i];
      && e.Api? && e.command == SetvarCommand
      && ParseSetvarArg(e.arg) == Some((uuid, VarNames[i], SourceText(doc, VarSources[i])))
  {
    FlattenFollowsPaths(doc);
    VarNamesHaveNoSpace();
    SetvarArgRoundTrip(uuid, VarNames[i], SourceText(doc, VarSources[i]));
  }

  // ---------------------------------------------------------------------------
  // The handler

  /** `sendUDRRequest({ identityValue: `${msisdn}` })`: the MSISDN header as text, the rest defaulted. */
  function UdrQuery(evt: Event): Query {
    Query(None, Str(HeaderText(Header(evt, "MSISDN"))), None, None, Undefined)
  }

  /**
   * `sendPURRequest(msisdn)` destructures the header string as if it were the
   * options object: a string has none of those properties, so identityValue
   * and repositoryDataXML are undefined.
   */
  const PurDispatchQuery: Query := Query(None, Undefined, None, None, Undefined)

  /** `result['Sh-User-Data']`: undefined when the answer had none. */
  function UserDataOf(result: map<string, Value>): Value {
    if ShUserData in result then result[ShUserData] else Undefined
  }

  /** What the parse callback does with the outcome of parsing. */
  function ParsedTrace(uuid: string, outcome: ParseOutcome, reply: string -> string): seq<Effect> {
    match outcome
    case ParseFailed => []
    case NoDocument => [Unhandled(TypeErrorReason)]
    case Parsed(doc) => SetvarTrace(uuid, Flatten(doc), reply)
  }

  /** The User-Data request the handler sends over connection `c`. */
  function UdrSent(c: Connection, cfg: PeerConfig, evt: Event, env: Env): Request {
    UdrRequest(cfg, UdrQuery(evt), env.now, c.create(ByName(ShApplicationName), "User-Data"))
  }

  /** How the awaited `sendUDRRequest` settles over connection `c`. */
  function UdrResult(c: Connection, cfg: PeerConfig, evt: Event, env: Env): Result<map<string, Value>, ShError> {
    UdrSettles(c.send(UdrSent(c, cfg, evt, env)), env.utf8)
  }

  /** The `sendUDRRequest` case; a rejected query is caught and only logged. */
  function UdrTrace(conn: Option<Connection>, cfg: PeerConfig, evt: Event, env: Env): seq<Effect> {
    match conn
    case None => []
    case Some(c) =>
      [Diameter(UdrSent(c, cfg, evt, env))] +
        match UdrResult(c, cfg, evt, env)
        case Err(_) => []
        case Ok(result) => ParsedTrace(HeaderText(Header(evt, "Unique-ID")), env.parse(UserDataOf(result)), env.reply)
  }

  /** The `sendPURRequest` case; its promise is not awaited, so a rejection is unhandled. */
  function PurTrace(conn: Option<Connection>, cfg: PeerConfig, evt: Event, env: Env): seq<Effect> {
    if Header(evt, "MSISDN").None? then [Unhandled(TypeErrorReason)]
    else
      match conn
      case None => [Unhandled(NotConnected.Message())]
      case Some(c) =>
        var req := PurRequest(cfg, PurDispatchQuery, env.now, c.create(ByName(ShApplicationName), "Profile-Update"));
        [Diameter(req)] +
          match AnswerSettles(c.send(req))
          case Err(e) => [Unhandled(e.Message())]
          case Ok(_) => []
  }

  /** Everything the handler does for one event, given the connection state. */
  function ExpectedTrace(conn: Option<Connection>, cfg: PeerConfig, evt: Event, env: Env): seq<Effect> {
    match Header(evt, "Event-Subclass")
    case None => []
    case Some(subclass) =>
      if subclass == "" then []
      else if subclass == UdrSubclass then UdrTrace(conn, cfg, evt, env)
      else if subclass == PurSubclass then PurTrace(conn, cfg, evt, env)
      else [Warn(UnknownSubclassWarning(subclass))]
  }

  /** The `esl::event::CUSTOM::*` handler. */
  method HandleEvent(client: Client, evt: Event, env: Env) returns (trace: seq<Effect>)
    ensures trace == ExpectedTrace(client.connection, client.config, evt, env)
  {
    var shFunction := Header(evt, "Event-Subclass");
    if shFunction.None? || shFunction.value == "" {
      return [];
    }
    match shFunction.value {
      case "sendUDRRequest" =>
        trace := HandleUdr(client, evt, env);
      case "sendPURRequest" =>
        trace := HandlePur(client, evt, env);
      case _ =>
        trace := [Warn(UnknownSubclassWarning(shFunction.value))];
    }
  }

  /** The `sendUDRRequest` case of the handler. */
  method HandleUdr(client: Client, evt: Event, env: Env) returns (trace: seq<Effect>)
    ensures trace == UdrTrace(client.connection, client.config, evt, env)
  {
    var uuid := Header(evt, "Unique-ID");
    var sent, r := client.SendUdr(UdrQuery(evt), env.now, env.utf8);
    trace := if sent.Some? then [Diameter(sent.value)] else [];
    if r.Ok? {
      var effects := OnParsed(HeaderText(uuid), env.parse(UserDataOf(r.value)), env.reply);
      trace := trace + effects;
    }
  }

  /** The callback `parseShResponse` calls with the outcome of parsing the Sh-User-Data. */
  method OnParsed(uuid: string, outcome: ParseOutcome, reply: string -> string) returns (effects: seq<Effect>)
    ensures effects == ParsedTrace(uuid, outcome, reply)
  {
    match outcome {
      case ParseFailed =>
        effects := [];
      case NoDocument =>
        effects := [Unhandled(TypeErrorReason)];
      case Parsed(doc) =>
        var commands, threw, warnings := InjectVars(uuid, Flatten(doc), reply);
        effects := commands + (if threw then [Unhandled(TypeErrorReason)] else []) + warnings;
    }
  }

  /** The `sendPURRequest` case of the handler. */
  method HandlePur(client: Client, evt: Event, env: Env) returns (trace: seq<Effect>)
    ensures trace == PurTrace(client.connection, client.config, evt, env)
  {
    var msisdn := Header(evt, "MSISDN");
    if msisdn.None? {
      return [Unhandled(TypeErrorReason)];
    }
    var sent, r := client.SendPur(PurDispatchQuery, env.now);
    trace := if sent.Some? then [Diameter(sent.value)] else [];
    if r.Err? {
      trace := trace + [Unhandled(r.error.Message())];
    }
  }

  // ---------------------------------------------------------------------------
  // What the handler promises

  /** Without an Event-Subclass (or with an empty one) the handler does nothing at all. */
  lemma NoSubclassDoesNothing(conn: Option<Connection>, cfg: PeerConfig, evt: Event, env: Env)
    requires Header(evt, "Event-Subclass").None? || Header(evt, "Event-Subclass") == Some("")
    ensures ExpectedTrace(conn, cfg, evt, env) == []
  {
  }

  /** An unknown Event-Subclass is only warned about: no request, no variable written. */
  lemma UnknownSubclassOnlyWarns(conn: Option<Connection>, cfg: PeerConfig, evt: Event, env: Env, subclass: string)
    requires Header(evt, "Event-Subclass") == Some(subclass)
    requires subclass != "" && subclass != UdrSubclass && subclass != PurSubclass
    ensures ExpectedTrace(conn, cfg, evt, env) == [Warn("Unknown ShFunction: " + subclass)]
  {
  }

  /** With no connection no request is sent, whatever the event. */
  lemma NotConnectedSendsNothing(cfg: PeerConfig, evt: Event, env: Env)
    ensures forall e | e in ExpectedTrace(None, cfg, evt, env) :: !e.Diameter? && !e.Api?
  {
  }

  /**
   * The User-Data query asks for the MSISDN header, as text, as a
   * Public-Identity, with Data-Reference 0.
   */
  lemma UdrAsksForMsisdn(c: Connection, cfg: PeerConfig, evt: Event, env: Env)
    ensures var req := UdrSent(c, cfg, evt, env);
      && req.command == "User-Data"
      && req.body == c.create(ByName(ShApplicationName), "User-Data") + UdrAvps(cfg, UdrQuery(evt), env.now)
      && ReadIdentity(UdrAvps(cfg, UdrQuery(evt), env.now))
           == Some(Avp("Public-Identity", Str(HeaderText(Header(evt, "MSISDN")))))
      && Find(UdrAvps(cfg, UdrQuery(evt), env.now), "Data-Reference") == Some(Int(0))
  {
    UdrCarriesQuery(cfg, UdrQuery(evt), env.now);
  }

  /**
   * After a successful parse the callback issues one uuid_setvar command per
   * variable, in the order of VarNames, each with the value read from that
   * variable's path, up to the first value that cannot be written as text;
   * such a value ends the callback with an unhandled TypeError, and everything
   * after that is a warning.
   */
  lemma ParsedDocumentWritesUntilUnwritable(uuid: string, doc: Node, reply: string -> string)
    ensures var trace, k := ParsedTrace(uuid, Parsed(doc), reply), WritableCount(Flatten(doc));
      && k <= 14 && |trace| >= k
      && (forall i :: 0 <= i < k ==>
            && Renderable(SourceValue(doc, VarSources[i]))
            && trace[i] == Api(SetvarCommand, SetvarArg(uuid, VarNames[i], SourceText(doc, VarSources[i]))))
      && (k < 14 ==>
            && !Renderable(SourceValue(doc, VarSources[k]))
            && |trace| > k && trace[k] == Unhandled(TypeErrorReason))
      && (forall j :: k <= j < |trace| ==> trace[j].Warn? || (j == k && k < 14))
  {
    var vars := Flatten(doc);
    assert ParsedTrace(uuid, Parsed(doc), reply) == SetvarTrace(uuid, vars, reply);
    FlattenFollowsPaths(doc);
    VariablesTraceShape(uuid, doc, vars, reply);
  }

  /** SetvarTraceShape, for entries that carry each variable's own value. */
  lemma VariablesTraceShape(uuid: string, doc: Node, vars: seq<Entry>, reply: string -> string)
    requires |vars| == 14
    requires forall i :: 0 <= i < 14 ==> vars[i] == (VarNames[i], SourceValue(doc, VarSources[i]))
    ensures var trace, k := SetvarTrace(uuid, vars, reply), WritableCount(vars);
      && k <= 14 && |trace| >= k
      && (forall i :: 0 <= i < k ==>
            && Renderable(SourceValue(doc, VarSources[i]))
            && trace[i] == Api(SetvarCommand, SetvarArg(uuid, VarNames[i], SourceText(doc, VarSources[i]))))
      && (k < 14 ==>
            && !Renderable(SourceValue(doc, VarSources[k]))
            && |trace| > k && trace[k] == Unhandled(TypeErrorReason))
      && (forall j :: k <= j < |trace| ==> trace[j].Warn? || (j == k && k < 14))
  {
    SetvarTraceShape(uuid, vars, reply);
  }

  /**
   * When every value can be written as text, the callback issues exactly
   * fourteen uuid_setvar commands, one per variable; the refused ones only add
   * warnings after them.
   */
  lemma ParsedDocumentWritesEveryVariable(uuid: string, doc: Node, reply: string -> string)
    requires forall i :: 0 <= i < 14 ==> Renderable(SourceValue(doc, VarSources[i]))
    ensures var trace := ParsedTrace(uuid, Parsed(doc), reply);
      && |trace| >= 14
      && (forall i :: 0 <= i < 14 ==>
            trace[i] == Api(SetvarCommand, SetvarArg(uuid, VarNames[i], SourceText(doc, VarSources[i]))))
      && (forall j :: 14 <= j < |trace| ==> trace[j].Warn?)
  {
    ParsedDocumentWritesUntilUnwritable(uuid, doc, reply);
  }

  /**
   * Once the Sh-User-Data parses into a document whose values can all be
   * written, the handler sends the request and then the fourteen writes; the
   * refused ones only add warnings after them, so a refused write suppresses
   * no other write.
   */
  lemma UdrWritesEveryVariable(c: Connection, cfg: PeerConfig, evt: Event, env: Env, doc: Node)
    requires Header(evt, "Event-Subclass") == Some(UdrSubclass)
    requires UdrResult(c, cfg, evt, env).Ok?
    requires env.parse(UserDataOf(UdrResult(c, cfg, evt, env).value)) == Parsed(doc)
    requires forall i :: 0 <= i < 14 ==> Renderable(SourceValue(doc, VarSources[i]))
    ensures var trace := ExpectedTrace(Some(c), cfg, evt, env);
      && |trace| >= 15
      && trace[0] == Diameter(UdrSent(c, cfg, evt, env))
      && (forall i :: 0 <= i < 14 ==>
            trace[1 + i] == Api(SetvarCommand,
              SetvarArg(HeaderText(Header(evt, "Unique-ID")), VarNames[i], SourceText(doc, VarSources[i]))))
      && (forall j :: 15 <= j < |trace| ==> trace[j].Warn?)
  {
    var uuid := HeaderText(Header(evt, "Unique-ID"));
    ParsedDocumentWritesEveryVariable(uuid, doc, env.reply);
    var rest := ParsedTrace(uuid, Parsed(doc), env.reply);
    assert ExpectedTrace(Some(c), cfg, evt, env) == [Diameter(UdrSent(c, cfg, evt, env))] + rest;
    WritesAfterRequest(Diameter(UdrSent(c, cfg, evt, env)), rest, uuid, doc);
  }

  /** The fourteen writes and the warnings after them, behind the request that precedes them. */
  lemma WritesAfterRequest(request: Effect, rest: seq<Effect>, uuid: string, doc: Node)
    requires |rest| >= 14
    requires forall i :: 0 <= i < 14 ==>
      rest[i] == Api(SetvarCommand, SetvarArg(uuid, VarNames[i], SourceText(doc, VarSources[i])))
    requires forall j :: 14 <= j < |rest| ==> rest[j].Warn?
    ensures var trace := [request] + rest;
      && |trace| >= 15
      && trace[0] == request
      && (forall i :: 0 <= i < 14 ==>
            trace[1 + i] == Api(SetvarCommand, SetvarArg(uuid, VarNames[i], SourceText(doc, VarSources[i]))))
      && (forall j :: 15 <= j < |trace| ==> trace[j].Warn?)
  {
  }

  /**
   * A variable is written only after a User-Data answer that carried an
   * Sh-User-Data which parsed.
   */
  lemma WritesOnlyAfterParse(conn: Option<Connection>, cfg: PeerConfig, evt: Event, env: Env)
    requires ParserBehaviour(env.parse)
    ensures (exists e :: e in ExpectedTrace(conn, cfg, evt, env) && e.Api?) ==>
      && Header(evt, "Event-Subclass") == Some(UdrSubclass)
      && conn.Some? && UdrResult(conn.value, cfg, evt, env).Ok?
      && ShUserData in UdrResult(conn.value, cfg, evt, env).value
      && env.parse(UserDataOf(UdrResult(conn.value, cfg, evt, env).value)).Parsed?
  {
  }

  /**
   * An answer without Sh-User-Data hands undefined to the parser, whose
   * error makes the callback return at once: the request is all that happens.
   */
  lemma MissingUserDataWritesNothing(c: Connection, cfg: PeerConfig, evt: Event, env: Env)
    requires ParserBehaviour(env.parse)
    requires Header(evt, "Event-Subclass") == Some(UdrSubclass)
    requires UdrResult(c, cfg, evt, env).Ok? && ShUserData !in UdrResult(c, cfg, evt, env).value
    ensures ExpectedTrace(Some(c), cfg, evt, env) == [Diameter(UdrSent(c, cfg, evt, env))]
  {
  }

  /**
   * A blank Sh-User-Data parses to null, and reading Sh-Data from null throws
   * inside the async callback: the request is followed by an unhandled
   * TypeError and no variable is written.
   */
  lemma BlankUserDataIsUnhandled(c: Connection, cfg: PeerConfig, evt: Event, env: Env, text: string)
    requires ParserBehaviour(env.parse)
    requires Header(evt, "Event-Subclass") == Some(UdrSubclass)
    requires UdrResult(c, cfg, evt, env).Ok?
    requires UserDataOf(UdrResult(c, cfg, evt, env).value) == Str(text) && Trim(text) == ""
    ensures ExpectedTrace(Some(c), cfg, evt, env) == [Diameter(UdrSent(c, cfg, evt, env)), Unhandled(TypeErrorReason)]
  {
  }

  /**
   * The Profile-Update dispatch passes the MSISDN header where the options
   * object is expected: the request it sends carries an undefined identity
   * value and an undefined Sh-Data, whatever the header says.
   */
  lemma PurDispatchSendsNoIdentity(c: Connection, cfg: PeerConfig, evt: Event, env: Env)
    requires Header(evt, "Event-Subclass") == Some(PurSubclass) && Header(evt, "MSISDN").Some?
    ensures var trace := ExpectedTrace(Some(c), cfg, evt, env);
      && |trace| >= 1 && trace[0].Diameter?
      && var avps := PurAvps(cfg, PurDispatchQuery, env.now);
      && trace[0].request.body == c.create(ByName(ShApplicationName), "Profile-Update") + avps
      && ReadIdentity(avps) == Some(Avp("Public-Identity", Undefined))
      && avps[|avps| - 1] == Avp("Sh-Data", Undefined)
  {
    PurCarriesQuery(cfg, PurDispatchQuery, env.now);
  }

  /**
   * Before the connection is stored, the Profile-Update dispatch sends
   * nothing and leaves the builder's rejection, with its own message,
   * unhandled.
   */
  lemma PurUnconnectedRejects(cfg: PeerConfig, evt: Event, env: Env)
    requires Header(evt, "Event-Subclass") == Some(PurSubclass) && Header(evt, "MSISDN").Some?
    ensures ExpectedTrace(None, cfg, evt, env) == [Unhandled("Diameter connection is not established.")]
  {
  }

  /** Without an MSISDN header the Profile-Update dispatch throws before anything is sent. */
  lemma PurWithoutMsisdnThrows(conn: Option<Connection>, cfg: PeerConfig, evt: Event, env: Env)
    requires Header(evt, "Event-Subclass") == Some(PurSubclass) && Header(evt, "MSISDN").None?
    ensures ExpectedTrace(conn, cfg, evt, env) == [Unhandled(TypeErrorReason)]
  {
  }
}
