# Sh-Bridge-FS in Dafny

A model of the core of Sh-Bridge-FS. This is a bridge that answers FreeSWITCH custom events by querying a Home
Subscriber Server (HSS) over the Diameter Sh interface (3GPP TS 29.329), then copying the subscriber profile into
channel variables. The model covers two parts.

**The Diameter client** (`diameter-Sh.js`):
- **Builders.** `sendUDRRequest` (User-Data), `sendPURRequest` (Profile-Update) and `sendSNRRequest`
  (Subscribe-Notifications) each check the process-wide connection, append an ordered AVP list to the request,
  send it, and fold the answer's AVPs into a name-to-value map.
- **Watchdog.** `sendDeviceWatchdogRequest` sends the Device-Watchdog request (section 5.5 of RFC 6733).

**The ESL event handler** (`sh-bridge.js`):
- It dispatches on the Event-Subclass header.
- For a User-Data query, it flattens the parsed Sh-Data document into fourteen channel variables and writes each
  with one `uuid_setvar` command.

Modules:

- `Wrappers`: `Option` and `Result`.
- `JsText`: the JavaScript text operations the source relies on:
  - decimal rendering of the timestamp;
  - splitting at a character;
  - `String.prototype.trim`.
- `Avp`: AVPs as name/value pairs. A value is undefined, an integer, a string, octets or a grouped list. The module
  also covers first-occurrence lookup and how a value is written when joined into text.
- `ShRequests`: the appended AVP lists of the three Sh requests and of the watchdog, as pure functions of the peer
  configuration, the options and the timestamp. It also covers the lemmas about their layout, defaults and
  Session-Id.
- `ShAnswers`:
  - the last-write-wins fold of an answer (`Folded`);
  - the User-Data variant that turns `Sh-User-Data` into text (`FoldedUserData`);
  - the loops that compute them (`FoldAnswer`, `FoldUserDataAnswer`), proved against these functions.
- `DiameterSh`: class `Client`. Its field `connection` is the global `diameterConnection`, which is unset until
  the connect callback stores it. Its methods are the four request operations, each stating the request it
  sends and how its promise settles.
- `ShData`: the parsed document (`Node`), the `||` chain that builds the `vars` object (`Flatten`), and a
  reference reading of the same variables by walking each variable's path.
- `ShBridge`:
  - the handler (`HandleEvent`, `HandleUdr`, `HandlePur`), which returns its observable effects as a trace: the
    Diameter requests sent, the ESL api commands issued, the warnings logged and the promise rejections left
    unhandled;
  - the specification of that trace (`ExpectedTrace`);
  - what of a trace happens when an unhandled rejection ends the process (`UntilFatal`);
  - the parse callback (`OnParsed`) and the `uuid_setvar` loop (`InjectVars`).

The outside world is passed in as parameters:
- **The Diameter library's connection** is a value of two functions: the body `createRequest` starts a request
  with, and the outcome of `sendRequest`.
- **`Date.now()`** is a `now: nat`.
- **`Buffer.toString('utf-8')`** is a function from bytes to text.
- **The XML parser** is a function from the `Sh-User-Data` value to a parse outcome.
- **FreeSWITCH's replies** to api commands are a function from argument to reply body.

Behaviour of the code that the model keeps as written:

- **The Profile-Update dispatch passes the wrong argument.** The handler calls `sendPURRequest(msisdn)` with the
  MSISDN header string where the builder expects an options object. Destructuring a string finds none of the
  option names, so the request is handed to `sendRequest` with an undefined identity value and an undefined Sh-Data. With no
  MSISDN header, destructuring `null` throws. The promise is never awaited, so every rejection on this path is
  unhandled (`PurDispatchSendsNoIdentity`, `PurWithoutMsisdnThrows`).
- **Repeated elements become arrays.** With `explicitArray: false` the parser still turns repeated sibling
  elements into an array, which the template literal writes joined by ','. No single occurrence is picked
  (`RepeatedElementsJoined`).
- **A socket error leaves the connection in place.** The error handler only ends the socket. The stored
  connection stays set, so later requests still pass the connection check (`Client.OnConnected`).
- **A blank `Sh-User-Data` reaches the callback as null.** `ParserBehaviour` states what the parser does with
  the two inputs that are not XML text. For blank text it calls back with no error and a null result, and the
  first property read then throws inside the async callback: an unhandled `TypeError`
  (`BlankUserDataIsUnhandled`). For undefined `Sh-User-Data` it reports an error, and the callback returns
  without writing anything (`MissingUserDataWritesNothing`).
- **An element named `toString` stops the writes.** An element with a child element called `toString` becomes
  an object whose own `toString` property is not a function. Writing that object into the template literal at
  line 64 of `sh-bridge.js` throws a `TypeError`. The loop ends at that variable, the async callback's promise
  rejects unhandled, and only the writes before it happen (`WritableCount`,
  `ParsedDocumentWritesUntilUnwritable`). An array throws when one of its items does.
- **A missing header renders as "null".** It is written as the text "null" in `${msisdn}` and `${uuid}`.

## Model

| member | source | states |
|---|---|---|
| DiameterSh.Client.constructor | diameter-Sh.js:18-34 | the configured identities are kept and no connection is stored before the connect callback runs |
| DiameterSh.Client.OnConnected | diameter-Sh.js:30-44 | the connect callback stores the connection; nothing else clears it |
| DiameterSh.Client.SendUdr | diameter-Sh.js:51-87 | with no connection, it rejects with the not-established error and sends nothing; otherwise it sends the created body followed by the User-Data AVPs for these options and this timestamp, and settles as the send outcome folded with Sh-User-Data decoded (transport error or decoding failure reject) |
| DiameterSh.Client.SendPur | diameter-Sh.js:99-133 | with no connection, it rejects and sends nothing; otherwise it sends the created body followed by the Profile-Update AVPs and settles with the last-write-wins fold of the answer, or rejects with the transport error |
| DiameterSh.Client.SendSnr | diameter-Sh.js:140-178 | the same guard and settlement for Subscribe-Notifications, with its own AVP list |
| DiameterSh.Client.SendDeviceWatchdog | diameter-Sh.js:181-202 | with no connection, it only warns "DWR skipped…"; otherwise it sends a Device-Watchdog under application 0 whose body is replaced by exactly Origin-Host and Origin-Realm, and a failed send is an unhandled rejection |
| ShRequests.SessionIdParts | diameter-Sh.js:61 | Session-Id splits at its last ';' into Origin-Host and the decimal timestamp, which reads back as the timestamp |
| ShRequests.EnvelopeAlwaysPresent | diameter-Sh.js:60-73 | every User-Data, Profile-Update and Subscribe-Notifications list carries the Session-Id for this host and time, Auth-Application-Id 16777217, the four peer identities and Vendor-Specific-Application-Id {10415, 16777217} |
| ShRequests.UdrStyleEnvelope | diameter-Sh.js:108-122 | any list laid out as User-Data or Profile-Update, with the fixed AVPs in positions 0-5 and 8, carries that envelope |
| ShRequests.SnrEnvelope | diameter-Sh.js:152-166 | the Subscribe-Notifications list carries the envelope although it swaps the destination AVPs |
| ShRequests.SnrStyleEnvelope | diameter-Sh.js:152-166 | any ten-AVP list laid out as Subscribe-Notifications carries that envelope |
| ShRequests.UdrLayout | diameter-Sh.js:60-73 | the User-Data list names exactly Session-Id, Auth-Application-Id, Origin-Host, Origin-Realm, Destination-Realm, Destination-Host, User-Identity, Data-Reference and Vendor-Specific-Application-Id, in that order |
| ShRequests.UdrCarriesQuery | diameter-Sh.js:51-73 | User-Identity holds the single pair (identityType, default Public-Identity; identityValue); Data-Reference is the caller's value, default 0; there is no Subs-Req-Type and no Sh-Data |
| ShRequests.PurCarriesQuery | diameter-Sh.js:99-122 | Profile-Update has the User-Data layout plus a final Sh-Data carrying repositoryDataXML; it always asks for Data-Reference 0 and ignores any caller value |
| ShRequests.SnrLayout | diameter-Sh.js:152-166 | the Subscribe-Notifications list has Destination-Host before Destination-Realm, and Subs-Req-Type between Data-Reference and Vendor-Specific-Application-Id |
| ShRequests.SnrOrder | diameter-Sh.js:157-162 | the first occurrences of Destination-Host, Destination-Realm, Data-Reference, Subs-Req-Type and Vendor-Specific-Application-Id are at positions 4, 5, 7, 8 and 9 |
| ShRequests.SnrCarriesQuery | diameter-Sh.js:140-166 | the identity pair is as in User-Data; Data-Reference defaults to 1 and Subs-Req-Type to 0 |
| ShAnswers.FoldAnswer | diameter-Sh.js:124-131 | the forEach loop over the answer computes exactly the last-write-wins map `Folded` |
| ShAnswers.FoldUserDataAnswer | diameter-Sh.js:75-86 | the User-Data loop computes `FoldedUserData`: it stops with an error at the first Sh-User-Data that has no text form |
| ShAnswers.FoldedKeys | diameter-Sh.js:126-129 | the folded map's keys are exactly the names in the answer |
| ShAnswers.FoldedLastWins | diameter-Sh.js:170-173 | for each name, the folded map holds the value of the last AVP with that name |
| ShAnswers.FoldedUserDataRejects | diameter-Sh.js:79-80 | the User-Data fold fails exactly when some Sh-User-Data value (an integer or undefined) cannot be converted by toString('utf-8') |
| ShAnswers.FoldedUserDataAgrees | diameter-Sh.js:77-83 | when it succeeds, the User-Data fold has the same keys as the plain fold, every other entry copied unchanged, and Sh-User-Data converted to text |
| ShData.FlattenFollowsPaths | sh-bridge.js:40-61 | the flattening has exactly the 14 variables, in the order of the `vars` literal, each equal to the value found by walking that variable's own element path (or '' when that value is falsy) |
| ShData.SectionsReached | sh-bridge.js:40-44 | shData, imsData, epsLocationInformation and pubIds are the nodes that the paths Sh-Data, Sh-Data/Sh-IMS-Data, Sh-Data/Extension/EPSLocationInformation and Sh-Data/PublicIdentifiers reach |
| ShData.MissingSegmentGivesEmpty | sh-bridge.js:40-61 | if any element along a variable's path is missing or empty, the variable's value is '' and is written as '' |
| ShData.OnlyMsisdnDocument | sh-bridge.js:40-61 | a document with only PublicIdentifiers/MSISDN gives that MSISDN and '' for the other thirteen variables |
| ShData.RepeatedElementsJoined | sh-bridge.js:59-65 | a repeated element, parsed as an array, is written as its occurrences' texts joined by ',' |
| ShData.TwoOccurrences | sh-bridge.js:59-65 | two occurrences a and b of one element are written "a,b" |
| ShBridge.SetvarArgRoundTrip | sh-bridge.js:65 | the uuid_setvar argument reads back as the uuid, the key and the whole value between the outer quotes, when neither uuid nor key has a space |
| ShBridge.VarNamesHaveNoSpace | sh-bridge.js:46-61 | no variable name contains a space |
| ShBridge.InjectVars | sh-bridge.js:63-70 | the loop issues one uuid_setvar per entry, in entry order, whatever the replies, up to the first value that cannot be written as text, where it throws; the warnings are exactly those of the refused writes |
| ShBridge.WritableCountStops | sh-bridge.js:63-65 | the loop gets through a count of entries whose values can all be written as text, and the value at that count, if any, cannot be |
| ShBridge.SetvarTraceShape | sh-bridge.js:63-70 | the loop's effects are one write per entry up to that count, then the TypeError if the loop stopped early, then only warnings |
| ShBridge.UntilFatalStopsAtFirst | sh-bridge.js:21-86 | when an unhandled rejection ends the process, what happens is a prefix of the trace with no unhandled rejection before its last effect, cut short only right after one |
| ShBridge.SetvarTraceUntilFatal | sh-bridge.js:63-70 | when an unhandled rejection ends the process, a loop that meets an unwritable value ends with its writes and the TypeError, and no refused-write warning is ever logged; a loop that gets through every entry keeps all its effects |
| ShBridge.SetvarCommandsReadBack | sh-bridge.js:46-65 | every write the loop issues, for a uuid without spaces, reads back as the uuid, the variable's name and the text of its path's value |
| ShBridge.FailedWritesAreWarnings | sh-bridge.js:65-68 | the reply callbacks produce nothing but warnings |
| ShBridge.FailedWritesBound | sh-bridge.js:65-68 | there are never more warnings than writes |
| ShBridge.FailedWritesNameRefused | sh-bridge.js:65-68 | each warning is "Failed to set var" followed by the key of a write whose trimmed reply was not +OK |
| ShBridge.NoWarningsIffAllAccepted | sh-bridge.js:65-68 | there are no warnings exactly when every trimmed reply is +OK |
| ShBridge.OkLineAccepted | sh-bridge.js:66 | a reply of +OK followed by a line break is accepted |
| JsText.TrimKeepsInnerText | sh-bridge.js:66 | trim removes exactly the leading and trailing white space and keeps the stretch between them |
| ShBridge.HandleEvent | sh-bridge.js:21-86 | the handler's effects for an event are exactly `ExpectedTrace` for the current connection |
| ShBridge.HandleUdr | sh-bridge.js:31-77 | the User-Data case sends the query (if connected), then on success hands the Sh-User-Data to the parser and its callback; a rejected query adds nothing |
| ShBridge.OnParsed | sh-bridge.js:37-72 | the parse callback does nothing after a parse error, throws an unhandled TypeError on a null result, and otherwise runs the setvar loop over the flattened document |
| ShBridge.HandlePur | sh-bridge.js:79-81 | the Profile-Update case sends its request (if connected) and leaves any rejection unhandled |
| ShBridge.NoSubclassDoesNothing | sh-bridge.js:24-26 | without an Event-Subclass, or with an empty one, there are no effects at all |
| ShBridge.UnknownSubclassOnlyWarns | sh-bridge.js:83-84 | any other subclass yields only the warning "Unknown ShFunction: " followed by the subclass |
| ShBridge.NotConnectedSendsNothing | sh-bridge.js:30-85 | with no connection, no event sends a request or writes a variable |
| ShBridge.UdrAsksForMsisdn | sh-bridge.js:34 | the User-Data query appends to the created body and asks for the MSISDN header, as text, as a Public-Identity with Data-Reference 0 |
| ShBridge.ParsedDocumentWritesUntilUnwritable | sh-bridge.js:37-70 | after a successful parse, the callback issues uuid_setvar commands in VarNames order, each with its path's value, up to the first value that cannot be written; that value ends it with an unhandled TypeError; only warnings follow |
| ShBridge.ParsedDocumentWritesEveryVariable | sh-bridge.js:37-70 | when every value can be written, there are exactly 14 uuid_setvar commands, in VarNames order, each with its path's value, and only warnings after them |
| ShBridge.UdrWritesEveryVariable | sh-bridge.js:31-70 | a parsed User-Data answer whose values can all be written gives the request followed by those 14 writes; refused writes only add warnings and suppress no other write |
| ShBridge.WritesOnlyAfterParse | sh-bridge.js:34-38 | a variable is written only if the subclass was sendUDRRequest, the query succeeded, its answer carried Sh-User-Data, and that Sh-User-Data parsed |
| ShBridge.MissingUserDataWritesNothing | sh-bridge.js:35-38 | an answer without Sh-User-Data gives a parse error, so the request is the only effect |
| ShBridge.BlankUserDataIsUnhandled | sh-bridge.js:37-40 | blank Sh-User-Data parses to null, so the request is followed only by an unhandled TypeError and nothing is written |
| ShBridge.PurDispatchSendsNoIdentity | sh-bridge.js:80 | the Profile-Update dispatch sends a request whose identity value and Sh-Data are undefined, whatever the MSISDN header |
| ShBridge.PurUnconnectedRejects | sh-bridge.js:80 | before a connection is stored, the Profile-Update dispatch sends nothing and leaves the rejection "Diameter connection is not established." unhandled |
| ShBridge.PurWithoutMsisdnThrows | sh-bridge.js:80 | with no MSISDN header, the Profile-Update dispatch only throws: a TypeError that nobody handles |

## Left out

- Loading `config.yaml` and exiting when it is missing: the four peer identities are the fields of `PeerConfig`.
- The Diameter library: connecting, the socket handlers for server-initiated messages, the AVP dictionary and the
  wire codec. `createRequest` and `sendRequest` are the two functions of a `Connection`.
- A `createRequest` that throws inside the watchdog's try block (only logged): the library is not part of the model.
- The 30-second `setInterval` that repeats the watchdog: timer behaviour. One watchdog call is modelled.
- XML parsing itself: the parser is a function from the Sh-User-Data value to a parse outcome.
- Concurrency: events and promise callbacks from different events interleaving. One event is handled on its own.
- Node's default for unhandled rejections (`--unhandled-rejections=throw` since Node 15): the traces list the
  effects as if an unhandled rejection were only reported, as with earlier Node versions or
  `--unhandled-rejections=warn`. None of the source files installs an `unhandledRejection` handler, so on the
  default every `Unhandled` effect (in the handler's traces, and a failed watchdog send) ends the process. Only
  `UntilFatal` of the trace then happens, and no later event is handled. `SetvarTraceUntilFatal` states this for
  the setvar loop.
- The replies to the `uuid_setvar` commands arriving in another order: the warnings are listed in command order.
- When the unhandled rejection of an unwritable value is reported relative to the reply callbacks: the trace puts
  it after the writes and before the warnings.
- `console.log` and `console.error`: they have no effect the bridge depends on. `console.warn` is a `Warn` effect.
- `freeswitch-esl-client.js` and `ws.js`: ESL and ARI connection set-up. `freeswitch-esl-client.js` is not part
  of this model. Of the `modesl` event object the handler receives, only `getHeader` is modelled: it gives a
  header's value or null.
- A `__proto__` element in the parsed document: it is read as an ordinary child.
- JavaScript number precision: integers are unbounded.
- Session-Id uniqueness: two requests in the same millisecond share a Session-Id, so nothing is claimed about it.
- Resuming the call: the code never does it.
- The `UserDataThrew` rejection is not told apart as a TypeError or a RangeError: the handler only logs it.
