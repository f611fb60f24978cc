/**
 * The Diameter client of the bridge: the connection that the connect
 * callback stores in the process-wide `diameterConnection`, the three Sh
 * builders that check it before building and sending a request, and the
 * Device-Watchdog request.
 */
module DiameterSh {
  import opened Wrappers
  import opened Avp
  import opened ShRequests
  import opened ShAnswers

  /** How the library's `sendRequest` promise settles. */
  datatype Reply = Answered(body: seq<Avp>) | SendFailed(reason: string)

  /**
   * The connection object of the Diameter library, seen through the two calls
   * the bridge makes on it: `createRequest`, which gives the body a new
   * request starts with, and `sendRequest`.
   */
  datatype Connection = Connection(create: (AppRef, string) -> seq<Avp>, send: Request -> Reply)

  /** Why a builder's promise rejects. */
  datatype ShError =
    | NotConnected                  // no connection has been stored yet
    | TransportError(reason: string) // sendRequest rejected
    | UserDataThrew                 // toString('utf-8') threw on Sh-User-Data
  {
    /**
     * The message of the rejection: the builders' own text when there is no
     * connection, the library's reason for a failed send. The runtime's own
     * message for a failed conversion is not modelled; a fixed text stands
     * for it.
     */
    function Message(): string {
      match this
      case NotConnected => NotConnectedMessage
      case TransportError(reason) => reason
      case UserDataThrew => UserDataThrewMessage
    }
  }

  const NotConnectedMessage: string := "Diameter connection is not established."
  const UserDataThrewMessage: string := "Sh-User-Data has no text form."
  const WatchdogSkippedMessage: string := "DWR skipped: No Diameter connection established."

  /** How `sendUDRRequest`'s promise settles once its request has been answered or has failed. */
  function UdrSettles(reply: Reply, utf8: seq<bv8> -> string): Result<map<string, Value>, ShError> {
    match reply
    case SendFailed(e) => Err(TransportError(e))
    case Answered(body) =>
      match FoldedUserData(body, utf8)
      case Ok(m) => Ok(m)
      case Err(_) => Err(UserDataThrew)
  }

  /** How `sendPURRequest`'s and `sendSNRRequest`'s promises settle. */
  function AnswerSettles(reply: Reply): Result<map<string, Value>, ShError> {
    match reply
    case SendFailed(e) => Err(TransportError(e))
    case Answered(body) => Ok(Folded(body))
  }

  class Client {
    /** OriginHost, OriginRealm, DestinationRealm and DestinationHost of the configuration. */
    const config: PeerConfig
    /** `global.diameterConnection`: None until the connect callback has run. */
    var connection: Option<Connection>

    /** The module at load time: configured, not yet connected. */
    constructor (config: PeerConfig)
      ensures this.config == config && connection.None?
    {
      this.config := config;
      connection := None;
    }

    /**
     * The connect callback stores the connection. The socket's error handler
     * only ends the socket and leaves the stored connection in place.
     */
    method OnConnected(c: Connection)
      modifies this
      ensures connection == Some(c)
    {
      connection := Some(c);
    }

    /** `sendUDRRequest`: the request it sends (if any) and how its promise settles. */
    method SendUdr(q: Query, now: nat, utf8: seq<bv8> -> string)
      returns (sent: Option<Request>, r: Result<map<string, Value>, ShError>)
      ensures connection.None? ==> sent.None? && r == Err(NotConnected)
      ensures connection.Some? ==>
        var c := connection.value;
        && sent == Some(UdrRequest(config, q, now, c.create(ByName(ShApplicationName), "User-Data")))
        && r == UdrSettles(c.send(sent.value), utf8)
    {
      if connection.None? {
        return None, Err(NotConnected);
      }
      var c := connection.value;
      var request := Request(ByName(ShApplicationName), "User-Data", c.create(ByName(ShApplicationName), "User-Data"));
      request := request.(body := request.body + UdrAvps(config, q, now));
      sent := Some(request);
      match c.send(request) {
        case SendFailed(e) =>
          r := Err(TransportError(e));
        case Answered(body) =>
          var folded := FoldUserDataAnswer(body, utf8);
          r := if folded.Ok? then Ok(folded.value) else Err(UserDataThrew);
      }
    }

    /** `sendPURRequest`: the request it sends (if any) and how its promise settles. */
    method SendPur(q: Query, now: nat)
      returns (sent: Option<Request>, r: Result<map<string, Value>, ShError>)
      ensures connection.None? ==> sent.None? && r == Err(NotConnected)
      ensures connection.Some? ==>
        var c := connection.value;
        && sent == Some(PurRequest(config, q, now, c.create(ByName(ShApplicationName), "Profile-Update")))
        && r == AnswerSettles(c.send(sent.value))
    {
      if connection.None? {
        return None, Err(NotConnected);
      }
      var c := connection.value;
      var request := Request(ByName(ShApplicationName), "Profile-Update", c.create(ByName(ShApplicationName), "Profile-Update"));
      request := request.(body := request.body + PurAvps(config, q, now));
      sent := Some(request);
      match c.send(request) {
        case SendFailed(e) =>
          r := Err(TransportError(e));
        case Answered(body) =>
          var folded := FoldAnswer(body);
          r := Ok(folded);
      }
    }

    /** `sendSNRRequest`: the request it sends (if any) and how its promise settles. */
    method SendSnr(q: Query, now: nat)
      returns (sent: Option<Request>, r: Result<map<string, Value>, ShError>)
      ensures connection.None? ==> sent.None? && r == Err(NotConnected)
      ensures connection.Some? ==>
        var c := connection.value;
        && sent == Some(SnrRequest(config, q, now, c.create(ByName(ShApplicationName), "Subscribe-Notifications")))
        && r == AnswerSettles(c.send(sent.value))
    {
      if connection.None? {
        return None, Err(NotConnected);
      }
      var c := connection.value;
      var request := Request(ByName(ShApplicationName), "Subscribe-Notifications",
        c.create(ByName(ShApplicationName), "Subscribe-Notifications"));
      request := request.(body := request.body + SnrAvps(config, q, now));
      sent := Some(request);
      match c.send(request) {
        case SendFailed(e) =>
          r := Err(TransportError(e));
        case Answered(body) =>
          var folded := FoldAnswer(body);
          r := Ok(folded);
      }
    }

    /**
     * `sendDeviceWatchdogRequest`: skipped with a warning when there is no
     * connection; otherwise the new request's body is REPLACED by Origin-Host
     * and Origin-Realm. Its promise is not awaited, so a failed send is an
     * unhandled rejection (`unhandled`). The stored connection is not touched.
     */
    method SendDeviceWatchdog() returns (sent: Option<Request>, warning: Option<string>, unhandled: Option<string>)
      ensures connection.None? ==> sent.None? && warning == Some(WatchdogSkippedMessage) && unhandled.None?
      ensures connection.Some? ==>
        && warning.None?
        && sent == Some(Request(ById(BaseApplicationId), "Device-Watchdog",
             [Avp("Origin-Host", Str(config.originHost)), Avp("Origin-Realm", Str(config.originRealm))]))
        && unhandled == (match connection.value.send(sent.value) case SendFailed(e) => Some(e) case Answered(_) => None)
    {
      if connection.None? {
        return None, Some(WatchdogSkippedMessage), None;
      }
      var c := connection.value;
      var request := Request(ById(BaseApplicationId), "Device-Watchdog", c.create(ById(BaseApplicationId), "Device-Watchdog"));
      request := request.(body := WatchdogAvps(config));
      sent, warning := Some(request), None;
      unhandled := match c.send(request) case SendFailed(e) => Some(e) case Answered(_) => None;
    }
  }
}
