/**
 * The request bodies the bridge builds for the 3GPP Sh interface
 * (User-Data, Profile-Update and Subscribe-Notifications; 3GPP TS 29.329,
 * section 6.1) and for the Device-Watchdog of section 5.5 of RFC 6733.
 * Building a body is pure: a fixed, ordered list of AVPs appended to the
 * body the Diameter library's `createRequest` starts with.
 */
module ShRequests {
  import opened Wrappers
  import opened JsText
  import opened Avp

  /** Auth-Application-Id of the Sh application. */
  const ShApplicationId: int := 16777217
  /** Vendor-Id of 3GPP. */
  const ThreeGppVendorId: int := 10415
  /** The application the library is asked for when it creates an Sh request. */
  const ShApplicationName: string := "3GPP Sh"
  /** The application id of Diameter base messages such as Device-Watchdog. */
  const BaseApplicationId: int := 0

  const DefaultIdentityType: string := "Public-Identity"
  const UdrDefaultDataReference: int := 0
  const SnrDefaultDataReference: int := 1
  const DefaultSubsReqType: int := 0
  /** Data-Reference RepositoryData, which every Profile-Update uses. */
  const RepositoryData: int := 0

  /** The four Diameter identities of the configuration. */
  datatype PeerConfig = PeerConfig(
    originHost: string,
    originRealm: string,
    destinationRealm: string,
    destinationHost: string)

  /**
   * The options object a caller passes to a builder. A property the caller
   * leaves out is None (or Undefined), so that the builder's default applies.
   */
  datatype Query = Query(
    identityType: Option<string>,
    identityValue: Value,
    dataReference: Option<int>,
    subsReqType: Option<int>,
    repositoryDataXML: Value)

  /** How `createRequest` names the application: by its dictionary name or by number. */
  datatype AppRef = ByName(name: string) | ById(id: int)

  datatype Request = Request(application: AppRef, command: string, body: seq<Avp>)

  /** The Session-Id every Sh request carries: origin host, ';', the timestamp. */
  function SessionId(originHost: string, now: nat): string {
    originHost + ";" + NatText(now)
  }

  function UserIdentity(q: Query): Avp {
    Avp("User-Identity", Grouped([Avp(q.identityType.GetOr(DefaultIdentityType), q.identityValue)]))
  }

  function VendorSpecificApplicationId(): Avp {
    Avp("Vendor-Specific-Application-Id",
      Grouped([Avp("Vendor-Id", Int(ThreeGppVendorId)), Avp("Auth-Application-Id", Int(ShApplicationId))]))
  }

  /** The AVPs `sendUDRRequest` appends. */
  function UdrAvps(cfg: PeerConfig, q: Query, now: nat): seq<Avp> {
    [ Avp("Session-Id", Str(SessionId(cfg.originHost, now))),
      Avp("Auth-Application-Id", Int(ShApplicationId)),
      Avp("Origin-Host", Str(cfg.originHost)),
      Avp("Origin-Realm", Str(cfg.originRealm)),
      Avp("Destination-Realm", Str(cfg.destinationRealm)),
      Avp("Destination-Host", Str(cfg.destinationHost)),
      UserIdentity(q),
      Avp("Data-Reference", Int(q.dataReference.GetOr(UdrDefaultDataReference))),
      VendorSpecificApplicationId() ]
  }

  /** The AVPs `sendPURRequest` appends; the caller's dataReference plays no part. */
  function PurAvps(cfg: PeerConfig, q: Query, now: nat): seq<Avp> {
    [ Avp("Session-Id", Str(SessionId(cfg.originHost, now))),
      Avp("Auth-Application-Id", Int(ShApplicationId)),
      Avp("Origin-Host", Str(cfg.originHost)),
      Avp("Origin-Realm", Str(cfg.originRealm)),
      Avp("Destination-Realm", Str(cfg.destinationRealm)),
      Avp("Destination-Host", Str(cfg.destinationHost)),
      UserIdentity(q),
      Avp("Data-Reference", Int(RepositoryData)),
      VendorSpecificApplicationId(),
      Avp("Sh-Data", q.repositoryDataXML) ]
  }

  /** The AVPs `sendSNRRequest` appends. */
  function SnrAvps(cfg: PeerConfig, q: Query, now: nat): seq<Avp> {
    [ Avp("Session-Id", Str(SessionId(cfg.originHost, now))),
      Avp("Auth-Application-Id", Int(ShApplicationId)),
      Avp("Origin-Host", Str(cfg.originHost)),
      Avp("Origin-Realm", Str(cfg.originRealm)),
      Avp("Destination-Host", Str(cfg.destinationHost)),
      Avp("Destination-Realm", Str(cfg.destinationRealm)),
      UserIdentity(q),
      Avp("Data-Reference", Int(q.dataReference.GetOr(SnrDefaultDataReference))),
      Avp("Subs-Req-Type", Int(q.subsReqType.GetOr(DefaultSubsReqType))),
      VendorSpecificApplicationId() ]
  }

  /** The whole body of the Device-Watchdog request. */
  function WatchdogAvps(cfg: PeerConfig): seq<Avp> {
    [ Avp("Origin-Host", Str(cfg.originHost)),
      Avp("Origin-Realm", Str(cfg.originRealm)) ]
  }

  /** A User-Data request: the library's initial body followed by UdrAvps. */
  function UdrRequest(cfg: PeerConfig, q: Query, now: nat, initial: seq<Avp>): Request {
    Request(ByName(ShApplicationName), "User-Data", initial + UdrAvps(cfg, q, now))
  }

  /** A Profile-Update request: the library's initial body followed by PurAvps. */
  function PurRequest(cfg: PeerConfig, q: Query, now: nat, initial: seq<Avp>): Request {
    Request(ByName(ShApplicationName), "Profile-Update", initial + PurAvps(cfg, q, now))
  }

  /** A Subscribe-Notifications request: the library's initial body followed by SnrAvps. */
  function SnrRequest(cfg: PeerConfig, q: Query, now: nat, initial: seq<Avp>): Request {
    Request(ByName(ShApplicationName), "Subscribe-Notifications", initial + SnrAvps(cfg, q, now))
  }

  // ---------------------------------------------------------------------------
  // What a peer reads back from an Sh request body.

  /** The identity pair inside the first User-Identity AVP. */
  function ReadIdentity(avps: seq<Avp>): Option<Avp> {
    match Find(avps, "User-Identity")
    case Some(Grouped(pairs)) => if |pairs| == 1 then Some(pairs[0]) else None
    case _ => None
  }

  /**
   * The fixed envelope an appended Sh AVP list carries, each AVP read at its
   * first occurrence in the list.
   */
  predicate ShEnvelope(avps: seq<Avp>, cfg: PeerConfig, now: nat) {
    && Find(avps, "Session-Id") == Some(Str(SessionId(cfg.originHost, now)))
    && Find(avps, "Auth-Application-Id") == Some(Int(ShApplicationId))
    && Find(avps, "Origin-Host") == Some(Str(cfg.originHost))
    && Find(avps, "Origin-Realm") == Some(Str(cfg.originRealm))
    && Find(avps, "Destination-Realm") == Some(Str(cfg.destinationRealm))
    && Find(avps, "Destination-Host") == Some(Str(cfg.destinationHost))
    && Find(avps, "Vendor-Specific-Application-Id") == Some(VendorSpecificApplicationId().value)
  }

  /** The Session-Id splits back, at its last ';', into the origin host and the timestamp. */
  lemma SessionIdParts(originHost: string, now: nat)
    ensures SplitAtLast(SessionId(originHost, now), ';') == Some((originHost, NatText(now)))
    ensures ParseNat(NatText(now)) == Some(now)
  {
    var t := NatText(now);
    forall i | 0 <= i < |t| ensures t[i] != ';' {
      assert IsDigit(t[i]);
    }
    assert SessionId(originHost, now) == originHost + [';'] + t;
    SplitAtLastJoin(originHost, ';', t);
    NatTextRoundTrip(now);
  }

  /** Whatever the query, User-Data, Profile-Update and Subscribe-Notifications carry the envelope. */
  lemma EnvelopeAlwaysPresent(cfg: PeerConfig, q: Query, now: nat)
    ensures ShEnvelope(UdrAvps(cfg, q, now), cfg, now)
    ensures ShEnvelope(PurAvps(cfg, q, now), cfg, now)
    ensures ShEnvelope(SnrAvps(cfg, q, now), cfg, now)
  {
    UdrStyleEnvelope(UdrAvps(cfg, q, now), cfg, now);
    UdrStyleEnvelope(PurAvps(cfg, q, now), cfg, now);
    SnrEnvelope(cfg, q, now);
  }

  /** The envelope of a body that starts with the User-Data layout. */
  lemma UdrStyleEnvelope(a: seq<Avp>, cfg: PeerConfig, now: nat)
    requires |a| >= 9
    requires a[0] == Avp("Session-Id", Str(SessionId(cfg.originHost, now)))
    requires a[1] == Avp("Auth-Application-Id", Int(ShApplicationId))
    requires a[2] == Avp("Origin-Host", Str(cfg.originHost))
    requires a[3] == Avp("Origin-Realm", Str(cfg.originRealm))
    requires a[4] == Avp("Destination-Realm", Str(cfg.destinationRealm))
    requires a[5] == Avp("Destination-Host", Str(cfg.destinationHost))
    requires a[6].name == "User-Identity" && a[7].name == "Data-Reference"
    requires a[8] == VendorSpecificApplicationId()
    ensures ShEnvelope(a, cfg, now)
  {
    FindAt(a, "Session-Id", 0);
    FindAt(a, "Auth-Application-Id", 1);
    FindAt(a, "Origin-Host", 2);
    FindAt(a, "Origin-Realm", 3);
    FindAt(a, "Destination-Realm", 4);
    FindAt(a, "Destination-Host", 5);
    FindAt(a, "Vendor-Specific-Application-Id", 8);
  }

  lemma SnrEnvelope(cfg: PeerConfig, q: Query, now: nat)
    ensures ShEnvelope(SnrAvps(cfg, q, now), cfg, now)
  {
    SnrStyleEnvelope(SnrAvps(cfg, q, now), cfg, now);
  }

  /** The envelope of a body laid out as Subscribe-Notifications'. */
  lemma SnrStyleEnvelope(a: seq<Avp>, cfg: PeerConfig, now: nat)
    requires |a| == 10
    requires a[0] == Avp("Session-Id", Str(SessionId(cfg.originHost, now)))
    requires a[1] == Avp("Auth-Application-Id", Int(ShApplicationId))
    requires a[2] == Avp("Origin-Host", Str(cfg.originHost))
    requires a[3] == Avp("Origin-Realm", Str(cfg.originRealm))
    requires a[4] == Avp("Destination-Host", Str(cfg.destinationHost))
    requires a[5] == Avp("Destination-Realm", Str(cfg.destinationRealm))
    requires a[6].name == "User-Identity" && a[7].name == "Data-Reference" && a[8].name == "Subs-Req-Type"
    requires a[9] == VendorSpecificApplicationId()
    ensures ShEnvelope(a, cfg, now)
  {
    FindAt(a, "Session-Id", 0);
    FindAt(a, "Auth-Application-Id", 1);
    FindAt(a, "Origin-Host", 2);
    FindAt(a, "Origin-Realm", 3);
    FindAt(a, "Destination-Host", 4);
    FindAt(a, "Destination-Realm", 5);
    FindAt(a, "Vendor-Specific-Application-Id", 9);
  }

  /** The exact order of the AVPs a User-Data request appends. */
  lemma UdrLayout(cfg: PeerConfig, q: Query, now: nat)
    ensures Names(UdrAvps(cfg, q, now)) ==
      ["Session-Id", "Auth-Application-Id", "Origin-Host", "Origin-Realm", "Destination-Realm",
       "Destination-Host", "User-Identity", "Data-Reference", "Vendor-Specific-Application-Id"]
  {
  }

  /** A User-Data request carries the caller's identity and Data-Reference, with the defaults. */
  lemma UdrCarriesQuery(cfg: PeerConfig, q: Query, now: nat)
    ensures ReadIdentity(UdrAvps(cfg, q, now)) == Some(Avp(q.identityType.GetOr("Public-Identity"), q.identityValue))
    ensures Find(UdrAvps(cfg, q, now), "Data-Reference") == Some(Int(q.dataReference.GetOr(0)))
    ensures Find(UdrAvps(cfg, q, now), "Subs-Req-Type").None? && Find(UdrAvps(cfg, q, now), "Sh-Data").None?
  {
    var u := UdrAvps(cfg, q, now);
    FindAt(u, "User-Identity", 6);
    FindAt(u, "Data-Reference", 7);
    FindAbsent(u, "Subs-Req-Type");
    FindAbsent(u, "Sh-Data");
  }

  /**
   * A Profile-Update request has the User-Data layout followed by Sh-Data, always
   * asks for RepositoryData whatever the caller passed, and ends with the payload.
   */
  lemma PurCarriesQuery(cfg: PeerConfig, q: Query, now: nat)
    ensures Names(PurAvps(cfg, q, now)) == Names(UdrAvps(cfg, q, now)) + ["Sh-Data"]
    ensures ReadIdentity(PurAvps(cfg, q, now)) == Some(Avp(q.identityType.GetOr("Public-Identity"), q.identityValue))
    ensures Find(PurAvps(cfg, q, now), "Data-Reference") == Some(Int(0))
    ensures var avps := PurAvps(cfg, q, now); avps[|avps| - 1] == Avp("Sh-Data", q.repositoryDataXML)
    ensures forall d :: PurAvps(cfg, q, now) == PurAvps(cfg, q.(dataReference := d), now)
  {
    var p := PurAvps(cfg, q, now);
    FindAt(p, "User-Identity", 6);
    FindAt(p, "Data-Reference", 7);
  }

  /**
   * A Subscribe-Notifications request lists Destination-Host before
   * Destination-Realm and puts Subs-Req-Type between Data-Reference and
   * Vendor-Specific-Application-Id.
   */
  lemma SnrLayout(cfg: PeerConfig, q: Query, now: nat)
    ensures Names(SnrAvps(cfg, q, now)) ==
      ["Session-Id", "Auth-Application-Id", "Origin-Host", "Origin-Realm", "Destination-Host",
       "Destination-Realm", "User-Identity", "Data-Reference", "Subs-Req-Type",
       "Vendor-Specific-Application-Id"]
  {
  }

  /** The positions of the reordered and the inserted AVPs: the first occurrence of each name. */
  lemma SnrOrder(cfg: PeerConfig, q: Query, now: nat)
    ensures IndexOf(SnrAvps(cfg, q, now), "Destination-Host") == Some(4)
    ensures IndexOf(SnrAvps(cfg, q, now), "Destination-Realm") == Some(5)
    ensures IndexOf(SnrAvps(cfg, q, now), "Data-Reference") == Some(7)
    ensures IndexOf(SnrAvps(cfg, q, now), "Subs-Req-Type") == Some(8)
    ensures IndexOf(SnrAvps(cfg, q, now), "Vendor-Specific-Application-Id") == Some(9)
  {
    var s := SnrAvps(cfg, q, now);
    FindAt(s, "Destination-Host", 4);
    FindAt(s, "Destination-Realm", 5);
    FindAt(s, "Data-Reference", 7);
    FindAt(s, "Subs-Req-Type", 8);
    FindAt(s, "Vendor-Specific-Application-Id", 9);
  }

  /** A Subscribe-Notifications request carries the caller's options, with the defaults 1 and 0. */
  lemma SnrCarriesQuery(cfg: PeerConfig, q: Query, now: nat)
    ensures ReadIdentity(SnrAvps(cfg, q, now)) == Some(Avp(q.identityType.GetOr("Public-Identity"), q.identityValue))
    ensures Find(SnrAvps(cfg, q, now), "Data-Reference") == Some(Int(q.dataReference.GetOr(1)))
    ensures Find(SnrAvps(cfg, q, now), "Subs-Req-Type") == Some(Int(q.subsReqType.GetOr(0)))
  {
    var s := SnrAvps(cfg, q, now);
    FindAt(s, "User-Identity", 6);
    FindAt(s, "Data-Reference", 7);
    FindAt(s, "Subs-Req-Type", 8);
  }
}
