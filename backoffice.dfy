/**
 * The mock backoffice (mock-server.js): the gate and zone checkpoint
 * handlers, session issuance and staff login, over the in-memory tables
 * `mockTickets` and `mockStaff`.
 *
 * Both scan handlers run the same chain of checks, each ending in a DENY:
 * a missing field or a token that is not three '.'-separated segments whose
 * second segment decodes to an object gives INVALID, `exp < now` gives
 * EXPIRED, a subject missing from the table gives NOT_FOUND. The signature
 * segment is never verified and the gate allowlist is never consulted. The
 * gate then requires status "ACTIVE" and commits ACTIVE -> USED in place; the
 * zone admits the literal ticket "TK-001" only and never writes.
 */
module Backoffice {
  import opened Common
  import opened Jwt

  const ACTIVE: string := "ACTIVE"
  const USED: string := "USED"

  /** A record of `mockTickets`; `usedAt` is the epoch second of the gate commit. */
  datatype Ticket = Ticket(
    ticketId: string,
    eventId: string,
    status: string,
    holderName: string,
    entitlements: Option<seq<string>>,
    gateAllowlist: seq<string>,
    usedAt: Option<int>)

  /** The global session key handed to every attendee. */
  const SessionKey: string := "demo_session_key_supersecret_2025"

  const MockTickets: map<string, Ticket> := map[
    "TK-001" := Ticket("TK-001", "evt_1", ACTIVE, "Ana María Gómez",
                       Some(["Z-VIP", "Z-BSTG", "Z-PRESS"]), ["G-SUR", "G-NORTE"], None)]

  datatype Role = Gate | Zone

  datatype Staff = Staff(
    staffId: string,
    displayName: string,
    role: Role,
    pin: string,
    gateId: Option<string>,
    zoneCheckpointId: Option<string>)

  const MockStaff: map<string, Staff> := map[
    "carlos" := Staff("carlos", "Carlos Rodríguez", Gate, "1234", Some("gate_1"), None),
    "maya" := Staff("maya", "Maya López", Zone, "4321", None, Some("zc_10")),
    "admin" := Staff("admin", "Admin User", Gate, "0000", Some("gate_1"), None)]

  /** The reason codes the handlers send. */
  datatype Reason = Invalid | Expired | NotFound | Used | NoEntitlement

  /** The wire text of a reason code. */
  function ReasonCode(r: Reason): (code: string)
    ensures code in {"INVALID", "EXPIRED", "NOT_FOUND", "USED", "NO_ENTITLEMENT"}
  {
    match r
    case Invalid => "INVALID"
    case Expired => "EXPIRED"
    case NotFound => "NOT_FOUND"
    case Used => "USED"
    case NoEntitlement => "NO_ENTITLEMENT"
  }

  /** A scan response: ALLOW (the gate adds `ticketId` and `entitlements`) or DENY with a reason. */
  datatype Decision = Allow(ticketId: Option<string>, entitlements: Option<seq<string>>) | Deny(reason: Reason)

  /** A JSON request body, as far as the handlers read it: its string fields. */
  type Body = map<string, string>

  /** `req.body.name`. */
  function Field(body: Body, name: string): Option<string> {
    if name in body then Some(body[name]) else None
  }

  // ---------------------------------------------------------------------------
  // The checks both scan handlers share

  /** `props.key` on a parsed object. */
  function Prop(props: map<string, Value>, key: string): Property {
    Get(Object(props), key).value
  }

  /** JavaScript truthiness of a property value. */
  predicate IsTruthy(x: Property) {
    match x
    case Undefined => false
    case Defined(Str(s)) => s != ""
    case Defined(Num(n)) => n != 0
  }

  /** `payload.sub || payload.tid`. */
  function SubjectOf(props: map<string, Value>): (subject: Property)
    ensures IsTruthy(Prop(props, "sub")) ==> subject == Prop(props, "sub")
    ensures !IsTruthy(Prop(props, "sub")) ==> subject == Prop(props, "tid")
  {
    var sub := Prop(props, "sub");
    if IsTruthy(sub) then sub else Prop(props, "tid")
  }

  /** The property key `table[x]` looks up: `String(x)`. */
  function PropertyKey(x: Property): string {
    match x
    case Undefined => "undefined"
    case Defined(Str(s)) => s
    case Defined(Num(n)) => IntToString(n)
  }

  /**
   * The payload of a scanned token: present when the token splits into
   * exactly three segments and the middle one decodes to an object. Otherwise
   * the handler throws (the format check, `atob`, `JSON.parse`, or reading
   * `exp` of `null`) and its catch answers INVALID.
   */
  function ScannedPayload(p: Platform, qr: string): Option<map<string, Value>> {
    var parts := Split(qr, '.');
    if |parts| != 3 then None
    else
      match DecodeSegment(p, parts[1])
      case Ok(Object(props)) => Some(props)
      case _ => None
  }

  /** The request carries both fields and a token whose payload decodes. */
  predicate WellFormed(p: Platform, qr: Option<string>, checkpointId: Option<string>) {
    Truthy(qr) && Truthy(checkpointId) && ScannedPayload(p, qr.value).Some?
  }

  /** Outcome of the shared checks: a DENY reason, or the subject and the table key it found. */
  datatype Check = Rejected(reason: Reason) | Admitted(subject: Property, ticketId: string)

  /** The checks of lines 134-169 (gate) and 205-237 (zone), in order. */
  function CheckToken(p: Platform, tickets: map<string, Ticket>, qr: Option<string>,
                      checkpointId: Option<string>, now: int): (c: Check)
    ensures c.Admitted? ==> c.ticketId in tickets && c.ticketId == PropertyKey(c.subject)
    ensures c == Rejected(Invalid) <==> !WellFormed(p, qr, checkpointId)
  {
    if !Truthy(qr) || !Truthy(checkpointId) then Rejected(Invalid)
    else
      match ScannedPayload(p, qr.value)
      case None => Rejected(Invalid)
      case Some(claims) =>
        if Before(p, Prop(claims, "exp"), now) then Rejected(Expired)
        else
          var subject := SubjectOf(claims);
          var key := PropertyKey(subject);
          if key !in tickets then Rejected(NotFound)
          else Admitted(subject, key)
  }

  // ---------------------------------------------------------------------------
  // POST /validate/scan

  datatype GateResult = GateResult(decision: Decision, tickets: map<string, Ticket>)

  /** The ticket as the gate commit leaves it. */
  function Consumed(t: Ticket, now: int): Ticket {
    t.(status := USED, usedAt := Some(now))
  }

  /**
   * The gate handler on table `tickets` at epoch second `now`: the shared
   * checks, then DENY/USED unless the status is "ACTIVE", then the commit.
   */
  function GateScan(p: Platform, tickets: map<string, Ticket>, body: Body, now: int): (r: GateResult)
    ensures r.tickets.Keys == tickets.Keys
    ensures r.decision.Deny? ==> r.tickets == tickets
    ensures r.decision.Allow? ==>
              && r.decision.ticketId.Some?
              && var id := r.decision.ticketId.value;
              && id in tickets && tickets[id].status == ACTIVE
              && r.tickets == tickets[id := Consumed(tickets[id], now)]
              && r.decision.entitlements == Some(tickets[id].entitlements.GetOr([]))
  {
    match CheckToken(p, tickets, Field(body, "qr"), Field(body, "gateId"), now)
    case Rejected(reason) => GateResult(Deny(reason), tickets)
    case Admitted(_, id) =>
      var ticket := tickets[id];
      if ticket.status != ACTIVE then GateResult(Deny(Used), tickets)
      else GateResult(Allow(Some(id), Some(ticket.entitlements.GetOr([]))), tickets[id := Consumed(ticket, now)])
  }

  // ---------------------------------------------------------------------------
  // POST /zones/checkpoint/scan

  /** The zone handler: the shared checks, then ALLOW for the literal ticket "TK-001" only. */
  function ZoneScan(p: Platform, tickets: map<string, Ticket>, body: Body, now: int): (d: Decision)
    ensures d.Allow? ==> d.ticketId.None? && d.entitlements.None?
  {
    match CheckToken(p, tickets, Field(body, "qr"), Field(body, "zoneCheckpointId"), now)
    case Rejected(reason) => Deny(reason)
    case Admitted(subject, _) =>
      if subject == Defined(Str("TK-001")) then Allow(None, None)
      else Deny(NoEntitlement)
  }

  // ---------------------------------------------------------------------------
  // GET /api/tickets/:id/session and POST /api/staff/login

  /** An HTTP answer: a JSON body with status 200, or an error status with its `error` text. */
  datatype Response<T> = Ok200(body: T) | Error(status: int, error: string)

  datatype SessionInfo = SessionInfo(ticketId: string, sessionKey: string, exp: int)

  /** Session lifetime: 24 hours. */
  const SessionSeconds: int := 24 * 60 * 60

  function IssueSession(tickets: map<string, Ticket>, ticketId: string, now: int): (r: Response<SessionInfo>)
    ensures r.Ok200? ==> r.body.sessionKey == SessionKey && r.body.exp == now + 86400
  {
    if ticketId !in tickets then Error(404, "Ticket not found")
    else
      var ticket := tickets[ticketId];
      if ticket.status != ACTIVE then Error(400, "Ticket not active")
      else Ok200(SessionInfo(ticket.ticketId, SessionKey, now + SessionSeconds))
  }

  /** The login answer: the staff record without its PIN. */
  datatype StaffView = StaffView(
    staffId: string,
    displayName: string,
    role: Role,
    gateId: Option<string>,
    zoneCheckpointId: Option<string>)

  /** `...(x && { key: x })`: the field is present only when the record's value is non-empty. */
  function IfTruthy(x: Option<string>): (r: Option<string>)
    ensures r.Some? <==> Truthy(x)
    ensures r.Some? ==> r == x
  {
    if Truthy(x) then x else None
  }

  function StaffLogin(body: Body): (r: Response<StaffView>)
    ensures r.Ok200? ==> Field(body, "staffId") == Some(r.body.staffId) && r.body.staffId in MockStaff
  {
    var staffId := Field(body, "staffId");
    var pin := Field(body, "pin");
    if !Truthy(staffId) || !Truthy(pin) then Error(400, "staffId and pin are required")
    else if staffId.value !in MockStaff then Error(404, "Staff not found")
    else
      var staff := MockStaff[staffId.value];
      if staff.pin != pin.value then Error(401, "Invalid PIN")
      else Ok200(StaffView(staff.staffId, staff.displayName, staff.role,
                           IfTruthy(staff.gateId), IfTruthy(staff.zoneCheckpointId)))
  }

  // ---------------------------------------------------------------------------
  // The server object: the ticket table it mutates

  class Server {
    const platform: Platform
    var tickets: map<string, Ticket>

    constructor (p: Platform)
      ensures platform == p && tickets == MockTickets
    {
      platform := p;
      tickets := MockTickets;
    }

    /** POST /validate/scan: checks in order, then commits the ticket in place. */
    method ScanGate(body: Body, now: int) returns (decision: Decision)
      modifies this
      ensures GateResult(decision, tickets) == GateScan(platform, old(tickets), body, now)
    {
      var check := CheckToken(platform, tickets, Field(body, "qr"), Field(body, "gateId"), now);
      if check.Rejected? {
        return Deny(check.reason);
      }
      var ticket := tickets[check.ticketId];
      if ticket.status != ACTIVE {
        return Deny(Used);
      }
      tickets := tickets[check.ticketId := Consumed(ticket, now)];
      decision := Allow(Some(check.ticketId), Some(ticket.entitlements.GetOr([])));
    }
  }

  // ---------------------------------------------------------------------------
  // Properties of the gate handler

  /**
   * DENY/INVALID is the answer exactly for a request that is missing `qr` or
   * `gateId`, or whose token does not split into three segments with a
   * decodable object in the middle; the table is then unchanged.
   */
  lemma GateInvalid(p: Platform, tickets: map<string, Ticket>, body: Body, now: int)
    ensures var r := GateScan(p, tickets, body, now);
            (r.decision == Deny(Invalid) <==> !WellFormed(p, Field(body, "qr"), Field(body, "gateId")))
            && (r.decision == Deny(Invalid) ==> r.tickets == tickets)
  {
  }

  /** The claims of a well-formed request's token. */
  function ClaimsOf(p: Platform, body: Body): map<string, Value>
    requires Truthy(Field(body, "qr")) && ScannedPayload(p, Field(body, "qr").value).Some?
  {
    ScannedPayload(p, Field(body, "qr").value).value
  }

  /**
   * For a well-formed request, DENY/EXPIRED exactly when `payload.exp < now`;
   * a token with `exp == now` passes, and so does one without `exp`.
   */
  lemma GateExpiry(p: Platform, tickets: map<string, Ticket>, body: Body, now: int)
    requires WellFormed(p, Field(body, "qr"), Field(body, "gateId"))
    ensures GateScan(p, tickets, body, now).decision == Deny(Expired) <==>
              Before(p, Prop(ClaimsOf(p, body), "exp"), now)
    ensures Prop(ClaimsOf(p, body), "exp") in {Defined(Num(now)), Undefined} ==>
              GateScan(p, tickets, body, now).decision != Deny(Expired)
  {
  }

  /**
   * Past the expiry step, the subject `sub || tid` is looked up and
   * DENY/NOT_FOUND is the answer exactly when the table has no such key.
   */
  lemma GateUnknownSubject(p: Platform, tickets: map<string, Ticket>, body: Body, now: int)
    requires WellFormed(p, Field(body, "qr"), Field(body, "gateId"))
    requires !Before(p, Prop(ClaimsOf(p, body), "exp"), now)
    ensures GateScan(p, tickets, body, now).decision == Deny(NotFound) <==>
              PropertyKey(SubjectOf(ClaimsOf(p, body))) !in tickets
  {
  }

  /**
   * For a found ticket: DENY/USED exactly when its status is not "ACTIVE";
   * otherwise ALLOW with its id and entitlements, and the ticket alone
   * becomes USED with `usedAt` set.
   */
  lemma GateCommit(p: Platform, tickets: map<string, Ticket>, body: Body, now: int)
    requires WellFormed(p, Field(body, "qr"), Field(body, "gateId"))
    requires !Before(p, Prop(ClaimsOf(p, body), "exp"), now)
    requires PropertyKey(SubjectOf(ClaimsOf(p, body))) in tickets
    ensures var id := PropertyKey(SubjectOf(ClaimsOf(p, body)));
            var r := GateScan(p, tickets, body, now);
            && (r.decision == Deny(Used) <==> tickets[id].status != ACTIVE)
            && (tickets[id].status == ACTIVE ==>
                  && r.decision == Allow(Some(id), Some(tickets[id].entitlements.GetOr([])))
                  && r.tickets[id].status == USED && r.tickets[id].usedAt == Some(now)
                  && forall k :: k in tickets && k != id ==> r.tickets[k] == tickets[k])
  {
  }

  /**
   * Scanning again after an ALLOW: any well-formed, unexpired token naming the
   * same ticket is now answered DENY/USED, and the table stays as it is.
   */
  lemma GateRepeatScanIsUsed(p: Platform, tickets: map<string, Ticket>, body1: Body, now1: int,
                             body2: Body, now2: int)
    requires GateScan(p, tickets, body1, now1).decision.Allow?
    requires WellFormed(p, Field(body2, "qr"), Field(body2, "gateId"))
    requires !Before(p, Prop(ClaimsOf(p, body2), "exp"), now2)
    requires Some(PropertyKey(SubjectOf(ClaimsOf(p, body2)))) == GateScan(p, tickets, body1, now1).decision.ticketId
    ensures var after := GateScan(p, tickets, body1, now1).tickets;
            GateScan(p, after, body2, now2) == GateResult(Deny(Used), after)
  {
  }

  /** Once `gateId` is present and non-empty, its value never changes the gate's answer or the table. */
  lemma GateIgnoresGateId(p: Platform, tickets: map<string, Ticket>, body: Body, g1: string, g2: string, now: int)
    requires g1 != "" && g2 != ""
    ensures GateScan(p, tickets, body["gateId" := g1], now) == GateScan(p, tickets, body["gateId" := g2], now)
  {
    assert Field(body["gateId" := g1], "qr") == Field(body["gateId" := g2], "qr");
  }

  /**
   * The signature is never verified and the header never read: tokens that
   * share the payload segment get the same answer whatever their other two
   * segments hold.
   */
  lemma GateIgnoresHeaderAndSignature(p: Platform, tickets: map<string, Ticket>, body: Body, now: int,
                                      payload: string, h1: string, s1: string, h2: string, s2: string)
    requires '.' !in payload && '.' !in h1 && '.' !in s1 && '.' !in h2 && '.' !in s2
    ensures GateScan(p, tickets, body["qr" := Join3(h1, payload, s1, '.')], now)
         == GateScan(p, tickets, body["qr" := Join3(h2, payload, s2, '.')], now)
  {
    SplitJoin3(h1, payload, s1, '.');
    SplitJoin3(h2, payload, s2, '.');
    var b1 := body["qr" := Join3(h1, payload, s1, '.')];
    var b2 := body["qr" := Join3(h2, payload, s2, '.')];
    assert Field(b1, "gateId") == Field(b2, "gateId");
    assert Join3(h1, payload, s1, '.') != "" && Join3(h2, payload, s2, '.') != "";
    assert ScannedPayload(p, Join3(h1, payload, s1, '.')) == ScannedPayload(p, Join3(h2, payload, s2, '.'));
  }

  // ---------------------------------------------------------------------------
  // Properties of the zone, session and login handlers

  /**
   * The zone handler shares the gate's INVALID/EXPIRED/NOT_FOUND answers, then
   * admits exactly the subject "TK-001", whatever the ticket's status.
   */
  lemma ZoneDecision(p: Platform, tickets: map<string, Ticket>, body: Body, now: int)
    ensures var c := CheckToken(p, tickets, Field(body, "qr"), Field(body, "zoneCheckpointId"), now);
            var d := ZoneScan(p, tickets, body, now);
            && (c.Rejected? ==> d == Deny(c.reason))
            && (c.Admitted? ==> (d.Allow? <==> c.ticketId == "TK-001"))
            && (c.Admitted? && c.ticketId != "TK-001" ==> d == Deny(NoEntitlement))
  {
    var c := CheckToken(p, tickets, Field(body, "qr"), Field(body, "zoneCheckpointId"), now);
    if c.Admitted? {
      match c.subject
      case Undefined =>
      case Defined(Str(s)) =>
      case Defined(Num(n)) => assert IntToString(n) != "TK-001";
    }
  }

  /** The zone handler never reads a ticket's status (nor any other field of it). */
  lemma ZoneIgnoresTicketRecord(p: Platform, tickets: map<string, Ticket>, body: Body, now: int,
                                id: string, replacement: Ticket)
    requires id in tickets
    ensures ZoneScan(p, tickets[id := replacement], body, now) == ZoneScan(p, tickets, body, now)
  {
    assert tickets[id := replacement].Keys == tickets.Keys;
  }

  /**
   * Session issuance: 404 for an unknown ticket, 400 for one that is not
   * "ACTIVE", otherwise the global key valid for 24 hours.
   */
  lemma SessionOutcome(tickets: map<string, Ticket>, ticketId: string, now: int)
    ensures var r := IssueSession(tickets, ticketId, now);
            && (r == Error(404, "Ticket not found") <==> ticketId !in tickets)
            && (r == Error(400, "Ticket not active") <==> ticketId in tickets && tickets[ticketId].status != ACTIVE)
            && (r.Ok200? <==> ticketId in tickets && tickets[ticketId].status == ACTIVE)
  {
  }

  /** After a gate ALLOW, the admitted ticket can no longer obtain a session. */
  lemma NoSessionAfterGateEntry(p: Platform, tickets: map<string, Ticket>, body: Body, now: int, later: int)
    requires GateScan(p, tickets, body, now).decision.Allow?
    ensures var r := GateScan(p, tickets, body, now);
            IssueSession(r.tickets, r.decision.ticketId.value, later) == Error(400, "Ticket not active")
  {
  }

  /**
   * Staff login: 400 without both fields, 404 for an unknown id, 401 for a
   * wrong PIN; otherwise the record's public fields, with `gateId` and
   * `zoneCheckpointId` only where the record has a non-empty one.
   */
  lemma LoginOutcome(body: Body)
    ensures var r := StaffLogin(body);
            var id := Field(body, "staffId");
            var pin := Field(body, "pin");
            && (r.Error? && r.status == 400 <==> !Truthy(id) || !Truthy(pin))
            && (r.Error? && r.status == 404 <==> Truthy(id) && Truthy(pin) && id.value !in MockStaff)
            && (r.Error? && r.status == 401 <==>
                  Truthy(id) && Truthy(pin) && id.value in MockStaff && MockStaff[id.value].pin != pin.value)
            && (r.Ok200? ==>
                  && var s := MockStaff[id.value];
                  && s.pin == pin.value
                  && r.body == StaffView(s.staffId, s.displayName, s.role, IfTruthy(s.gateId), IfTruthy(s.zoneCheckpointId)))
  {
  }

  // ---------------------------------------------------------------------------
  // The server against the client's tokens

  /** The server decodes the claims of a token the client generated. */
  lemma ServerReadsGeneratedClaims(p: Platform, c: Claims, secret: string, token: string)
    requires Sound(p) && GenerateJwt(p, c, secret) == Ok(token)
    ensures token != ""
    ensures ScannedPayload(p, token) == Some(ClaimsJson(c).props)
  {
    GeneratedTokenSegments(p, c, secret);
    GenerateSucceeds(p, c, secret);
    ClaimsJsonLatin1(c);
    EncodeThenDecodeSegment(p, ClaimsJson(c));
  }

  /**
   * The expiry boundaries disagree: at `now == exp` the client already calls
   * its own token expired (`exp <= now`), while the gate still lets it past
   * the expiry step (`exp < now`).
   */
  lemma ExpiryBoundaryMismatch(p: Platform, c: Claims, secret: string, token: string,
                               tickets: map<string, Ticket>, gateId: string)
    requires Sound(p) && GenerateJwt(p, c, secret) == Ok(token) && gateId != ""
    ensures IsExpired(p, token, c.exp) == Ok(true)
    ensures GateScan(p, tickets, map["qr" := token, "gateId" := gateId], c.exp).decision != Deny(Expired)
  {
    GeneratedTokenExpiry(p, c, secret, token, c.exp);
    ServerReadsGeneratedClaims(p, c, secret, token);
    assert Prop(ClaimsJson(c).props, "exp") == Defined(Num(c.exp));
    GateExpiryBoundary(p, tickets, map["qr" := token, "gateId" := gateId], ClaimsJson(c).props, c.exp);
  }

  /** A scanned payload whose `exp` is the current second is not refused as expired by the gate. */
  lemma GateExpiryBoundary(p: Platform, tickets: map<string, Ticket>, body: Body, props: map<string, Value>, now: int)
    requires "qr" in body && ScannedPayload(p, body["qr"]) == Some(props)
    requires Prop(props, "exp") == Defined(Num(now))
    ensures GateScan(p, tickets, body, now).decision != Deny(Expired)
  {
    assert !Before(p, Prop(props, "exp"), now);
  }

  /** A well-formed gate request whose payload names an ACTIVE ticket and has not expired is admitted. */
  lemma GateAdmitsClaims(p: Platform, tickets: map<string, Ticket>, body: Body, now: int,
                         props: map<string, Value>, id: string)
    requires Truthy(Field(body, "qr")) && Truthy(Field(body, "gateId"))
    requires ScannedPayload(p, Field(body, "qr").value) == Some(props)
    requires !Before(p, Prop(props, "exp"), now)
    requires SubjectOf(props) == Defined(Str(id)) && id in tickets && tickets[id].status == ACTIVE
    ensures GateScan(p, tickets, body, now).decision == Allow(Some(id), Some(tickets[id].entitlements.GetOr([])))
  {
    assert CheckToken(p, tickets, Field(body, "qr"), Field(body, "gateId"), now) == Admitted(Defined(Str(id)), id);
  }

  /** A rotating token's payload, as the server decodes it, holds the claims the client put in it. */
  lemma RotatingTokenPayload(p: Platform, ticketId: string, eventId: string, key: string, ttl: int, skew: int,
                             issued: int, token: string)
    requires Sound(p) && CreateRotatingQr(p, ticketId, eventId, key, ttl, skew, issued) == Ok(token)
    ensures token != ""
    ensures ScannedPayload(p, token) == Some(ClaimsJson(RotatingClaims(ticketId, eventId, ttl, skew, issued)).props)
  {
    ServerReadsGeneratedClaims(p, RotatingClaims(ticketId, eventId, ttl, skew, issued), key, token);
  }

  /** The claims of a rotating token for "TK-001", as the server reads them. */
  lemma RotatingClaimsForTk001(ttl: int, skew: int, issued: int)
    ensures var props := ClaimsJson(RotatingClaims("TK-001", "evt_1", ttl, skew, issued)).props;
            Prop(props, "exp") == Defined(Num(issued + ttl)) && SubjectOf(props) == Defined(Str("TK-001"))
  {
  }

  /** A well-formed gate request for "TK-001" on the initial table: admitted once, then USED. */
  lemma GateAdmitsOnce(p: Platform, props: map<string, Value>, token: string, now: int, gateId: string)
    requires gateId != "" && token != ""
    requires ScannedPayload(p, token) == Some(props)
    requires !Before(p, Prop(props, "exp"), now)
    requires SubjectOf(props) == Defined(Str("TK-001"))
    ensures var body := map["qr" := token, "gateId" := gateId];
            var first := GateScan(p, MockTickets, body, now);
            && first.decision == Allow(Some("TK-001"), Some(["Z-VIP", "Z-BSTG", "Z-PRESS"]))
            && first.tickets["TK-001"].status == USED
            && GateScan(p, first.tickets, body, now).decision == Deny(Used)
  {
    var body := map["qr" := token, "gateId" := gateId];
    assert Field(body, "qr") == Some(token) && Field(body, "gateId") == Some(gateId);
    GateAdmitsClaims(p, MockTickets, body, now, props, "TK-001");
    var first := GateScan(p, MockTickets, body, now);
    assert CheckToken(p, first.tickets, Field(body, "qr"), Field(body, "gateId"), now) == Admitted(Defined(Str("TK-001")), "TK-001");
  }

  /**
   * End to end on the initial table: a fresh rotating token for "TK-001"
   * scanned at any gate before it expires is admitted with the ticket's three
   * entitlements -- the allowlist ["G-SUR", "G-NORTE"] notwithstanding -- and
   * the same ticket scanned again is refused as USED.
   */
  lemma FirstEntryThenUsed(p: Platform, key: string, ttl: int, skew: int, issued: int,
                           token: string, now: int, gateId: string)
    requires Sound(p) && gateId != "" && now <= issued + ttl
    requires CreateRotatingQr(p, "TK-001", "evt_1", key, ttl, skew, issued) == Ok(token)
    ensures var body := map["qr" := token, "gateId" := gateId];
            var first := GateScan(p, MockTickets, body, now);
            && first.decision == Allow(Some("TK-001"), Some(["Z-VIP", "Z-BSTG", "Z-PRESS"]))
            && first.tickets["TK-001"].status == USED
            && GateScan(p, first.tickets, body, now).decision == Deny(Used)
  {
    RotatingTokenPayload(p, "TK-001", "evt_1", key, ttl, skew, issued, token);
    RotatingClaimsForTk001(ttl, skew, issued);
    GateAdmitsOnce(p, ClaimsJson(RotatingClaims("TK-001", "evt_1", ttl, skew, issued)).props, token, now, gateId);
  }

  // ---------------------------------------------------------------------------
  // Lookups in plain objects, as written

  /** The members every plain object inherits from `Object.prototype` under Node. */
  const ObjectPrototypeKeys: set<string> := {
    "constructor", "__proto__", "toString", "toLocaleString", "valueOf", "hasOwnProperty",
    "isPrototypeOf", "propertyIsEnumerable", "__defineGetter__", "__defineSetter__",
    "__lookupGetter__", "__lookupSetter__"}

  /** What `table[key]` yields on a plain object: an own entry, an inherited member, or `undefined`. */
  datatype Lookup<T> = Own(entry: T) | Inherited | Absent

  function LookupAsWritten<T>(table: map<string, T>, key: string): (r: Lookup<T>)
    ensures r.Own? <==> key in table
    ensures r.Own? ==> r.entry == table[key]
    ensures r.Absent? <==> key !in table && key !in ObjectPrototypeKeys
  {
    if key in table then Own(table[key])
    else if key in ObjectPrototypeKeys then Inherited
    else Absent
  }

  /**
   * Lines 162-188 as written, for a subject that passed the expiry step: an
   * inherited member is truthy and has no `status`, so it is answered USED.
   */
  function GateLookupAsWritten(tickets: map<string, Ticket>, key: string, now: int): (r: GateResult)
    ensures r.decision == Deny(NotFound) <==> key !in tickets && key !in ObjectPrototypeKeys
  {
    match LookupAsWritten(tickets, key)
    case Absent => GateResult(Deny(NotFound), tickets)
    case Inherited => GateResult(Deny(Used), tickets)
    case Own(ticket) =>
      if ticket.status != ACTIVE then GateResult(Deny(Used), tickets)
      else GateResult(Allow(Some(key), Some(ticket.entitlements.GetOr([]))), tickets[key := Consumed(ticket, now)])
  }

  /** Lines 230-251 as written: an inherited member passes `!ticket` and is answered NO_ENTITLEMENT. */
  function ZoneLookupAsWritten(tickets: map<string, Ticket>, subject: Property): (d: Decision)
    ensures d == Deny(NotFound) <==> PropertyKey(subject) !in tickets && PropertyKey(subject) !in ObjectPrototypeKeys
  {
    match LookupAsWritten(tickets, PropertyKey(subject))
    case Absent => Deny(NotFound)
    case _ => if subject == Defined(Str("TK-001")) then Allow(None, None) else Deny(NoEntitlement)
  }

  /** Lines 99-122 as written: an inherited member is found, and its missing `status` is "not active". */
  function SessionAsWritten(tickets: map<string, Ticket>, ticketId: string, now: int): (r: Response<SessionInfo>)
    ensures r == Error(404, "Ticket not found") <==> ticketId !in tickets && ticketId !in ObjectPrototypeKeys
  {
    match LookupAsWritten(tickets, ticketId)
    case Absent => Error(404, "Ticket not found")
    case Inherited => Error(400, "Ticket not active")
    case Own(ticket) =>
      if ticket.status != ACTIVE then Error(400, "Ticket not active")
      else Ok200(SessionInfo(ticket.ticketId, SessionKey, now + SessionSeconds))
  }

  /** Lines 64-86 as written, for a request with both fields: an inherited member's missing `pin` never matches. */
  function LoginLookupAsWritten(staffId: string, pin: string): (r: Response<StaffView>)
    requires staffId != "" && pin != ""
    ensures r == Error(404, "Staff not found") <==> staffId !in MockStaff && staffId !in ObjectPrototypeKeys
  {
    match LookupAsWritten(MockStaff, staffId)
    case Absent => Error(404, "Staff not found")
    case Inherited => Error(401, "Invalid PIN")
    case Own(staff) =>
      if staff.pin != pin then Error(401, "Invalid PIN")
      else Ok200(StaffView(staff.staffId, staff.displayName, staff.role,
                           IfTruthy(staff.gateId), IfTruthy(staff.zoneCheckpointId)))
  }

  /**
   * The id "constructor" names no ticket and no staff member, yet as written
   * the gate answers USED, the zone NO_ENTITLEMENT, the session route 400 and
   * the login 401; the own-key lookups of the model answer NOT_FOUND and 404.
   */
  lemma PrototypeKeyMisreported(now: int)
    ensures "constructor" !in MockTickets && "constructor" !in MockStaff
    ensures GateLookupAsWritten(MockTickets, "constructor", now).decision == Deny(Used)
    ensures ZoneLookupAsWritten(MockTickets, Defined(Str("constructor"))) == Deny(NoEntitlement)
    ensures SessionAsWritten(MockTickets, "constructor", now) == Error(400, "Ticket not active")
    ensures LoginLookupAsWritten("constructor", "1234") == Error(401, "Invalid PIN")
    ensures IssueSession(MockTickets, "constructor", now) == Error(404, "Ticket not found")
    ensures StaffLogin(map["staffId" := "constructor", "pin" := "1234"]) == Error(404, "Staff not found")
  {
    var body: Body := map["staffId" := "constructor", "pin" := "1234"];
    assert Field(body, "staffId") == Some("constructor") && Field(body, "pin") == Some("1234");
  }

  /**
   * The corrected session and login handlers agree with the code as written
   * on every id that is not an inherited member.
   */
  lemma OwnKeyLookupAgrees(tickets: map<string, Ticket>, key: string, pin: string, now: int)
    requires key !in ObjectPrototypeKeys
    ensures IssueSession(tickets, key, now) == SessionAsWritten(tickets, key, now)
    ensures key != "" && pin != "" ==> LoginLookupAsWritten(key, pin) == StaffLogin(map["staffId" := key, "pin" := pin])
  {
    var body: Body := map["staffId" := key, "pin" := pin];
    assert Field(body, "staffId") == Some(key) && Field(body, "pin") == Some(pin);
  }

  /**
   * Past the shared INVALID and EXPIRED steps, the corrected gate and zone
   * handlers agree with the lookups as written whenever the subject is not
   * an inherited member: found or not, the same decision and the same table.
   */
  lemma ScanLookupAgrees(p: Platform, tickets: map<string, Ticket>, body: Body, checkpoint: string,
                         claims: map<string, Value>, now: int)
    requires checkpoint == "gateId" || checkpoint == "zoneCheckpointId"
    requires WellFormed(p, Field(body, "qr"), Field(body, checkpoint))
    requires ScannedPayload(p, Field(body, "qr").value) == Some(claims)
    requires !Before(p, Prop(claims, "exp"), now)
    requires PropertyKey(SubjectOf(claims)) !in ObjectPrototypeKeys
    ensures checkpoint == "gateId" ==>
              GateScan(p, tickets, body, now) == GateLookupAsWritten(tickets, PropertyKey(SubjectOf(claims)), now)
    ensures checkpoint == "zoneCheckpointId" ==>
              ZoneScan(p, tickets, body, now) == ZoneLookupAsWritten(tickets, SubjectOf(claims))
  {
  }
}
