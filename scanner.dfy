/**
 * The staff scanner screen (StaffScannerView.tsx): which request a scan
 * sends for the staff member's role, how the response is normalised, and how
 * a decision is classified for display. The screen's `isScanning` flag brackets
 * each request; the request itself is split into `BeginScan`, which decides
 * whether to send and what, and `CompleteScan`, which receives the reply.
 */
module StaffScanner {
  import opened Common
  import Backoffice
  import Jwt

  /** The logged-in staff member as the screen holds it. */
  datatype StaffData = StaffData(
    staffId: string,
    displayName: string,
    role: Backoffice.Role,
    gateId: Option<string>,
    zoneCheckpointId: Option<string>)

  /** A scan response body as received: any field may be missing. */
  datatype ScanResponse = ScanResponse(
    decision: Option<string>,
    ticketId: Option<string>,
    entitlements: Option<seq<string>>,
    reason: Option<string>)

  /** The UI classification (`ValidationResult.status`). */
  datatype Status = Allow | DenyRevoked | DenyDuplicate | DenyGate | WarnOffline

  datatype Validation = Validation(status: Status, message: string)

  const DefaultApiBase: string := "http://localhost:8082"

  /** The body the screen substitutes for a response without a usable decision. */
  const InvalidResult: ScanResponse := ScanResponse(Some("DENY"), None, None, Some("INVALID"))

  /** Response normalisation: a body whose `decision` is missing or empty counts as DENY/INVALID. */
  function Normalise(data: ScanResponse): (r: ScanResponse)
    ensures Truthy(r.decision)
    ensures Truthy(data.decision) ==> r == data
    ensures !Truthy(data.decision) ==> r == InvalidResult
  {
    if Truthy(data.decision) then data else InvalidResult
  }

  /** `mapResultToValidation`: the classification of a (normalised) response for the staff member's role. */
  function MapResultToValidation(role: Backoffice.Role, res: ScanResponse): (v: Validation)
    ensures v.status != WarnOffline
    ensures v.status == Allow <==> res.decision == Some("ALLOW")
  {
    if res.decision == Some("ALLOW") then
      Validation(Allow, if role == Backoffice.Gate then "Acceso permitido a puerta" else "Acceso permitido a zona")
    else if res.reason == Some("EXPIRED|INVALID") || res.reason == Some("INVALID") then
      Validation(DenyRevoked, "QR expirado o inválido")
    else if res.reason == Some("USED") then
      Validation(DenyDuplicate, "Ticket ya utilizado")
    else if res.reason == Some("NOT_FOUND") then
      Validation(DenyGate, "No encontrado (ticket/checkpoint)")
    else if res.reason == Some("NO_ENTITLEMENT") then
      Validation(DenyGate, "Sin permisos para esta zona")
    else if res.reason == Some("BAD_REQUEST") then
      Validation(DenyRevoked, "Solicitud inválida")
    else
      Validation(DenyRevoked, if Truthy(res.reason) then res.reason.value else "Acceso denegado")
  }

  /** The reason codes the screen lists by name. */
  const KnownReasons: set<string> := {"EXPIRED|INVALID", "INVALID", "USED", "NOT_FOUND", "NO_ENTITLEMENT", "BAD_REQUEST"}

  /** A request the screen sends: the endpoint and the JSON body (a field left undefined is not sent). */
  datatype ScanRequest = ScanRequest(endpoint: string, body: Backoffice.Body)

  /** `{ name: value }` where an undefined value drops the key. */
  function OptionalField(name: string, value: Option<string>): (m: Backoffice.Body)
    ensures name in m <==> value.Some?
    ensures m.Keys <= {name}
    ensures value.Some? ==> m[name] == value.value
  {
    if value.Some? then map[name := value.value] else map[]
  }

  /** The request for the role: the gate route with `gateId`, or the zone route with `zoneCheckpointId`. */
  function RequestFor(apiBase: string, staff: StaffData, qr: string): (r: ScanRequest)
    ensures "qr" in r.body && r.body["qr"] == qr
    ensures staff.role == Backoffice.Gate ==>
              && r.endpoint == apiBase + "/validate/scan"
              && r.body.Keys == {"qr"} + (if staff.gateId.Some? then {"gateId"} else {})
              && (staff.gateId.Some? ==> r.body["gateId"] == staff.gateId.value)
    ensures staff.role == Backoffice.Zone ==>
              && r.endpoint == apiBase + "/zones/checkpoint/scan"
              && r.body.Keys == {"qr"} + (if staff.zoneCheckpointId.Some? then {"zoneCheckpointId"} else {})
              && (staff.zoneCheckpointId.Some? ==> r.body["zoneCheckpointId"] == staff.zoneCheckpointId.value)
  {
    if staff.role == Backoffice.Gate then
      ScanRequest(apiBase + "/validate/scan", map["qr" := qr] + OptionalField("gateId", staff.gateId))
    else
      ScanRequest(apiBase + "/zones/checkpoint/scan", map["qr" := qr] + OptionalField("zoneCheckpointId", staff.zoneCheckpointId))
  }

  /**
   * The server reads from the request exactly the scanned token and the
   * role's own checkpoint id, never the other role's.
   */
  lemma RequestCarriesCheckpoint(apiBase: string, staff: StaffData, qr: string)
    ensures var body := RequestFor(apiBase, staff, qr).body;
            && Backoffice.Field(body, "qr") == Some(qr)
            && (staff.role == Backoffice.Gate ==>
                  Backoffice.Field(body, "gateId") == staff.gateId && Backoffice.Field(body, "zoneCheckpointId").None?)
            && (staff.role == Backoffice.Zone ==>
                  Backoffice.Field(body, "zoneCheckpointId") == staff.zoneCheckpointId && Backoffice.Field(body, "gateId").None?)
  {
  }

  /**
   * How a request ended: `Failed` when anything in the `try` threw -- the
   * fetch, the body's JSON parse, or the `in` test on a body that parsed to
   * `null` or a primitive -- or `Received` with a JSON object body.
   */
  datatype Reply = Failed | Received(data: ScanResponse)

  const OfflineMessage: string := "Error de conexión - Modo offline"

  /** What the screen shows for a reply. */
  function ScanOutcome(role: Backoffice.Role, reply: Reply): (v: Validation)
    ensures v.status == WarnOffline <==> reply.Failed?
  {
    match reply
    case Failed => Validation(WarnOffline, OfflineMessage)
    case Received(data) => MapResultToValidation(role, Normalise(data))
  }

  /** Where the screen goes next: the ticket page, after an ALLOW that names a ticket. */
  function NavigationAfter(reply: Reply): (target: Option<string>)
    ensures target.Some? ==> reply.Received? && reply.data.decision == Some("ALLOW") && Truthy(reply.data.ticketId)
    ensures reply.Received? && reply.data.decision == Some("ALLOW") && Truthy(reply.data.ticketId) ==>
              target == Some("/ticket/" + reply.data.ticketId.value)
  {
    match reply
    case Failed => None
    case Received(data) =>
      var result := Normalise(data);
      if result.decision == Some("ALLOW") && Truthy(result.ticketId) then Some("/ticket/" + result.ticketId.value)
      else None
  }

  // ---------------------------------------------------------------------------
  // The screen

  class ScannerScreen {
    const apiBase: string
    var staffData: Option<StaffData>
    var isScanning: bool
    var validationResult: Option<Validation>
    var pendingNavigation: Option<string>

    /** The screen once the stored staff session has been read; `VITE_API_BASE ?? default` picks the base URL. */
    constructor (apiBaseSetting: Option<string>, staff: Option<StaffData>)
      ensures apiBase == apiBaseSetting.GetOr(DefaultApiBase)
      ensures staffData == staff && !isScanning && validationResult.None? && pendingNavigation.None?
    {
      apiBase := apiBaseSetting.GetOr(DefaultApiBase);
      staffData := staff;
      isScanning := false;
      validationResult := None;
      pendingNavigation := None;
    }

    /**
     * The start of `handleScan`: ignored without staff data or while a scan
     * is in flight; otherwise the flag is raised and the role's request is
     * the one to send.
     */
    method BeginScan(qr: string) returns (request: Option<ScanRequest>)
      modifies this
      ensures staffData == old(staffData) && validationResult == old(validationResult)
      ensures pendingNavigation == old(pendingNavigation)
      ensures old(staffData).None? || old(isScanning) ==> request.None? && isScanning == old(isScanning)
      ensures old(staffData).Some? && !old(isScanning) ==>
                isScanning && request == Some(RequestFor(apiBase, staffData.value, qr))
    {
      if staffData.None? || isScanning {
        return None;
      }
      isScanning := true;
      request := Some(RequestFor(apiBase, staffData.value, qr));
    }

    /** The rest of `handleScan`: classify the reply, schedule navigation after an ALLOW, and lower the flag. */
    method CompleteScan(reply: Reply)
      requires isScanning && staffData.Some?
      modifies this
      ensures !isScanning && staffData == old(staffData)
      ensures validationResult == Some(ScanOutcome(staffData.value.role, reply))
      ensures pendingNavigation == (if NavigationAfter(reply).Some? then NavigationAfter(reply) else old(pendingNavigation))
    {
      validationResult := Some(ScanOutcome(staffData.value.role, reply));
      var target := NavigationAfter(reply);
      if target.Some? {
        pendingNavigation := target;
      }
      isScanning := false;
    }
  }

  // ---------------------------------------------------------------------------
  // Properties of the classification

  /** ALLOW shows ALLOW whatever the reason says; only the message depends on the role. */
  lemma AllowIgnoresReason(role: Backoffice.Role, res: ScanResponse, reason: Option<string>)
    requires res.decision == Some("ALLOW")
    ensures MapResultToValidation(role, res) == MapResultToValidation(role, res.(reason := reason))
    ensures MapResultToValidation(role, res).status == Allow
    ensures MapResultToValidation(Backoffice.Gate, res).message != MapResultToValidation(Backoffice.Zone, res).message
  {
  }

  /** The named reasons of a DENY and the status each is shown as. */
  lemma DenyReasons(role: Backoffice.Role, res: ScanResponse)
    requires res.decision != Some("ALLOW")
    ensures res.reason in {Some("INVALID"), Some("EXPIRED|INVALID"), Some("BAD_REQUEST")} ==>
              MapResultToValidation(role, res).status == DenyRevoked
    ensures res.reason == Some("USED") ==> MapResultToValidation(role, res).status == DenyDuplicate
    ensures res.reason in {Some("NOT_FOUND"), Some("NO_ENTITLEMENT")} ==> MapResultToValidation(role, res).status == DenyGate
  {
  }

  /** Any other reason, or none, is shown as DENY-REVOKED with the reason itself (or "Acceso denegado") as the message. */
  lemma UnknownReasonFallsThrough(role: Backoffice.Role, res: ScanResponse)
    requires res.decision != Some("ALLOW")
    requires res.reason.None? || res.reason.value !in KnownReasons
    ensures MapResultToValidation(role, res) ==
              Validation(DenyRevoked, if Truthy(res.reason) then res.reason.value else "Acceso denegado")
  {
  }

  /** The screen's view of a server decision, sent as JSON. */
  function Wire(d: Backoffice.Decision): (r: ScanResponse)
    ensures Truthy(r.decision)
  {
    match d
    case Allow(ticketId, entitlements) => ScanResponse(Some("ALLOW"), ticketId, entitlements, None)
    case Deny(reason) => ScanResponse(Some("DENY"), None, None, Some(Backoffice.ReasonCode(reason)))
  }

  /**
   * How each server decision is shown: USED as a duplicate, NOT_FOUND and
   * NO_ENTITLEMENT as gate denials, INVALID as revoked -- and the server's bare
   * EXPIRED, which the screen does not list, falls through to revoked with
   * the raw code "EXPIRED" as the message.
   */
  lemma ServerDecisionShown(role: Backoffice.Role, d: Backoffice.Decision)
    ensures var v := ScanOutcome(role, Received(Wire(d)));
            && (d.Allow? <==> v.status == Allow)
            && (d == Backoffice.Deny(Backoffice.Used) ==> v.status == DenyDuplicate)
            && (d in {Backoffice.Deny(Backoffice.NotFound), Backoffice.Deny(Backoffice.NoEntitlement)} ==> v.status == DenyGate)
            && (d == Backoffice.Deny(Backoffice.Invalid) ==> v == Validation(DenyRevoked, "QR expirado o inválido"))
            && (d == Backoffice.Deny(Backoffice.Expired) ==> v == Validation(DenyRevoked, "EXPIRED"))
  {
  }

  /** A GATE staff member without a `gateId` sends no `gateId`, so every scan of theirs is refused as INVALID and shown as revoked. */
  lemma GateStaffWithoutGateId(p: Jwt.Platform, tickets: map<string, Backoffice.Ticket>, apiBase: string,
                               staff: StaffData, qr: string, now: int)
    requires staff.role == Backoffice.Gate && staff.gateId.None?
    ensures var request := RequestFor(apiBase, staff, qr);
            var decision := Backoffice.GateScan(p, tickets, request.body, now).decision;
            && decision == Backoffice.Deny(Backoffice.Invalid)
            && ScanOutcome(staff.role, Received(Wire(decision))) == Validation(DenyRevoked, "QR expirado o inválido")
  {
    var request := RequestFor(apiBase, staff, qr);
    assert "gateId" !in request.body;
  }
}
