/** The request-handling contract of the blacklist service: the bearer-token
    gate, `add_blacklist` (validate, then append one row), `check_blacklist`
    (first row with the given email) and `health_check`. The SQL table is an
    in-memory sequence of rows in insertion order; Flask's request object
    becomes plain parameters and `jsonify` a `Response` value. */
module Application {
  import opened Uuid

  datatype Option<T> = None | Some(value: T)

  /** The one credential the gate accepts. */
  const StaticToken: string := "Bearer blackSecretToken"

  const TokenMessage: string := "Token ausente o inválido"
  const NoDataMessage: string := "No se proporcionaron datos de entrada"
  const FieldsMessage: string := "Se requieren los campos email y app_uuid"
  const UuidMessage: string := "Formato inválido para app_uuid"
  const CreatedMessage: string := "Email agregado a la lista negra correctamente"

  /** The address stored when the connection gives none. */
  const FallbackIp: string := "0.0.0.0"

  /** A row of the `blacklist` table. `id` is the integer primary key SQLite
      assigns; `blockedReason` is the nullable column. */
  datatype Entry = Entry(
    id: nat,
    email: string,
    appUuid: string,
    blockedReason: Option<string>,
    ipAddress: string)

  /** A decoded JSON object body whose values are strings or null (None). */
  type JsonObject = map<string, Option<string>>

  /** The JSON objects the endpoints answer with. */
  datatype Body =
    | Message(message: string)
    | Verdict(blacklisted: bool, blockedReason: Option<string>)
    | Liveness(healthy: bool)

  datatype Response = Response(status: int, body: Body)

  // ---------------------------------------------------------------- auth gate

  /** `token_required`: None lets the request through to the wrapped handler;
      otherwise it carries the 401 response that replaces the handler's. */
  function Gate(auth: Option<string>): (r: Option<Response>)
    ensures r.None? <==> auth == Some(StaticToken)
    ensures r.Some? ==> r.value.status == 401 && r.value.body == Message(TokenMessage)
  {
    if auth != Some(StaticToken) then Some(Response(401, Message(TokenMessage))) else None
  }

  // --------------------------------------------------------------- validation

  /** `data.get(key)`: the value, or None when the key is missing. */
  function Get(data: JsonObject, key: string): Option<string> {
    if key in data then data[key] else None
  }

  /** Python truthiness of a string-or-None value. */
  predicate Truthy(v: Option<string>) {
    v.Some? && v.value != ""
  }

  /** Python truthiness of the decoded body: an empty object is falsy. */
  predicate HasData(data: Option<JsonObject>) {
    data.Some? && data.value != map[]
  }

  predicate HasRequiredFields(data: JsonObject) {
    Truthy(Get(data, "email")) && Truthy(Get(data, "app_uuid"))
  }

  datatype Rejection = NoData | FieldsRequired | InvalidUuid

  datatype Validation =
    | Accepted(email: string, appUuid: string, blockedReason: Option<string>)
    | Rejected(why: Rejection)

  function RejectionMessage(why: Rejection): string {
    match why
    case NoData => NoDataMessage
    case FieldsRequired => FieldsMessage
    case InvalidUuid => UuidMessage
  }

  /** The validation chain of `add_blacklist`; the first failing check wins. */
  function Validate(data: Option<JsonObject>): (v: Validation)
    ensures v.Accepted? <==>
      HasData(data) && HasRequiredFields(data.value) && ValidUuid(Get(data.value, "app_uuid").value)
    ensures v.Accepted? ==>
      Get(data.value, "email") == Some(v.email) && v.email != "" &&
      Get(data.value, "app_uuid") == Some(v.appUuid) && ValidUuid(v.appUuid) &&
      v.blockedReason == Get(data.value, "blocked_reason")
    ensures !HasData(data) ==> v == Rejected(NoData)
    ensures HasData(data) && !HasRequiredFields(data.value) ==> v == Rejected(FieldsRequired)
    ensures (HasData(data) && HasRequiredFields(data.value) &&
             !ValidUuid(Get(data.value, "app_uuid").value)) ==> v == Rejected(InvalidUuid)
    // Summary of the three clauses above: the UUID rejection needs both fields.
    ensures v == Rejected(InvalidUuid) ==> HasData(data) && HasRequiredFields(data.value)
  {
    if !HasData(data) then Rejected(NoData)
    else
      var email := Get(data.value, "email");
      var appUuid := Get(data.value, "app_uuid");
      if !Truthy(email) || !Truthy(appUuid) then Rejected(FieldsRequired)
      else if !ValidUuid(appUuid.value) then Rejected(InvalidUuid)
      else Accepted(email.value, appUuid.value, Get(data.value, "blocked_reason"))
  }

  /** `request.remote_addr or '0.0.0.0'`: an empty address falls back too. */
  function IpAddress(remoteAddr: Option<string>): (ip: string)
    ensures ip != ""
    ensures Truthy(remoteAddr) ==> ip == remoteAddr.value
    ensures !Truthy(remoteAddr) ==> ip == FallbackIp
  {
    if Truthy(remoteAddr) then remoteAddr.value else FallbackIp
  }

  // -------------------------------------------------------------------- table

  /** What every row written through `add_blacklist` satisfies: rowids count
      up from 1, email and app_uuid are non-empty, app_uuid is accepted by
      the UUID check, and an address is recorded. */
  predicate WellFormed(entries: seq<Entry>) {
    forall i :: 0 <= i < |entries| ==> RowOk(entries[i], i)
  }

  /** The `i`-th row (from 0) of a table written through `add_blacklist`. */
  predicate RowOk(e: Entry, i: nat) {
    e.id == i + 1 && e.email != "" && e.appUuid != "" && ValidUuid(e.appUuid) && e.ipAddress != ""
  }

  /** Appending a row with the next rowid and the required fields keeps the
      table well formed. */
  lemma AppendKeepsWellFormed(entries: seq<Entry>, e: Entry)
    requires WellFormed(entries)
    requires e.id == |entries| + 1 && e.email != "" && e.appUuid != "" && ValidUuid(e.appUuid)
    requires e.ipAddress != ""
    ensures WellFormed(entries + [e])
  {
    forall i | 0 <= i < |entries| + 1 ensures RowOk((entries + [e])[i], i) {
      if i < |entries| {
        assert (entries + [e])[i] == entries[i];
      }
    }
  }

  /** The row `add_blacklist` appends for an accepted body: it takes the next
      rowid and the validated fields, and appending it keeps the table
      well formed. */
  function NewEntry(entries: seq<Entry>, v: Validation, remoteAddr: Option<string>): (e: Entry)
    requires v.Accepted?
    ensures e.id == |entries| + 1
    ensures e.ipAddress == IpAddress(remoteAddr) && e.ipAddress != ""
    ensures e.email == v.email && e.appUuid == v.appUuid && e.blockedReason == v.blockedReason
    ensures WellFormed(entries) && v.email != "" && v.appUuid != "" && ValidUuid(v.appUuid) ==>
      WellFormed(entries + [e])
  {
    var e := Entry(|entries| + 1, v.email, v.appUuid, v.blockedReason, IpAddress(remoteAddr));
    if WellFormed(entries) && v.email != "" && v.appUuid != "" && ValidUuid(v.appUuid) then
      AppendKeepsWellFormed(entries, e);
      e
    else e
  }

  datatype Outcome = Outcome(entries: seq<Entry>, response: Response)

  /** POST /blacklists as a transition of the table: the gate, then the
      validation chain, then one appended row. */
  function Create(entries: seq<Entry>, auth: Option<string>, data: Option<JsonObject>,
                  remoteAddr: Option<string>): (o: Outcome)
    ensures auth != Some(StaticToken) ==>
      o == Outcome(entries, Response(401, Message(TokenMessage)))
    ensures auth == Some(StaticToken) && Validate(data).Rejected? ==>
      o == Outcome(entries, Response(400, Message(RejectionMessage(Validate(data).why))))
    ensures o.response.status == 201 <==> auth == Some(StaticToken) && Validate(data).Accepted?
    ensures o.response.status == 201 ==>
      o.response.body == Message(CreatedMessage) &&
      o.entries == entries + [NewEntry(entries, Validate(data), remoteAddr)]
    ensures o.response.status != 201 ==> o.entries == entries
    ensures WellFormed(entries) ==> WellFormed(o.entries)
  {
    match Gate(auth)
    case Some(denied) => Outcome(entries, denied)
    case None =>
      var v := Validate(data);
      match v
      case Rejected(why) => Outcome(entries, Response(400, Message(RejectionMessage(why))))
      case Accepted(_, _, _) =>
        Outcome(entries + [NewEntry(entries, v, remoteAddr)], Response(201, Message(CreatedMessage)))
  }

  // ------------------------------------------------------------------- lookup

  /** Position of the first row, in table order, whose email equals `email`
      exactly. */
  function FirstMatch(entries: seq<Entry>, email: string): (k: Option<nat>)
    ensures k.Some? ==>
      k.value < |entries| && entries[k.value].email == email &&
      forall j :: 0 <= j < k.value ==> entries[j].email != email
    ensures k.None? <==> forall j :: 0 <= j < |entries| ==> entries[j].email != email
  {
    if entries == [] then None
    else if entries[0].email == email then Some(0)
    else
      match FirstMatch(entries[1..], email)
      case None => None
      case Some(k) => Some(k + 1)
  }

  /** `check_blacklist` once the gate has let the request through. */
  function Lookup(entries: seq<Entry>, email: string): (r: Response)
    ensures r.status == 200 && r.body.Verdict?
    ensures r.body.blacklisted <==> exists i :: 0 <= i < |entries| && entries[i].email == email
    ensures !r.body.blacklisted ==> r.body.blockedReason == None
    ensures r.body.blacklisted ==>
      exists i :: 0 <= i < |entries| && entries[i].email == email &&
        (forall j :: 0 <= j < i ==> entries[j].email != email) &&
        r.body.blockedReason == entries[i].blockedReason
  {
    match FirstMatch(entries, email)
    case None => Response(200, Verdict(false, None))
    case Some(k) => Response(200, Verdict(true, entries[k].blockedReason))
  }

  // ------------------------------------------------------------------- health

  /** GET /health: no gate, no table. */
  function HealthCheck(): (r: Response)
    ensures r.status == 200 && r.body == Liveness(true)
  {
    Response(200, Liveness(true))
  }

  // -------------------------------------------------------------------- store

  /** The `blacklist` table as the two protected endpoints share it. */
  class Store {
    var entries: seq<Entry>

    ghost predicate Valid()
      reads this
    {
      WellFormed(entries)
    }

    constructor ()
      ensures Valid() && entries == []
    {
      entries := [];
    }

    /** POST /blacklists. */
    method AddBlacklist(auth: Option<string>, data: Option<JsonObject>, remoteAddr: Option<string>)
      returns (resp: Response)
      requires Valid()
      modifies this
      ensures Valid()
      ensures Outcome(entries, resp) == Create(old(entries), auth, data, remoteAddr)
      ensures resp.status != 201 ==> entries == old(entries)
      ensures resp.status == 201 ==>
        |entries| == |old(entries)| + 1 && entries[..|old(entries)|] == old(entries)
    {
      var denied := Gate(auth);
      if denied.Some? {
        return denied.value;
      }
      var v := Validate(data);
      if v.Rejected? {
        return Response(400, Message(RejectionMessage(v.why)));
      }
      entries := entries + [NewEntry(entries, v, remoteAddr)];
      resp := Response(201, Message(CreatedMessage));
    }

    /** GET /blacklists/{email}; reads the table and leaves it as it is. */
    method CheckBlacklist(auth: Option<string>, email: string) returns (resp: Response)
      ensures auth != Some(StaticToken) ==> resp == Response(401, Message(TokenMessage))
      ensures auth == Some(StaticToken) ==> resp == Lookup(entries, email)
    {
      var denied := Gate(auth);
      if denied.Some? {
        return denied.value;
      }
      resp := Lookup(entries, email);
    }
  }
}
