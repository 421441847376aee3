/**
 * The two serverless functions that create records: add-donor and
 * add-devotee. Each accepts only POST, takes a pooled database client,
 * parses the JSON body, rejects a request whose required fields are falsy,
 * stamps an id and a timestamp from the clock, runs exactly one INSERT and
 * answers 201, or 500 when connecting, parsing or the query fails; the
 * client is released on every path once it has been acquired.
 *
 * The pool and the two tables are an object; whether connecting and the
 * query succeed, and the two clock readings, are parameters.
 */
module ServerlessFunctions {
  import opened Base
  import opened Js

  /** `JSON.parse(event.body || '{}')`: a missing or empty body reads as `{}`. */
  datatype Body = NoBody | Unparsable | Object(fields: map<string, JsValue>)

  datatype HttpEvent = HttpEvent(httpMethod: string, body: Body)

  datatype HttpResponse = HttpResponse(statusCode: int, body: string)

  /** A query parameter: a value taken from the request, or the ISO-8601 text of a clock reading. */
  datatype SqlParam = Value(v: JsValue) | IsoTime(ms: int)

  /** The fields of the parsed body, as object destructuring reads them. */
  function FieldsOf(b: Body): map<string, JsValue>
    requires !b.Unparsable?
  {
    if b.NoBody? then map[] else b.fields
  }

  function Field(fields: map<string, JsValue>, name: string): JsValue {
    if name in fields then fields[name] else Undefined
  }

  /** `!a || !b || ...` over the named fields. */
  predicate AnyFalsy(fields: map<string, JsValue>, names: seq<string>) {
    exists i :: 0 <= i < |names| && Falsy(Field(fields, names[i]))
  }

  /** A generated id: the prefix followed by the clock's milliseconds. */
  function GeneratedId(prefix: string, clock: int): string {
    prefix + IntToString(clock)
  }

  /** The id reads back as its prefix followed by the clock reading it was made from. */
  lemma GeneratedIdEncodesClock(prefix: string, clock: int)
    ensures StartsWith(GeneratedId(prefix, clock), prefix)
    ensures ParseInt(GeneratedId(prefix, clock)[|prefix|..]) == Some(clock)
  {
    assert GeneratedId(prefix, clock)[|prefix|..] == IntToString(clock) + "";
    ParseIntOfIntToString(clock, "");
  }

  const MethodNotAllowed: HttpResponse := HttpResponse(405, "Method Not Allowed")
  const MissingFields: HttpResponse := HttpResponse(400, "Missing required fields.")

  /**
   * The 201 answer: JSON.stringify({message, id}). The fixed message texts
   * below are written as the JSON string literals JSON.stringify makes of
   * them (they hold no character that needs escaping).
   */
  function Created(encodedMessage: string, id: string): HttpResponse {
    HttpResponse(201, "{\"message\":" + encodedMessage + ",\"id\":" + QuoteString(id) + "}")
  }

  /** The 500 answer: JSON.stringify({error}), the error given already encoded. */
  function ServerError(encodedError: string): HttpResponse {
    HttpResponse(500, "{\"error\":" + encodedError + "}")
  }

  const DonorAdded: string := "\"Donor added successfully\""
  const DonorFailed: string := "\"Failed to add donor.\""
  const DevoteeAdded: string := "\"Devotee added successfully\""
  const DevoteeFailed: string := "\"Failed to add devotee.\""

  // ---------------------------------------------------------------------
  // add-donor
  // ---------------------------------------------------------------------

  const DonorRequired: seq<string> := ["amount", "fullName", "email", "mobile", "status"]

  const DonorColumns: seq<string> := ["id", "amount", "full_name", "email", "mobile", "address1",
    "address2", "city", "state", "pincode", "status", "date", "payment_id"]

  /** The body fields that fill the donors columns from `amount` to `status`, in column order. */
  const DonorBodyKeys: seq<string> := ["amount", "fullName", "email", "mobile", "address1",
    "address2", "city", "state", "pincode", "status"]

  /**
   * The 13 INSERT parameters, in column order: the generated id, the body
   * fields, the ISO time of the clock reading and the payment id; optional
   * fields pass through as given (undefined included).
   */
  function DonorRow(id: string, date: int, f: map<string, JsValue>): (row: seq<SqlParam>)
    ensures |row| == |DonorColumns| == |DonorBodyKeys| + 3
    ensures row[0] == Value(Str(id))
    ensures forall i :: 0 <= i < |DonorBodyKeys| ==> row[i + 1] == Value(Field(f, DonorBodyKeys[i]))
    ensures row[11] == IsoTime(date)
    ensures row[12] == Value(Field(f, "paymentId"))
  {
    [Value(Str(id)), Value(Field(f, "amount")), Value(Field(f, "fullName")), Value(Field(f, "email")),
     Value(Field(f, "mobile")), Value(Field(f, "address1")), Value(Field(f, "address2")),
     Value(Field(f, "city")), Value(Field(f, "state")), Value(Field(f, "pincode")),
     Value(Field(f, "status")), IsoTime(date), Value(Field(f, "paymentId"))]
  }

  /** An amount of 0 or "" is falsy and rejected. */
  lemma ZeroAmountRejected(f: map<string, JsValue>)
    requires Field(f, "amount") == Num(0) || Field(f, "amount") == Str("")
    ensures AnyFalsy(f, DonorRequired)
  {
    assert Falsy(Field(f, DonorRequired[0]));
  }

  /** Only falsiness is checked: a negative amount with the other fields present passes. */
  lemma NegativeAmountAccepted(f: map<string, JsValue>, n: int)
    requires n < 0 && Field(f, "amount") == Num(n)
    requires forall i :: 1 <= i < |DonorRequired| ==> Field(f, DonorRequired[i]).Str? && Field(f, DonorRequired[i]).s != ""
    ensures !AnyFalsy(f, DonorRequired)
  {
  }

  // ---------------------------------------------------------------------
  // add-devotee
  // ---------------------------------------------------------------------

  const DevoteeRequired: seq<string> := ["name", "email", "mobile", "birthDate"]

  const DevoteeColumns: seq<string> := ["id", "name", "email", "mobile", "birth_date", "registration_date"]

  /**
   * The 6 INSERT parameters, in column order: the generated id, the four
   * required body fields and the ISO time of the clock reading.
   */
  function DevoteeRow(id: string, registrationDate: int, f: map<string, JsValue>): (row: seq<SqlParam>)
    ensures |row| == |DevoteeColumns| == |DevoteeRequired| + 2
    ensures row[0] == Value(Str(id))
    ensures forall i :: 0 <= i < |DevoteeRequired| ==> row[i + 1] == Value(Field(f, DevoteeRequired[i]))
    ensures row[5] == IsoTime(registrationDate)
  {
    [Value(Str(id)), Value(Field(f, "name")), Value(Field(f, "email")), Value(Field(f, "mobile")),
     Value(Field(f, "birthDate")), IsoTime(registrationDate)]
  }

  /** Every field add-donor checks is stored, as given, in the row it inserts. */
  lemma DonorRequiredStored(id: string, date: int, f: map<string, JsValue>)
    ensures forall k :: k in DonorRequired ==> Value(Field(f, k)) in DonorRow(id, date, f)
  {
    var row := DonorRow(id, date, f);
    assert DonorRequired == DonorBodyKeys[..4] + [DonorBodyKeys[9]];
    forall k | k in DonorRequired
      ensures Value(Field(f, k)) in row
    {
      var i :| 0 <= i < |DonorBodyKeys| && DonorBodyKeys[i] == k;
      assert row[i + 1] == Value(Field(f, k));
    }
  }

  /** Every field add-devotee checks is stored, as given, in the row it inserts. */
  lemma DevoteeRequiredStored(id: string, date: int, f: map<string, JsValue>)
    ensures forall k :: k in DevoteeRequired ==> Value(Field(f, k)) in DevoteeRow(id, date, f)
  {
    var row := DevoteeRow(id, date, f);
    forall k | k in DevoteeRequired
      ensures Value(Field(f, k)) in row
    {
      var i :| 0 <= i < |DevoteeRequired| && DevoteeRequired[i] == k;
      assert row[i + 1] == Value(Field(f, k));
    }
  }

  // ---------------------------------------------------------------------
  // The pool and the tables
  // ---------------------------------------------------------------------

  class Postgres {
    var donors: seq<seq<SqlParam>>
    var devotees: seq<seq<SqlParam>>
    /** Clients taken from the pool and not yet released. */
    var checkedOut: nat

    constructor ()
      ensures donors == [] && devotees == [] && checkedOut == 0
    {
      donors, devotees, checkedOut := [], [], 0;
    }

    /** pool.connect(); `available` says whether the connection attempt succeeds. */
    method Connect(available: bool) returns (client: bool)
      modifies this`checkedOut
      ensures client == available
      ensures checkedOut == old(checkedOut) + (if client then 1 else 0)
    {
      client := available;
      if client {
        checkedOut := checkedOut + 1;
      }
    }

    method Release()
      requires checkedOut > 0
      modifies this`checkedOut
      ensures checkedOut == old(checkedOut) - 1
    {
      checkedOut := checkedOut - 1;
    }

    method InsertDonor(row: seq<SqlParam>, succeeds: bool) returns (ok: bool)
      modifies this`donors
      ensures ok == succeeds
      ensures donors == if ok then old(donors) + [row] else old(donors)
    {
      ok := succeeds;
      if ok {
        donors := donors + [row];
      }
    }

    method InsertDevotee(row: seq<SqlParam>, succeeds: bool) returns (ok: bool)
      modifies this`devotees
      ensures ok == succeeds
      ensures devotees == if ok then old(devotees) + [row] else old(devotees)
    {
      ok := succeeds;
      if ok {
        devotees := devotees + [row];
      }
    }
  }

  /**
   * What add-donor answers: 405 for anything but POST; 500 when no client
   * can be acquired or the body is not JSON; 400 when a required field is
   * falsy; 500 when the INSERT fails; otherwise 201 with the generated id.
   */
  function DonorResponse(event: HttpEvent, connects: bool, queryOk: bool, idClock: int): HttpResponse {
    if event.httpMethod != "POST" then MethodNotAllowed
    else if !connects || event.body.Unparsable? then ServerError(DonorFailed)
    else if AnyFalsy(FieldsOf(event.body), DonorRequired) then MissingFields
    else if !queryOk then ServerError(DonorFailed)
    else Created(DonorAdded, GeneratedId("don_", idClock))
  }

  /** The status codes of add-donor, each with the exact condition it is given under. */
  lemma DonorStatusCodes(event: HttpEvent, connects: bool, queryOk: bool, idClock: int)
    ensures var r := DonorResponse(event, connects, queryOk, idClock);
      && (r.statusCode == 405 <==> event.httpMethod != "POST")
      && (r.statusCode == 400 <==>
            event.httpMethod == "POST" && connects && !event.body.Unparsable? && AnyFalsy(FieldsOf(event.body), DonorRequired))
      && (r.statusCode == 201 <==>
            event.httpMethod == "POST" && connects && !event.body.Unparsable? && !AnyFalsy(FieldsOf(event.body), DonorRequired) && queryOk)
      && (r.statusCode == 500 <==>
            event.httpMethod == "POST" && (!connects || event.body.Unparsable? || (!AnyFalsy(FieldsOf(event.body), DonorRequired) && !queryOk)))
      && (r.statusCode == 201 ==> r == Created(DonorAdded, GeneratedId("don_", idClock)))
  {
  }

  /**
   * The add-donor handler. `connects` and `queryOk` say whether pool.connect()
   * and the INSERT succeed; `idClock` and `dateClock` are the two readings of
   * the clock the handler takes for the id and for the date. Exactly one row
   * is inserted when the answer is 201 and none otherwise, and an acquired
   * client is always released.
   */
  method AddDonor(db: Postgres, event: HttpEvent, connects: bool, queryOk: bool, idClock: int, dateClock: int)
    returns (resp: HttpResponse)
    modifies db`donors, db`checkedOut
    ensures resp == DonorResponse(event, connects, queryOk, idClock)
    ensures db.checkedOut == old(db.checkedOut)
    ensures db.donors == if resp.statusCode == 201
      then old(db.donors) + [DonorRow(GeneratedId("don_", idClock), dateClock, FieldsOf(event.body))]
      else old(db.donors)
  {
    if event.httpMethod != "POST" {
      resp := MethodNotAllowed;
    } else {
      var client := db.Connect(connects);
      if !client || event.body.Unparsable? {
        resp := ServerError(DonorFailed);
      } else if AnyFalsy(FieldsOf(event.body), DonorRequired) {
        resp := MissingFields;
      } else {
        var id := GeneratedId("don_", idClock);
        var inserted := db.InsertDonor(DonorRow(id, dateClock, FieldsOf(event.body)), queryOk);
        resp := if inserted then Created(DonorAdded, id) else ServerError(DonorFailed);
      }
      // finally
      if client {
        db.Release();
      }
    }
  }

  /** What add-devotee answers, with the same shape as DonorResponse. */
  function DevoteeResponse(event: HttpEvent, connects: bool, queryOk: bool, idClock: int): HttpResponse {
    if event.httpMethod != "POST" then MethodNotAllowed
    else if !connects || event.body.Unparsable? then ServerError(DevoteeFailed)
    else if AnyFalsy(FieldsOf(event.body), DevoteeRequired) then MissingFields
    else if !queryOk then ServerError(DevoteeFailed)
    else Created(DevoteeAdded, GeneratedId("dev_", idClock))
  }

  lemma DevoteeStatusCodes(event: HttpEvent, connects: bool, queryOk: bool, idClock: int)
    ensures var r := DevoteeResponse(event, connects, queryOk, idClock);
      && (r.statusCode == 405 <==> event.httpMethod != "POST")
      && (r.statusCode == 400 <==>
            event.httpMethod == "POST" && connects && !event.body.Unparsable? && AnyFalsy(FieldsOf(event.body), DevoteeRequired))
      && (r.statusCode == 201 <==>
            event.httpMethod == "POST" && connects && !event.body.Unparsable? && !AnyFalsy(FieldsOf(event.body), DevoteeRequired) && queryOk)
      && (r.statusCode == 500 <==>
            event.httpMethod == "POST" && (!connects || event.body.Unparsable? || (!AnyFalsy(FieldsOf(event.body), DevoteeRequired) && !queryOk)))
      && (r.statusCode == 201 ==> r == Created(DevoteeAdded, GeneratedId("dev_", idClock)))
  {
  }

  /** The add-devotee handler, with the same shape as AddDonor. */
  method AddDevotee(db: Postgres, event: HttpEvent, connects: bool, queryOk: bool, idClock: int, dateClock: int)
    returns (resp: HttpResponse)
    modifies db`devotees, db`checkedOut
    ensures resp == DevoteeResponse(event, connects, queryOk, idClock)
    ensures db.checkedOut == old(db.checkedOut)
    ensures db.devotees == if resp.statusCode == 201
      then old(db.devotees) + [DevoteeRow(GeneratedId("dev_", idClock), dateClock, FieldsOf(event.body))]
      else old(db.devotees)
  {
    if event.httpMethod != "POST" {
      resp := MethodNotAllowed;
    } else {
      var client := db.Connect(connects);
      if !client || event.body.Unparsable? {
        resp := ServerError(DevoteeFailed);
      } else if AnyFalsy(FieldsOf(event.body), DevoteeRequired) {
        resp := MissingFields;
      } else {
        var id := GeneratedId("dev_", idClock);
        var inserted := db.InsertDevotee(DevoteeRow(id, dateClock, FieldsOf(event.body)), queryOk);
        resp := if inserted then Created(DevoteeAdded, id) else ServerError(DevoteeFailed);
      }
      // finally
      if client {
        db.Release();
      }
    }
  }
}
