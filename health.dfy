/** The health endpoint of controllers/health.controller.js: a point-in-time
    document built from the connection manager's snapshot and the host's
    metrics, and the HTTP status code chosen for it (200 OK, 503 Service
    Unavailable and 500 Internal Server Error, section 15 of RFC 9110). */
module Health {
  import opened Database

  /** Host metrics read while the document is assembled; reading them may
      throw, which the `Err` case carries with the error's message. */
  datatype Result<T> = Ok(value: T) | Err(message: string)

  datatype ServerMetrics = ServerMetrics(uptime: real, memoryUsage: map<string, int>)

  /** The snapshot's fields, with the numeric ready state replaced by its label. */
  datatype DatabaseDetails = DatabaseDetails(isConnected: bool, readyState: string, host: Option<string>, name: Option<string>)

  datatype DatabaseService = DatabaseService(status: string, details: DatabaseDetails)

  datatype ServerService = ServerService(status: string, uptime: real, memoryUsage: map<string, int>)

  /** The two response bodies: the health document and the error body. */
  datatype Body =
    | Report(status: string, timeStamp: string, database: DatabaseService, server: ServerService)
    | Failure(status: string, timeStamp: string, error: string)

  datatype Response = Response(code: int, body: Body)

  /** The label for the driver's numeric ready state. Both 0 and 3 read
      "disconnected", as the source has it. */
  function ReadyStateText(state: int): (text: string)
    ensures text == "disconnected" <==> state == 0 || state == 3
    ensures text == "connected" <==> state == 1
    ensures text == "connecting" <==> state == 2
    ensures text == "unknown" <==> !(0 <= state <= 3)
  {
    match state
    case 0 => "disconnected"
    case 1 => "connected"
    case 2 => "connecting"
    case 3 => "disconnected"
    case _ => "unknown"
  }

  /** The health document for a snapshot. */
  function HealthDocument(db: ConnectionStatus, timeStamp: string, metrics: ServerMetrics): (doc: Body)
    ensures doc.Report? && doc.status == "OK" && doc.timeStamp == timeStamp
    ensures doc.database.status == "healthy" <==> db.isConnected
    ensures doc.database.status == "unhealthy" <==> !db.isConnected
    ensures doc.database.details.isConnected == db.isConnected
    ensures doc.database.details.host == db.host && doc.database.details.name == db.name
    ensures doc.database.details.readyState == ReadyStateText(db.readyState)
    ensures doc.server.status == "healthy"
    ensures doc.server.uptime == metrics.uptime && doc.server.memoryUsage == metrics.memoryUsage
  {
    Report(
      "OK",
      timeStamp,
      DatabaseService(
        if db.isConnected then "healthy" else "unhealthy",
        DatabaseDetails(db.isConnected, ReadyStateText(db.readyState), db.host, db.name)),
      ServerService("healthy", metrics.uptime, metrics.memoryUsage))
  }

  /** The status code for a health document: 200 exactly when the database
      is healthy, 503 otherwise. */
  function StatusCode(doc: Body): (code: int)
    requires doc.Report?
    ensures code == 200 <==> doc.database.status == "healthy"
    ensures code == 503 <==> doc.database.status != "healthy"
  {
    if doc.database.status == "healthy" then 200 else 503
  }

  /** The catch branch: status 500 and an error body with the error's message. */
  function FailureResponse(timeStamp: string, message: string): (r: Response)
    ensures r.code == 500
    ensures r.body.Failure? && r.body.status == "ERROR"
    ensures r.body.timeStamp == timeStamp && r.body.error == message
  {
    Response(500, Failure("ERROR", timeStamp, message))
  }

  /** checkHealth with the status variable spelled as declared: a failure
      while reading the metrics gives 500 with its message; otherwise 200
      when the snapshot says connected and 503 when it does not, always with
      the full document. */
  function CheckHealth(db: ConnectionStatus, timeStamp: string, metrics: Result<ServerMetrics>): (r: Response)
    ensures r.code == 500 <==> metrics.Err?
    ensures r.code == 200 <==> metrics.Ok? && db.isConnected
    ensures r.code == 503 <==> metrics.Ok? && !db.isConnected
    ensures metrics.Err? ==> r.body == Failure("ERROR", timeStamp, metrics.message)
    ensures metrics.Ok? ==> r.body == HealthDocument(db, timeStamp, metrics.value)
  {
    match metrics
    case Err(message) => FailureResponse(timeStamp, message)
    case Ok(m) =>
      var doc := HealthDocument(db, timeStamp, m);
      Response(StatusCode(doc), doc)
  }

  /** The message of the ReferenceError that the misspelt `hhtpStatus` raises. */
  const UndefinedStatusMessage: string := "hhtpStatus is not defined"

  /** checkHealth as written: the response is sent with a variable that was
      never declared, so every request that gets that far throws and is
      answered by the catch branch. */
  function CheckHealthAsWritten(db: ConnectionStatus, timeStamp: string, metrics: Result<ServerMetrics>): (r: Response)
    ensures r.code == 500 && r.body.Failure? && r.body.status == "ERROR"
    ensures metrics.Ok? ==> r.body.error == UndefinedStatusMessage
    ensures metrics.Err? ==> r == CheckHealth(db, timeStamp, metrics)
  {
    match metrics
    case Err(message) => FailureResponse(timeStamp, message)
    case Ok(_) => FailureResponse(timeStamp, UndefinedStatusMessage)
  }

  /** As written the endpoint never reports a healthy database: with the
      database connected and the metrics available it answers 500 where 200
      was meant. */
  lemma AsWrittenNeverAnswersOk(db: ConnectionStatus, timeStamp: string, m: ServerMetrics)
    requires db.isConnected
    ensures CheckHealth(db, timeStamp, Ok(m)).code == 200
    ensures CheckHealthAsWritten(db, timeStamp, Ok(m)).code == 500
  {
  }

  /** The endpoint, with the status variable spelled as declared, reads the
      manager's snapshot and answers with 200 exactly when the manager's flag
      is set, whatever the driver reports. As written, every such request is
      answered with 500 (`CheckHealthAsWritten`). */
  method Serve(manager: DatabaseConnection, conn: DriverConnection, timeStamp: string, metrics: ServerMetrics)
    returns (r: Response)
    ensures r.code == 200 <==> manager.isConnected
    ensures r.code == 503 <==> !manager.isConnected
    ensures r.body.Report? && r.body.database.details.readyState == ReadyStateText(conn.readyState)
  {
    var status := manager.GetConnectionStatus(conn);
    r := CheckHealth(status, timeStamp, Ok(metrics));
  }
}
