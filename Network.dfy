/**
 * The TCP reachability probe of `test_network_connectivity` (both servers):
 * the outcome of the socket connect is an input, the report is shaped from
 * it.
 */
module Network {
  import opened Wrappers
  import opened Text

  /** The port the probe always dials. */
  const SqlServerPort := 1433

  /**
   * What the connect attempt gave: the code `connect_ex` returned with the
   * elapsed milliseconds, or the text of the exception it raised.
   */
  datatype ConnectOutcome =
    | ConnectCode(code: int, elapsedMs: real)
    | ConnectRaised(message: string)

  datatype ConnectivityReport = ConnectivityReport(
    server: string,
    port: int,
    reachable: bool,
    responseTimeMs: Option<real>,
    error: Option<string>)

  /**
   * The report starts unreachable with no time and no error; code 0 marks
   * it reachable with the elapsed time, any other code or an exception
   * fills in the error.
   */
  function Connectivity(server: string, outcome: ConnectOutcome): (r: ConnectivityReport)
    ensures r.server == server && r.port == SqlServerPort
    ensures r.reachable <==> outcome.ConnectCode? && outcome.code == 0
    ensures r.reachable <==> r.error.None?
    ensures r.responseTimeMs.Some? <==> r.reachable
    ensures r.reachable ==> r.responseTimeMs == Some(outcome.elapsedMs)
    ensures outcome.ConnectCode? && outcome.code != 0 ==>
              r.error == Some("Connection failed with code: " + IntToString(outcome.code))
    ensures outcome.ConnectRaised? ==> r.error == Some(outcome.message)
  {
    var initial := ConnectivityReport(server, SqlServerPort, false, None, None);
    match outcome
    case ConnectCode(code, elapsed) =>
      if code == 0 then initial.(reachable := true, responseTimeMs := Some(elapsed))
      else initial.(error := Some("Connection failed with code: " + IntToString(code)))
    case ConnectRaised(m) => initial.(error := Some(m))
  }
}
