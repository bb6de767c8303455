/**
 * Client-class inference (`getClientAgent`): the `User-Agent` header is sorted into one
 * of three buckets, which the session ledger uses as its client key.
 */
module ClientAgent {
  import opened Wrappers

  /** The closed set of client classes a session record can carry. */
  datatype ClientClass = PC | Mobile | MicroMessenger

  /**
   * The two user-agent detectors the filter delegates to (`isMobileClient`,
   * `isMicroMessenger`); their pattern tables are not part of this model.
   */
  datatype Detectors = Detectors(
    isMobileClient: Option<string> -> bool,
    isMicroMessenger: Option<string> -> bool)

  /**
   * `getClientAgent`: `PC` for a non-mobile agent; for a mobile agent `MicroMessenger`
   * when the in-app browser is detected and `Mobile` otherwise.
   */
  function GetClientAgent(userAgent: Option<string>, d: Detectors): (c: ClientClass)
    ensures c == PC <==> !d.isMobileClient(userAgent)
    ensures c == MicroMessenger ==> d.isMobileClient(userAgent)
    ensures c == MicroMessenger <==> d.isMobileClient(userAgent) && d.isMicroMessenger(userAgent)
  {
    var isMobile := d.isMobileClient(userAgent);
    var agent := if isMobile then Mobile else PC;
    if isMobile && d.isMicroMessenger(userAgent) then MicroMessenger else agent
  }
}
