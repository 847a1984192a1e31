/** Values shared by the whole model of the client-downloads controller. */
module Common {

  /** A nullable reference: `Null` stands for C#'s `null`. */
  datatype Option<+T> = Null | Some(value: T)

  /** Why a request ends in a server error (an exception escaping the controller). */
  datatype Fault =
    | NullOrganization   // an organization lookup returned null and a member of it was read
    | MarkerMissing      // `IndexOf` returned -1 and the list indexer threw
    | FileUnreadable     // reading a script file failed

  /** The result of an operation that may throw. */
  datatype Result<+T> = Ok(value: T) | Fail(fault: Fault)

  /** The sponsor tiers, in the order the enum declares them. */
  datatype SponsorLevel = None | Basic | Relay

  /** The enum's underlying order. */
  function Rank(level: SponsorLevel): nat
  {
    match level
    case None => 0
    case Basic => 1
    case Relay => 2
  }

  /** `a >= b` on the enum. */
  predicate AtLeast(a: SponsorLevel, b: SponsorLevel)
  {
    Rank(a) >= Rank(b)
  }

  /** `a > b` on the enum. */
  predicate Above(a: SponsorLevel, b: SponsorLevel)
  {
    Rank(a) > Rank(b)
  }

  /** The two fields of an organization record that the controller reads. */
  datatype Organization = Organization(sponsorLevel: SponsorLevel, relayCode: Option<string>)

  /** What the inbound request contributes: `Request.Scheme` and `Request.Host`. */
  datatype Request = Request(scheme: string, host: string)

  /** The action result a controller method returns (content type is always application/octet-stream). */
  datatype Outcome =
    | FileDownload(path: seq<string>, downloadName: string)              // a file on disk, streamed
    | ContentDownload(text: string, downloadName: string)                // bytes built in memory
    | Forwarded(uploadPath: seq<string>, url: string, downloadName: string) // relay response bytes
    | BadRequest                                                          // 400
    | RequestTimeout                                                      // 408
    | ServerError(fault: Fault)                                           // 500

  /** What C# string interpolation writes for a nullable string: nothing for `null`. */
  function Interp(s: Option<string>): string
  {
    match s
    case Null => ""
    case Some(v) => v
  }
}
