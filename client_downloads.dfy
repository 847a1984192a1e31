/** `ClientDownloadsController`: `GetInstallFile` (the gate around the platform dispatch) and
    `GetClickOnceSetup` (the architecture switch and the relay request). */
module ClientDownloads {
  import opened Common
  import opened Paths
  import opened Catalog
  import opened Branding
  import opened BashScript
  import opened FileGate

  /** What the controller reads besides its arguments. The organization lookups and the default
      relay code stand for `IDataService`; `scripts` holds the lines of each text file under the
      web root. */
  datatype Context = Context(
    request: Request,
    redirectToHttps: bool,
    authenticated: bool,
    userOrg: Option<Organization>,
    defaultRelayCode: Option<string>,
    organizations: map<string, Organization>,
    scripts: map<seq<string>, seq<string>>)

  /** `GetOrganizationById`: null for a null or unknown ID. */
  function OrganizationById(ctx: Context, organizationId: Option<string>): Option<Organization>
  {
    if organizationId.Some? && organizationId.value in ctx.organizations then Some(ctx.organizations[organizationId.value])
    else Null
  }

  /** `GetDesktopFile`: choose the relay code, then name the download after it. */
  function DesktopFile(path: seq<string>, ctx: Context): Outcome
  {
    match RelayCodeFor(ctx.authenticated, ctx.userOrg, ctx.defaultRelayCode)
    case Fail(fault) => ServerError(fault)
    case Ok(code) => FileDownload(path, DesktopDownloadName(FileName(path), code))
  }

  /** The `WindowsInstaller` case: look the organization up by ID and name the download after it. */
  function InstallerFile(path: seq<string>, organizationId: Option<string>, ctx: Context): Outcome
  {
    match OrganizationById(ctx, organizationId)
    case Null => ServerError(NullOrganization)
    case Some(org) => FileDownload(path, InstallerDownloadName(org, organizationId))
  }

  /** `GetBashInstaller` on the file under Downloads. */
  function BashInstallerFile(fileName: string, organizationId: Option<string>, ctx: Context): Outcome
  {
    var path := ["Downloads", fileName];
    if path !in ctx.scripts then ServerError(FileUnreadable)
    else
      match RewriteScript(ctx.scripts[path], ctx.redirectToHttps, ctx.request, organizationId)
      case Fail(fault) => ServerError(fault)
      case Ok(text) => ContentDownload(text, fileName)
  }

  /** The switch inside the gate. Only an unknown platform ID gives Bad Request; every known one
      is served or fails inside its own handler. */
  function Dispatch(platformID: string, organizationId: Option<string>, ctx: Context): (o: Outcome)
    ensures o == BadRequest <==> platformID !in PlatformIDs
    ensures o != RequestTimeout
  {
    match Resolve(platformID)
    case Null => BadRequest
    case Some(DesktopBinary(path)) => DesktopFile(path, ctx)
    case Some(OrganizationInstaller(path)) => InstallerFile(path, organizationId, ctx)
    case Some(BashInstaller(fileName)) => BashInstallerFile(fileName, organizationId, ctx)
  }

  /** Each legacy alias is served exactly as its partner, whatever the organization and context. */
  lemma DispatchAliases(organizationId: Option<string>, ctx: Context)
    ensures Dispatch("Manjaro-x64", organizationId, ctx) == Dispatch("ManjaroInstaller-x64", organizationId, ctx)
    ensures Dispatch("Ubuntu-x64", organizationId, ctx) == Dispatch("UbuntuInstaller-x64", organizationId, ctx)
  {
  }

  /** The kind of response each known platform ID can give. */
  lemma {:induction false} DispatchKinds(platformID: string, organizationId: Option<string>, ctx: Context)
    requires platformID in PlatformIDs
    ensures var o := Dispatch(platformID, organizationId, ctx);
      platformID in {"WindowsDesktop-x64", "WindowsDesktop-x86", "UbuntuDesktop"} ==>
        o == ServerError(NullOrganization) || (o.FileDownload? && o.path == Resolve(platformID).value.path)
    ensures var o := Dispatch(platformID, organizationId, ctx);
      var code := RelayCodeFor(ctx.authenticated, ctx.userOrg, ctx.defaultRelayCode);
      platformID in {"WindowsDesktop-x64", "WindowsDesktop-x86", "UbuntuDesktop"} && code.Ok? ==>
        o == FileDownload(Resolve(platformID).value.path, DesktopDownloadName(FileName(Resolve(platformID).value.path), code.value))
    ensures var o := Dispatch(platformID, organizationId, ctx);
      platformID == "WindowsInstaller" ==>
        o == ServerError(NullOrganization) || o == FileDownload(["Downloads", "Remotely_Installer.exe"], InstallerDownloadName(OrganizationById(ctx, organizationId).value, organizationId))
    ensures var o := Dispatch(platformID, organizationId, ctx);
      Resolve(platformID).value.BashInstaller? ==>
        o in {ServerError(FileUnreadable), ServerError(MarkerMissing)} || o == ContentDownload(RewriteScript(ctx.scripts[["Downloads", Resolve(platformID).value.fileName]], ctx.redirectToHttps, ctx.request, organizationId).value, Resolve(platformID).value.fileName)
  {
  }

  /** The installer asked for through the desktop route (no organization ID) reads the sponsor
      level of a null organization. */
  lemma InstallerWithoutOrganization(ctx: Context)
    ensures Dispatch("WindowsInstaller", Null, ctx) == ServerError(NullOrganization)
  {
  }

  /** `GetInstallFile`: wait on the gate; if the slot was taken, dispatch, otherwise 408; then the
      `finally` block, on every path. Failures inside the dispatch are outcomes here, so the
      `finally` runs after them too. */
  method GetInstallFile(gate: Gate, organizationId: Option<string>, platformID: string, ctx: Context) returns (o: Outcome)
    requires gate.Valid()
    modifies gate
    ensures o == if old(gate.count) == 1 then Dispatch(platformID, organizationId, ctx) else RequestTimeout
    ensures gate.Valid() && gate.count == 1
    ensures gate.holders == old(gate.holders)
  {
    var acquired := gate.Wait();
    if acquired {
      match Resolve(platformID)
      case Null =>
        o := BadRequest;
      case Some(DesktopBinary(path)) =>
        o := DesktopFile(path, ctx);
      case Some(OrganizationInstaller(path)) =>
        o := InstallerFile(path, organizationId, ctx);
      case Some(BashInstaller(fileName)) =>
        var path := ["Downloads", fileName];
        if path in ctx.scripts {
          var script := GetBashInstaller(ctx.scripts[path], ctx.redirectToHttps, ctx.request, organizationId);
          o := match script
            case Fail(fault) => ServerError(fault)
            case Ok(text) => ContentDownload(text, fileName);
        } else {
          o := ServerError(FileUnreadable);
        }
    } else {
      o := RequestTimeout;
    }
    gate.Finally(acquired);
  }

  /** `GetClickOnceSetup`: Bad Request before any file or network work unless the token names an
      architecture; otherwise the setup binary is posted to the relay and its answer served as
      "setup.exe". The URL carries the request's own scheme and the token as written. */
  function GetClickOnceSetup(architecture: Option<string>, organizationId: Option<string>, request: Request, setupUrl: string): (o: Outcome)
    ensures o == BadRequest <==> ClickOnceSetupPath(architecture).Null?
    ensures o != BadRequest ==>
              o.Forwarded? && o.downloadName == "setup.exe"
              && o.uploadPath == ClickOnceSetupPath(architecture).value
              && o.url == ClickOnceUrl(setupUrl, request.scheme, request.host, organizationId, architecture.value)
  {
    match ClickOnceSetupPath(architecture)
    case Null => BadRequest
    case Some(path) =>
      Forwarded(path, ClickOnceUrl(setupUrl, request.scheme, request.host, organizationId, architecture.value), "setup.exe")
  }

  /** An upper-case token selects the same binary as its lower-case form, but is passed on to the
      relay as written. */
  lemma ClickOnceKeepsToken(organizationId: Option<string>, request: Request, setupUrl: string)
    ensures var o := GetClickOnceSetup(Some("X64"), organizationId, request, setupUrl);
      o.Forwarded? && o.uploadPath == ClickOnceX64
      && o.url[|o.url| - 17..] == "&architecture=X64"
  {
  }
}
