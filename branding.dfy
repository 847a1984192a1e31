/** How a download is named after the requester: the relay-code choice and filename of
    `GetDesktopFile`, and the naming rule of the `WindowsInstaller` case. */
module Branding {
  import opened Common
  import opened Text
  import opened Paths

  /** The relay code `GetDesktopFile` settles on. A signed-in caller's organization comes from
      `GetOrganizationByUserName`, the anonymous caller's code from `GetDefaultRelayCode`; both
      arrive as parameters. A signed-in caller whose organization is null makes the sponsor-level
      read throw. */
  function RelayCodeFor(authenticated: bool, userOrg: Option<Organization>, defaultRelayCode: Option<string>): (r: Result<Option<string>>)
    ensures r.Fail? <==> authenticated && userOrg.Null?
    ensures r.Ok? && !authenticated ==> r.value == defaultRelayCode
    ensures r.Ok? && authenticated && AtLeast(userOrg.value.sponsorLevel, Relay) ==> r.value == userOrg.value.relayCode
    ensures r.Ok? && authenticated && !AtLeast(userOrg.value.sponsorLevel, Relay) ==> r.value == Some("")
  {
    if authenticated then
      match userOrg
      case Null => Fail(NullOrganization)
      case Some(org) => Ok(if AtLeast(org.sponsorLevel, Relay) then org.relayCode else Some(""))
    else
      Ok(defaultRelayCode)
  }

  /** The download name `GetDesktopFile` gives the file: the stem, the code in brackets and the
      extension when the code is not null or white space, else the bare stem. */
  function DesktopDownloadName(fileName: string, relayCode: Option<string>): string
  {
    if !IsNullOrWhiteSpace(relayCode) then Stem(fileName) + "-[" + relayCode.value + "]" + Extension(fileName)
    else Stem(fileName)
  }

  /** A desktop download is renamed away from its bare stem exactly when the relay code has a
      character that is not white space; the branded name carries the stem, the bracketed code and
      the extension. */
  lemma {:induction false} DesktopNameBranded(fileName: string, relayCode: Option<string>)
    ensures DesktopDownloadName(fileName, relayCode) != Stem(fileName) <==> !IsNullOrWhiteSpace(relayCode)
    ensures !IsNullOrWhiteSpace(relayCode) ==>
      var name := DesktopDownloadName(fileName, relayCode);
      var stem := Stem(fileName);
      |name| > |stem| + 2 && name[..|stem|] == stem && name[|stem|..|stem| + 2] == "-["
      && name[|stem| + 2..|stem| + 2 + |relayCode.value|] == relayCode.value
      && name[|stem| + 2 + |relayCode.value|..] == "]" + Extension(fileName)
  {
    if !IsNullOrWhiteSpace(relayCode) {
      var name := DesktopDownloadName(fileName, relayCode);
      var stem := Stem(fileName);
      assert name == stem + "-[" + relayCode.value + ("]" + Extension(fileName));
      assert |name| > |stem|;
    }
  }

  /** Whether a desktop download is branded, in terms of who asks: a signed-in caller gets the
      organization's code only from the Relay tier up and only if it is not blank; an anonymous
      caller gets the default code whenever it is not blank. */
  lemma DesktopBrandingEligibility(fileName: string, authenticated: bool, userOrg: Option<Organization>, defaultRelayCode: Option<string>)
    requires RelayCodeFor(authenticated, userOrg, defaultRelayCode).Ok?
    ensures var code := RelayCodeFor(authenticated, userOrg, defaultRelayCode).value;
      DesktopDownloadName(fileName, code) != Stem(fileName) <==>
        if authenticated then AtLeast(userOrg.value.sponsorLevel, Relay) && !IsNullOrWhiteSpace(userOrg.value.relayCode)
        else !IsNullOrWhiteSpace(defaultRelayCode)
  {
  }

  /** The x64 desktop binary downloads as "Remotely_Desktop" unbranded and with the code before
      ".exe" when branded. */
  lemma WindowsDesktopNames()
    ensures DesktopDownloadName("Remotely_Desktop.exe", Null) == "Remotely_Desktop"
    ensures DesktopDownloadName("Remotely_Desktop.exe", Some(" ")) == "Remotely_Desktop"
    ensures DesktopDownloadName("Remotely_Desktop.exe", Some("ABC123")) == "Remotely_Desktop-[ABC123].exe"
    ensures DesktopDownloadName("Remotely_Desktop", Some("ABC123")) == "Remotely_Desktop-[ABC123]"
  {
    LastDotAt("Remotely_Desktop.exe", 16);
    NoDot("Remotely_Desktop");
    assert !IsWhiteSpace("ABC123"[0]);
    assert Stem("Remotely_Desktop.exe") == "Remotely_Desktop";
    assert Extension("Remotely_Desktop.exe") == ".exe";
  }

  const RelayInstallerPrefix := "Remotely_Install-["
  const OrganizationInstallerPrefix := "Remotely_Installer-["

  /** The `WindowsInstaller` download name: any sponsor level above None brands it with the
      organization's relay code, otherwise it carries the organization ID. */
  function InstallerDownloadName(org: Organization, organizationId: Option<string>): string
  {
    if Above(org.sponsorLevel, None) then RelayInstallerPrefix + Interp(org.relayCode) + "].exe"
    else OrganizationInstallerPrefix + Interp(organizationId) + "].exe"
  }

  /** The name starts with the organization-ID prefix exactly when the organization has no sponsor
      level, and then it carries the ID; otherwise it starts with the relay prefix and carries the
      relay code. The two forms never coincide. */
  lemma {:induction false} InstallerNameForm(org: Organization, organizationId: Option<string>)
    ensures var name := InstallerDownloadName(org, organizationId);
      (|name| >= 20 && name[..20] == OrganizationInstallerPrefix) <==> org.sponsorLevel == None
    ensures var name := InstallerDownloadName(org, organizationId);
      org.sponsorLevel == None ==> name[20..] == Interp(organizationId) + "].exe"
    ensures var name := InstallerDownloadName(org, organizationId);
      org.sponsorLevel != None ==> name[..18] == RelayInstallerPrefix && name[18..] == Interp(org.relayCode) + "].exe"
  {
    var name := InstallerDownloadName(org, organizationId);
    if org.sponsorLevel != None {
      assert name == RelayInstallerPrefix + (Interp(org.relayCode) + "].exe");
      assert name[16] == '-' && OrganizationInstallerPrefix[16] == 'e';
    } else {
      assert name == OrganizationInstallerPrefix + (Interp(organizationId) + "].exe");
    }
  }

  /** A Basic organization shows where the two rules part: its desktop download is not branded
      (below Relay) but its installer is branded with its relay code (above None). */
  lemma BasicTierDiffers(code: string, organizationId: Option<string>)
    requires !IsNullOrWhiteSpace(Some(code))
    ensures var org := Organization(Basic, Some(code));
      RelayCodeFor(true, Some(org), Null) == Ok(Some(""))
      && InstallerDownloadName(org, organizationId) == "Remotely_Install-[" + code + "].exe"
  {
  }

  /** A Relay-sponsored organization with code "ABC123" gets "Remotely_Install-[ABC123].exe";
      an unsponsored organization "ORG9" gets "Remotely_Installer-[ORG9].exe". The third case only
      shows that a null ID interpolates as nothing: the dispatcher never serves it, because the
      lookup of a null ID yields a null organization. */
  lemma InstallerNameExamples()
    ensures InstallerDownloadName(Organization(Relay, Some("ABC123")), Some("ORG1")) == "Remotely_Install-[ABC123].exe"
    ensures InstallerDownloadName(Organization(None, Some("ABC123")), Some("ORG9")) == "Remotely_Installer-[ORG9].exe"
    ensures InstallerDownloadName(Organization(None, Null), Null) == "Remotely_Installer-[].exe"
  {
  }
}
