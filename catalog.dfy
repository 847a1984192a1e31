/** The fixed catalog of install artifacts: the platform switch of `GetInstallFile` and the
    architecture switch and relay URL of `GetClickOnceSetup`. */
module Catalog {
  import opened Common
  import opened Text

  /** What a platform ID selects; paths are segments under the web root. */
  datatype Artifact =
    | DesktopBinary(path: seq<string>)          // served by GetDesktopFile, branded by relay code
    | OrganizationInstaller(path: seq<string>)  // the WindowsInstaller case
    | BashInstaller(fileName: string)           // a script under Downloads, rewritten line by line

  /** The platform IDs the switch has a case for. */
  const PlatformIDs: set<string> := {
    "WindowsDesktop-x64", "WindowsDesktop-x86", "UbuntuDesktop", "WindowsInstaller",
    "Manjaro-x64", "ManjaroInstaller-x64", "Ubuntu-x64", "UbuntuInstaller-x64"
  }

  const ManjaroScript := "Install-Manjaro-x64.sh"
  const UbuntuScript := "Install-Ubuntu-x64.sh"

  /** The switch on `platformID`: an exact, case-sensitive comparison; `Null` is the default case. */
  function Resolve(platformID: string): (a: Option<Artifact>)
    ensures a.Some? <==> platformID in PlatformIDs
  {
    if platformID == "WindowsDesktop-x64" then
      Some(DesktopBinary(["Downloads", "Win-x64", "Remotely_Desktop.exe"]))
    else if platformID == "WindowsDesktop-x86" then
      Some(DesktopBinary(["Downloads", "Win-x86", "Remotely_Desktop.exe"]))
    else if platformID == "UbuntuDesktop" then
      Some(DesktopBinary(["Downloads", "Remotely_Desktop"]))
    else if platformID == "WindowsInstaller" then
      Some(OrganizationInstaller(["Downloads", "Remotely_Installer.exe"]))
    else if platformID == "Manjaro-x64" || platformID == "ManjaroInstaller-x64" then
      Some(BashInstaller(ManjaroScript))
    else if platformID == "Ubuntu-x64" || platformID == "UbuntuInstaller-x64" then
      Some(BashInstaller(UbuntuScript))
    else
      Null
  }

  /** Two different platform IDs share an artifact only when they are one of the two legacy alias pairs. */
  lemma OnlyAliasesShare(p: string, q: string)
    requires p != q && Resolve(p).Some? && Resolve(p) == Resolve(q)
    ensures {p, q} == {"Manjaro-x64", "ManjaroInstaller-x64"} || {p, q} == {"Ubuntu-x64", "UbuntuInstaller-x64"}
    ensures Resolve(p) == Some(BashInstaller(ManjaroScript)) || Resolve(p) == Some(BashInstaller(UbuntuScript))
  {
  }

  /** Both members of each alias pair resolve to the same script. */
  lemma AliasPairs()
    ensures Resolve("Manjaro-x64") == Resolve("ManjaroInstaller-x64") == Some(BashInstaller(ManjaroScript))
    ensures Resolve("Ubuntu-x64") == Resolve("UbuntuInstaller-x64") == Some(BashInstaller(UbuntuScript))
  {
  }

  /** Matching is case-sensitive: a different spelling of a known ID, even one equal to it
      ignoring case, is not accepted. */
  lemma {:induction false} ResolveIsCaseSensitive(p: string, q: string)
    requires Resolve(p).Some? && q != p && ToLower(q) == ToLower(p)
    ensures Resolve(q) == Null
  {
    if Resolve(q).Some? {
      // only the two desktop IDs share a length; they differ at position 16
      assert {p, q} == {"WindowsDesktop-x64", "WindowsDesktop-x86"};
      ToLowerAt(p, 16);
      ToLowerAt(q, 16);
    }
  }

  /** The relay setup binaries under the web root. */
  const ClickOnceX64: seq<string> := ["Downloads", "Win-x64", "ClickOnce", "setup.exe"]
  const ClickOnceX86: seq<string> := ["Downloads", "Win-x86", "ClickOnce", "setup.exe"]

  /** The switch on `architecture?.ToLower()`; `Null` is the default case, which also takes `null`. */
  function ClickOnceSetupPath(architecture: Option<string>): Option<seq<string>>
  {
    if architecture.Null? then Null
    else
      var token := ToLower(architecture.value);
      if token == "x64" then Some(ClickOnceX64)
      else if token == "x86" then Some(ClickOnceX86)
      else Null
  }

  /** A three-character token lower-cases to "x" followed by two digits exactly when it is that
      text with its first letter in either case. */
  lemma {:induction false} LowersToArch(s: string, d1: char, d2: char)
    requires '0' <= d1 <= '9' && '0' <= d2 <= '9'
    ensures ToLower(s) == ['x', d1, d2] <==> s == ['x', d1, d2] || s == ['X', d1, d2]
  {
    if |s| == 3 {
      ToLowerAt(s, 0);
      ToLowerAt(s, 1);
      ToLowerAt(s, 2);
      assert ToLower(s) == [LowerChar(s[0]), LowerChar(s[1]), LowerChar(s[2])];
      assert s == [s[0], s[1], s[2]];
    }
  }

  /** The architecture token is matched ignoring case: "x64"/"X64" select the x64 setup,
      "x86"/"X86" the x86 setup, and null or any other token selects nothing. */
  lemma {:induction false} ClickOnceArchitectures(architecture: Option<string>)
    ensures ClickOnceSetupPath(architecture) == Some(ClickOnceX64) <==>
              architecture == Some("x64") || architecture == Some("X64")
    ensures ClickOnceSetupPath(architecture) == Some(ClickOnceX86) <==>
              architecture == Some("x86") || architecture == Some("X86")
    ensures ClickOnceSetupPath(architecture).Null? <==>
              architecture !in {Some("x64"), Some("X64"), Some("x86"), Some("X86")}
  {
    if architecture.Some? {
      LowersToArch(architecture.value, '6', '4');
      LowersToArch(architecture.value, '8', '6');
    }
  }

  /** The relay request URL: `{setupUrl}/?host={scheme}://{host}&organizationid={id}&architecture={token}`,
      with the token as the caller wrote it. */
  function ClickOnceUrl(setupUrl: string, scheme: string, host: string, organizationId: Option<string>, architecture: string): (url: string)
    ensures |url| >= |setupUrl| + 7 && url[..|setupUrl| + 7] == setupUrl + "/?host="
    ensures |url| >= |architecture| + 14 && url[|url| - |architecture| - 14..] == "&architecture=" + architecture
  {
    setupUrl + "/?host=" + scheme + "://" + host + "&organizationid=" + Interp(organizationId)
      + "&architecture=" + architecture
  }
}
