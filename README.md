# Client downloads: a Dafny model

This project models the core of Remotely's `ClientDownloadsController`, the server endpoint that hands
out client installers. It covers five parts:

- **The artifact catalog.** A platform ID maps to a desktop binary, the organization installer, or a
  bash install script, and anything else is Bad Request. The ClickOnce architecture token maps to
  the x64 or x86 setup binary.
- **Download branding.** A relay code is chosen from the caller and their organization's sponsor
  level, and the download filename is built from it. The Windows installer has its own naming rule.
- **The bash-script rewrite.** The first `HostName=` line and the first `Organization=` line are
  overwritten in place, then the lines are joined with newlines.
- **The file-lock gate.** This is the one-slot semaphore that `GetInstallFile` waits on and releases
  in its `finally` block.
- **The ClickOnce relay request URL.**

Modules follow the controller's structure:

- `Common`: the shared values. These are nullable strings as `Option`, the sponsor tiers,
  organization records, the request, and the action results as `Outcome`.
- `Text`: the .NET string operations used. These are `ToLower`, `IsNullOrWhiteSpace` and
  `string.Join("\n", …)`, plus the line split that inverts the join.
- `Paths`: `GetFileName`, `GetFileNameWithoutExtension` and `GetExtension`. Paths are segment
  sequences.
- `Catalog`: the platform switch, the architecture switch and the relay URL.
- `Branding`: the relay-code choice of `GetDesktopFile`, the desktop download name and the installer
  download name.
- `BashScript`: `IndexOf` as a loop over an array, the in-place overwrite of the two marker lines,
  and `GetBashInstaller`. Each method is proved against the specification functions `FirstIndex`,
  `Patched` and `RewriteScript`.
- `FileGate`: class `Gate` with the semaphore's `count` and a ghost `holders` tally. It models the
  wait, the release, the `finally` block as written and the corrected release.
- `ClientDownloads`: the dispatch as a function, `GetInstallFile` as a method around the gate, and
  `GetClickOnceSetup`.

Some inputs are parameters (`Context`, `Request`):

- The results of `GetOrganizationByUserName`, `GetOrganizationById` (as a map from ID) and
  `GetDefaultRelayCode`.
- `User.Identity.IsAuthenticated`.
- `RedirectToHttps`.
- `Request.Scheme` and `Request.Host`.
- The lines of each script file.
- The relay base URL (`AppConstants.ClickOnceSetupUrl`, which is not part of this model).

An exception that escapes the controller is modelled as `ServerError`. There are three kinds: a null
organization whose sponsor level is read, a marker missing so the indexer gets -1, and a script file
that cannot be read.

The model follows the code in these places, where its behaviour may be unexpected:

- The gate is taken before the platform ID is looked at. An unknown ID therefore gives Bad Request
  only once the slot is held. While another request holds it, the result is 408.
- The time-out path also runs the `finally` block, and that block releases the slot whenever the
  count is 0. See Findings.
- The ClickOnce URL always uses the request's own scheme. `RedirectToHttps` is not consulted. The
  architecture token goes into the URL as the caller wrote it, not lower-cased.
- The relay response's status is never checked. Whatever bytes come back are served.
- The installer rule brands by relay code above sponsor level `None`. The desktop rule uses the
  relay code only from `Relay` up.
- `SponsorLevel.cs` is not part of this model. The tiers are taken as `None < Basic < Relay`.
  `Basic` stands for any tier between the two that the installer and desktop rules treat
  differently. Tiers above `Relay` behave like `Relay` under both comparisons.

## Model

| member | source | states |
|---|---|---|
| Catalog.Resolve | Server/API/ClientDownloadsController.cs:146-198 | a platform ID selects an artifact exactly when it is one of the eight IDs the switch names |
| Catalog.OnlyAliasesShare | Server/API/ClientDownloadsController.cs:180-195 | two different IDs share an artifact only if they are the Manjaro or the Ubuntu alias pair, and then it is that pair's script |
| Catalog.AliasPairs | Server/API/ClientDownloadsController.cs:181-194 | "Manjaro-x64" and "ManjaroInstaller-x64" give Install-Manjaro-x64.sh; "Ubuntu-x64" and "UbuntuInstaller-x64" give Install-Ubuntu-x64.sh |
| Catalog.ResolveIsCaseSensitive | Server/API/ClientDownloadsController.cs:146-198 | a spelling of a known ID that differs from it, even only in letter case, is rejected |
| Catalog.ClickOnceArchitectures | Server/API/ClientDownloadsController.cs:54-64 | "x64" or "X64" select the x64 ClickOnce setup, "x86" or "X86" the x86 one, and null or any other token selects nothing |
| Catalog.ClickOnceUrl | Server/API/ClientDownloadsController.cs:72 | the relay URL starts with the base URL and "/?host=" and ends with "&architecture=" and the token as passed |
| Text.ToLower | Server/API/ClientDownloadsController.cs:54 | lower-casing keeps the length and leaves no capital letter |
| Text.ToLowerIdempotent | Server/API/ClientDownloadsController.cs:54 | lower-casing an already lower-cased token changes nothing |
| Catalog.LowersToArch | Server/API/ClientDownloadsController.cs:54-61 | a token lower-cases to "x" and two digits exactly when it is that text with its first letter in either case |
| Text.SplitJoin | Server/API/ClientDownloadsController.cs:104 | splitting the joined text at newlines gives back the lines, when no line holds a newline |
| Paths.LastDot | Server/API/ClientDownloadsController.cs:126-130 | the result is -1 or the position of a '.', with no '.' after it |
| Paths.StemExtension | Server/API/ClientDownloadsController.cs:126-130 | stem and extension rebuild the file name unless it ends in '.'; the extension is empty or one '.' and no other |
| Branding.RelayCodeFor | Server/API/ClientDownloadsController.cs:110-123 | anonymous callers get the default code; signed-in callers get their organization's code from Relay up and "" below it; a null organization is a failure |
| Branding.DesktopNameBranded | Server/API/ClientDownloadsController.cs:126-137 | the name differs from the bare stem exactly when the code is not null or white space, and is then stem, "-[", code, "]", extension |
| Branding.DesktopBrandingEligibility | Server/API/ClientDownloadsController.cs:110-137 | a desktop download is branded exactly when an anonymous caller's default code is not blank, or a signed-in caller's organization is at Relay or above with a code that is not blank |
| Branding.WindowsDesktopNames | Server/API/ClientDownloadsController.cs:126-137 | "Remotely_Desktop.exe" downloads as "Remotely_Desktop" unbranded and as "Remotely_Desktop-[ABC123].exe" with code ABC123 |
| Branding.InstallerNameForm | Server/API/ClientDownloadsController.cs:169-178 | the name has the "Remotely_Installer-[" prefix and carries the organization ID exactly when the level is None; otherwise it is "Remotely_Install-[" with the relay code |
| Branding.BasicTierDiffers | Server/API/ClientDownloadsController.cs:115-172 | a tier above None and below Relay gets no desktop relay code but a relay-branded installer |
| Branding.InstallerNameExamples | Server/API/ClientDownloadsController.cs:169-178 | Relay with code ABC123 gives "Remotely_Install-[ABC123].exe"; None with ID ORG9 gives "Remotely_Installer-[ORG9].exe"; a null ID interpolates as nothing, giving "Remotely_Installer-[].exe", a name the dispatcher never serves since a null ID finds no organization |
| BashScript.FirstIndex | Server/API/ClientDownloadsController.cs:99-100 | the position holds the item and no earlier position does |
| BashScript.Patched | Server/API/ClientDownloadsController.cs:99-103 | same number of lines; the first host marker holds the host line, the first organization marker the organization line, all other lines unchanged in place |
| BashScript.LaterMarkersKept | Server/API/ClientDownloadsController.cs:99-103 | a marker line after the first of its kind is left as it was |
| BashScript.RewriteScript | Server/API/ClientDownloadsController.cs:94-104 | the script is served exactly when both marker lines are present; otherwise the result is the missing-marker failure, never a partial rewrite |
| BashScript.RewriteReadsBack | Server/API/ClientDownloadsController.cs:94-104 | the served text, split at newlines, is exactly the patched lines |
| BashScript.RewriteExample | Server/API/ClientDownloadsController.cs:94-104 | ["a","HostName=","b","Organization=","c"] with HTTPS forced, host example.com and ORG1 gives the five lines with HostName="https://example.com" and Organization="ORG1" |
| BashScript.MissingMarkerFails | Server/API/ClientDownloadsController.cs:99-103 | a script with a host marker but no organization marker fails |
| BashScript.IndexOf | Server/API/ClientDownloadsController.cs:99-100 | -1 exactly when the item is absent, else the first position holding it |
| BashScript.OverwriteMarkers | Server/API/ClientDownloadsController.cs:99-103 | succeeds exactly when both markers are present, leaving the patched lines; a missing host marker leaves the list untouched, a missing organization marker leaves only the host line written |
| BashScript.GetBashInstaller | Server/API/ClientDownloadsController.cs:92-106 | the text built from the list equals the rewrite specification, including its failure |
| FileGate.Gate.constructor | Server/API/ClientDownloadsController.cs:29 | the gate starts with one free slot and no holder |
| FileGate.Gate.Wait | Server/API/ClientDownloadsController.cs:144 | the wait succeeds exactly when the slot is free and moves the count from 1 to 0; mutual exclusion is kept |
| FileGate.Gate.Release | Server/API/ClientDownloadsController.cs:210 | the count goes up by one |
| FileGate.Gate.Finally | Server/API/ClientDownloadsController.cs:206-211 | the count stays in {0,1} and ends at 1; a free slot is not released again; mutual exclusion breaks exactly when a request that did not acquire finds the slot held |
| FileGate.Gate.ReleaseIfAcquired | Server/API/ClientDownloadsController.cs:206-211 | releasing only after a successful wait keeps the count in {0,1} and keeps mutual exclusion |
| FileGate.TimedOutRequestOpensHeldSlot | Server/API/ClientDownloadsController.cs:201-211 | A holds the slot, B times out, B's finally releases, and C then acquires while A is still inside: two holders |
| FileGate.TimedOutRequestKeepsHeldSlot | Server/API/ClientDownloadsController.cs:201-211 | with the corrected release, B's time-out leaves A's hold in place and C times out as well |
| ClientDownloads.Dispatch | Server/API/ClientDownloadsController.cs:146-198 | Bad Request exactly for an unknown platform ID, and never a time-out |
| ClientDownloads.DispatchAliases | Server/API/ClientDownloadsController.cs:180-195 | each alias answers exactly as its partner for every organization and context |
| ClientDownloads.DispatchKinds | Server/API/ClientDownloadsController.cs:148-195 | desktop IDs give their file named by the relay-code rule (or a null-organization failure), the installer its organization-named file, scripts the rewritten text or a read or marker failure |
| ClientDownloads.InstallerWithoutOrganization | Server/API/ClientDownloadsController.cs:163-169 | the installer requested without an organization ID fails on the null organization |
| ClientDownloads.GetInstallFile | Server/API/ClientDownloadsController.cs:140-213 | with the slot free the request is dispatched, with it held the answer is 408; on every path the finally leaves the count at 1 |
| ClientDownloads.GetClickOnceSetup | Server/API/ClientDownloadsController.cs:50-75 | Bad Request exactly when the token names no architecture; otherwise the matching setup is forwarded to the relay URL with the token as written, served as "setup.exe" |
| ClientDownloads.ClickOnceKeepsToken | Server/API/ClientDownloadsController.cs:54-72 | "X64" selects the x64 setup but the URL ends "&architecture=X64" |

## Left out

- Routing attributes, `ApiAuthorizationFilter`, and the three routes that call `GetInstallFile`.
  These are framework plumbing, so the organization ID is a parameter. It is `Null` for the
  desktop route.
- The `OrganizationID` header lookup (line 82). This is a framework call.
- `FileStream`, `ReadAllBytesAsync` and `ReadAllLinesAsync`. This is file I/O. Script lines are an
  input. A binary file's existence is not modelled, so opening a missing desktop or installer
  binary throws in the source but not in the model.
- How `ReadAllLines` splits at `\r`, `\r\n` and `\n`.
- The UTF-8 encoding of the joined script (line 104). The model stops at the joined text.
- The multipart POST to the relay and reading its response (lines 66-73). These are network calls.
  The outcome records the file to upload, the URL and the download name.
- `Path.Combine` and the web-root prefix. These are OS path details. Paths are segment sequences
  under the web root.
- The blocking wait, the 15-second timeout and real concurrency.
  - A wait is decided on the count when it ends.
  - A wait that outlasts the holder is the same as the holder leaving first.
  - Interleaving is modelled only by the order of `Wait` and `Finally` calls across requests.
- That `_fileLock` belongs to each controller instance rather than to the process. This is framework
  lifetime.
- Cancellation of the inbound request. The code has none.
- Text.ToLower: lower-cases only A-Z, not the culture-sensitive mapping of other letters. No other
  character lower-cases to 'x', '6', '4' or '8', so the architecture match is unaffected.
- ClientDownloads.GetInstallFile: models the `finally` block as written, so it keeps the count in
  {0,1} but does not claim mutual exclusion. The corrected release is `FileGate.Gate.ReleaseIfAcquired`.

## Findings

| source | as written | input that shows it | evidently intended | confidence | as-written member | corrected member |
|---|---|---|---|---|---|---|
| Server/API/ClientDownloadsController.cs:206-211 | the `finally` block releases the semaphore whenever its count is 0, including on the time-out path, where the slot belongs to another request | request A holds the slot; request B times out and its `finally` sees count 0 and releases; request C then acquires while A is still serving | release only when this request's wait succeeded, so that at most one request is inside | not executed; low in practice: the semaphore is a field of the controller, and under the framework's default of one controller per request no second request ever sees count 0, so the race needs a controller instance shared between requests; certain for the gate as a shared lock | FileGate.TimedOutRequestOpensHeldSlot | FileGate.Gate.ReleaseIfAcquired |
