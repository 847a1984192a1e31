/** `GetBashInstaller`: the script's lines are read into a list, the first "HostName=" line and the
    first "Organization=" line are overwritten in place, and the lines are joined with "\n". */
module BashScript {
  import opened Common
  import opened Text

  const HostMarker := "HostName="
  const OrganizationMarker := "Organization="

  /** `List.IndexOf` on a list that holds the item: the position of its first occurrence. */
  function FirstIndex(lines: seq<string>, x: string): (i: nat)
    requires x in lines
    ensures i < |lines| && lines[i] == x
    ensures forall j :: 0 <= j < i ==> lines[j] != x
  {
    if lines[0] == x then 0 else 1 + FirstIndex(lines[1..], x)
  }

  /** The scheme written into the script: "https" when the server redirects to HTTPS, else the request's. */
  function SchemeFor(redirectToHttps: bool, request: Request): string
  {
    if redirectToHttps then "https" else request.scheme
  }

  /** `HostName="{scheme}://{host}"`. */
  function HostLine(scheme: string, host: string): string
  {
    HostMarker + "\"" + scheme + "://" + host + "\""
  }

  /** `Organization="{organizationId}"`. */
  function OrganizationLine(organizationId: Option<string>): string
  {
    OrganizationMarker + "\"" + Interp(organizationId) + "\""
  }

  /** The script's lines after both overwrites: the first host marker holds the host line, the first
      organization marker the organization line, and every other line, later copies of the markers
      included, is the original line in its original position. */
  function Patched(lines: seq<string>, hostLine: string, orgLine: string): (r: seq<string>)
    requires HostMarker in lines && OrganizationMarker in lines
    ensures |r| == |lines|
    ensures r[FirstIndex(lines, HostMarker)] == hostLine
    ensures r[FirstIndex(lines, OrganizationMarker)] == orgLine
    ensures forall k :: 0 <= k < |lines| && k != FirstIndex(lines, HostMarker) && k != FirstIndex(lines, OrganizationMarker)
              ==> r[k] == lines[k]
  {
    lines[FirstIndex(lines, HostMarker) := hostLine][FirstIndex(lines, OrganizationMarker) := orgLine]
  }

  /** A later copy of a marker line survives the rewrite unchanged. */
  lemma LaterMarkersKept(lines: seq<string>, hostLine: string, orgLine: string, k: nat)
    requires HostMarker in lines && OrganizationMarker in lines
    requires k < |lines| && lines[k] in {HostMarker, OrganizationMarker}
    requires k != FirstIndex(lines, lines[k])
    ensures Patched(lines, hostLine, orgLine)[k] == lines[k]
  {
  }

  /** The text `GetBashInstaller` serves, or the failure when a marker line is missing (the indexer
      is handed -1 and throws, so nothing is served). */
  function RewriteScript(lines: seq<string>, redirectToHttps: bool, request: Request, organizationId: Option<string>): (r: Result<string>)
    ensures r.Ok? <==> HostMarker in lines && OrganizationMarker in lines
    ensures r.Fail? ==> r.fault == MarkerMissing
  {
    if HostMarker in lines && OrganizationMarker in lines then
      Ok(Join(Patched(lines, HostLine(SchemeFor(redirectToHttps, request), request.host), OrganizationLine(organizationId))))
    else
      Fail(MarkerMissing)
  }

  /** Reading the served text back line by line gives exactly the patched lines, provided no line
      (and neither inserted value) holds a newline. */
  lemma {:induction false} RewriteReadsBack(lines: seq<string>, redirectToHttps: bool, request: Request, organizationId: Option<string>)
    requires HostMarker in lines && OrganizationMarker in lines
    requires forall k :: 0 <= k < |lines| ==> IsLine(lines[k])
    requires IsLine(HostLine(SchemeFor(redirectToHttps, request), request.host))
    requires IsLine(OrganizationLine(organizationId))
    ensures RewriteScript(lines, redirectToHttps, request, organizationId).Ok?
    ensures Split(RewriteScript(lines, redirectToHttps, request, organizationId).value)
            == Patched(lines, HostLine(SchemeFor(redirectToHttps, request), request.host), OrganizationLine(organizationId))
  {
    var patched := Patched(lines, HostLine(SchemeFor(redirectToHttps, request), request.host), OrganizationLine(organizationId));
    forall k | 0 <= k < |patched| ensures IsLine(patched[k]) {
    }
    SplitJoin(patched);
  }

  /** The five-line example: host example.com over HTTPS and organization ORG1. */
  lemma RewriteExample()
    ensures RewriteScript(["a", "HostName=", "b", "Organization=", "c"], true, Request("http", "example.com"), Some("ORG1"))
            == Ok("a" + "\n" + "HostName=\"https://example.com\"" + "\n" + "b" + "\n" + "Organization=\"ORG1\"" + "\n" + "c")
  {
    var hostLine := HostLine("https", "example.com");
    var orgLine := OrganizationLine(Some("ORG1"));
    assert hostLine == "HostName=\"https://example.com\"";
    assert orgLine == "Organization=\"ORG1\"";
    var lines := ["a", "HostName=", "b", "Organization=", "c"];
    assert lines == ["a", HostMarker, "b", OrganizationMarker, "c"];
    assert HostMarker in lines && OrganizationMarker in lines;
    assert SchemeFor(true, Request("http", "example.com")) == "https";
    PatchFive("a", "b", "c", hostLine, orgLine);
    JoinFive("a", hostLine, "b", orgLine, "c");
  }

  lemma PatchFive(a: string, b: string, c: string, hostLine: string, orgLine: string)
    requires a !in {HostMarker, OrganizationMarker} && b !in {HostMarker, OrganizationMarker}
    ensures Patched([a, HostMarker, b, OrganizationMarker, c], hostLine, orgLine) == [a, hostLine, b, orgLine, c]
  {
    var lines := [a, HostMarker, b, OrganizationMarker, c];
    assert FirstIndex(lines, HostMarker) == 1 by {
      assert lines[0] != HostMarker && lines[1] == HostMarker;
    }
    assert FirstIndex(lines, OrganizationMarker) == 3 by {
      assert lines[0] != OrganizationMarker && lines[1] != OrganizationMarker;
      assert lines[2] != OrganizationMarker && lines[3] == OrganizationMarker;
    }
  }

  lemma JoinFive(a: string, b: string, c: string, d: string, e: string)
    ensures Join([a, b, c, d, e]) == a + "\n" + b + "\n" + c + "\n" + d + "\n" + e
  {
    assert [a, b, c, d, e][1..] == [b, c, d, e];
    assert [b, c, d, e][1..] == [c, d, e];
    assert [c, d, e][1..] == [d, e];
    assert [d, e][1..] == [e];
    assert Join([d, e]) == d + "\n" + e;
    assert Join([c, d, e]) == c + "\n" + (d + "\n" + e);
    assert Join([b, c, d, e]) == b + "\n" + (c + "\n" + (d + "\n" + e));
    assert Join([a, b, c, d, e]) == a + "\n" + (b + "\n" + (c + "\n" + (d + "\n" + e)));
  }

  /** A script without an "Organization=" line fails as a whole, even though its host line is found. */
  lemma MissingMarkerFails()
    ensures RewriteScript(["HostName=", "x"], false, Request("http", "h"), Some("o")) == Fail(MarkerMissing)
  {
  }

  /** `List.IndexOf`: the first position holding `x`, or -1. */
  method IndexOf(list: array<string>, x: string) returns (i: int)
    ensures -1 <= i < list.Length
    ensures i == -1 <==> x !in list[..]
    ensures 0 <= i ==> list[i] == x && forall j :: 0 <= j < i ==> list[j] != x
  {
    i := 0;
    while i < list.Length
      invariant 0 <= i <= list.Length
      invariant forall j :: 0 <= j < i ==> list[j] != x
    {
      if list[i] == x {
        return;
      }
      i := i + 1;
    }
    i := -1;
  }

  /** Lines 99-103: both positions are looked up first, then the host line is overwritten and then the
      organization line. A missing host marker throws before anything is written; a missing
      organization marker throws after the host line has been written. */
  method OverwriteMarkers(fileContents: array<string>, hostLine: string, orgLine: string) returns (ok: bool)
    modifies fileContents
    ensures ok <==> HostMarker in old(fileContents[..]) && OrganizationMarker in old(fileContents[..])
    ensures ok ==> fileContents[..] == Patched(old(fileContents[..]), hostLine, orgLine)
    ensures !ok && HostMarker in old(fileContents[..]) ==>
              fileContents[..] == old(fileContents[..])[FirstIndex(old(fileContents[..]), HostMarker) := hostLine]
    ensures !ok && HostMarker !in old(fileContents[..]) ==> fileContents[..] == old(fileContents[..])
  {
    var hostIndex := IndexOf(fileContents, HostMarker);
    var orgIndex := IndexOf(fileContents, OrganizationMarker);
    if hostIndex < 0 {
      return false;
    }
    fileContents[hostIndex] := hostLine;
    if orgIndex < 0 {
      return false;
    }
    fileContents[orgIndex] := orgLine;
    ok := true;
  }

  /** `GetBashInstaller` with the file's lines given: copy them into a list, overwrite the markers,
      join. */
  method GetBashInstaller(lines: seq<string>, redirectToHttps: bool, request: Request, organizationId: Option<string>)
    returns (r: Result<string>)
    ensures r == RewriteScript(lines, redirectToHttps, request, organizationId)
  {
    var scheme := SchemeFor(redirectToHttps, request);
    var fileContents := new string[|lines|](k requires 0 <= k < |lines| => lines[k]);
    assert fileContents[..] == lines;
    var ok := OverwriteMarkers(fileContents, HostLine(scheme, request.host), OrganizationLine(organizationId));
    if !ok {
      return Fail(MarkerMissing);
    }
    r := Ok(Join(fileContents[..]));
  }
}
