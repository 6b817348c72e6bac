/** Screenshot agent (backend/app/agents/screenshot_agent.py): the file names
    derived from a URL, the user agent per device, and the result shapes of
    `capture` and `capture_with_dimensions`. The browser work is left out;
    whether it raised is an input. */
module Screenshot {
  import opened Wrappers
  import Text

  // ---------------------------------------------------------------------------
  // File names
  // ---------------------------------------------------------------------------

  /** The URL without its scheme and with every "/" turned into "_". */
  function Sanitize(url: string): string {
    Text.Replace(Text.Replace(Text.Replace(url, "https://", ""), "http://", ""), "/", "_")
  }

  /** `safe_url`: the sanitised URL cut to 50 characters; it holds no "/" and
      is whole when the sanitised text is short enough. */
  function SafeUrl(url: string): (r: string)
    ensures |r| <= 50
    ensures '/' !in r
    ensures r <= Sanitize(url)
    ensures |Sanitize(url)| <= 50 ==> r == Sanitize(url)
  {
    var s := Sanitize(url);
    Text.ReplaceCharRemoves(Text.Replace(Text.Replace(url, "https://", ""), "http://", ""), '/', '_');
    var r := Text.Take(s, 50);
    assert forall k :: 0 <= k < |r| ==> r[k] == s[k];
    r
  }

  /** `"{device_type}_{safe_url}.png"`: a name within the device's own
      directory entry, at most 55 characters longer than the device name. */
  function ViewportFile(device: string, url: string): (r: string)
    ensures device + "_" <= r
    ensures |r| <= |device| + 55
    ensures '/' !in device ==> '/' !in r
  {
    device + "_" + SafeUrl(url) + ".png"
  }

  /** `"fullpage_{safe_url}.png"`. */
  function FullPageFile(url: string): (r: string)
    ensures "fullpage_" <= r
    ensures '/' !in r
    ensures |r| <= 63
  {
    "fullpage_" + SafeUrl(url) + ".png"
  }

  /** `screenshots_dir / job_id / name` (path normalisation left out). */
  function JobPath(dir: string, jobId: string, name: string): string {
    dir + "/" + jobId + "/" + name
  }

  // ---------------------------------------------------------------------------
  // User agents (`_get_user_agent`)
  // ---------------------------------------------------------------------------

  const DesktopAgent: string := "Mozilla/5.0 (Windows NT 10.0; Win64; x64) AppleWebKit/537.36 (KHTML, like Gecko) Chrome/120.0.0.0 Safari/537.36"
  const TabletAgent: string := "Mozilla/5.0 (iPad; CPU OS 16_0 like Mac OS X) AppleWebKit/605.1.15 (KHTML, like Gecko) Version/16.0 Mobile/15E148 Safari/604.1"
  const MobileAgent: string := "Mozilla/5.0 (iPhone; CPU iPhone OS 16_0 like Mac OS X) AppleWebKit/605.1.15 (KHTML, like Gecko) Version/16.0 Mobile/15E148 Safari/604.1"

  const Agents: map<string, string> :=
    map["desktop" := DesktopAgent, "tablet" := TabletAgent, "mobile" := MobileAgent]

  /** The agent string for a device, the desktop one for any other name. */
  function UserAgent(device: string): (r: string)
    ensures device == "tablet" ==> r == TabletAgent
    ensures device == "mobile" ==> r == MobileAgent
    ensures device != "tablet" && device != "mobile" ==> r == DesktopAgent
  {
    if device in Agents then Agents[device] else Agents["desktop"]
  }

  // ---------------------------------------------------------------------------
  // `capture`
  // ---------------------------------------------------------------------------

  /** The dictionary `capture` and `capture_with_dimensions` return; the
      metadata (`job_id`, `directory`) is present only on a successful
      `capture`. */
  datatype CaptureResult = CaptureResult(
    success: bool,
    url: string,
    screenshots: map<string, string>,
    jobId: Option<string>,
    directory: Option<string>,
    error: Option<string>)

  const Devices: set<string> := {"desktop", "tablet", "mobile", "fullpage"}

  /** `capture`: `failure` is the exception the browser work raised, if any.
      On success there is exactly one path per device and the full page, each
      inside the job's directory; on failure no paths at all. */
  function Capture(url: string, jobId: string, dir: string, failure: Option<string>): (r: CaptureResult)
    ensures r.url == url
    ensures r.success <==> failure.None?
    ensures r.success ==> (r.screenshots.Keys == Devices && r.directory == Some(dir + "/" + jobId) &&
                           r.jobId == Some(jobId) &&
                           (forall d :: d in r.screenshots ==> dir + "/" + jobId + "/" <= r.screenshots[d]) &&
                           r.screenshots["fullpage"] == JobPath(dir, jobId, FullPageFile(url)) &&
                           (forall d :: d in r.screenshots && d != "fullpage" ==>
                              r.screenshots[d] == JobPath(dir, jobId, ViewportFile(d, url))))
    ensures !r.success ==> r.screenshots == map[] && r.error == failure
  {
    match failure
    case Some(e) => CaptureResult(false, url, map[], None, None, Some(e))
    case None =>
      var shots := map[
        "desktop" := JobPath(dir, jobId, ViewportFile("desktop", url)),
        "tablet" := JobPath(dir, jobId, ViewportFile("tablet", url)),
        "mobile" := JobPath(dir, jobId, ViewportFile("mobile", url)),
        "fullpage" := JobPath(dir, jobId, FullPageFile(url))];
      CaptureResult(true, url, shots, Some(jobId), Some(dir + "/" + jobId), None)
  }

  // ---------------------------------------------------------------------------
  // `capture_with_dimensions`
  // ---------------------------------------------------------------------------

  /** One requested viewport. */
  datatype Dimension = Dimension(name: string, width: int, height: int)

  /** `capture_with_dimensions`: `launchError` is what the browser launch
      raised, and `shotErrors[i]` what the capture of `dims[i]` raised, if
      anything. The first exception ends the run with no paths; otherwise there
      is one key per distinct requested name (a repeated name keeps the last
      capture), each mapped to that name's path. */
  method CaptureWithDimensions(url: string, jobId: string, dir: string, dims: seq<Dimension>,
                               launchError: Option<string>, shotErrors: seq<Option<string>>)
    returns (r: CaptureResult)
    requires |shotErrors| == |dims|
    ensures r.url == url && r.jobId.None? && r.directory.None?
    ensures r.success <==> launchError.None? && forall i :: 0 <= i < |dims| ==> shotErrors[i].None?
    ensures r.success ==> (r.screenshots.Keys == (set i | 0 <= i < |dims| :: dims[i].name) &&
                           forall n :: n in r.screenshots ==> r.screenshots[n] == JobPath(dir, jobId, ViewportFile(n, url)))
    ensures !r.success ==> r.screenshots == map[] && r.error.Some?
    ensures launchError.Some? ==> r.error == launchError
    ensures launchError.None? && !r.success ==>
      exists i :: 0 <= i < |dims| && r.error == shotErrors[i] && forall j :: 0 <= j < i ==> shotErrors[j].None?
  {
    if launchError.Some? {
      return CaptureResult(false, url, map[], None, None, launchError);
    }
    var screenshots: map<string, string> := map[];
    var i := 0;
    while i < |dims|
      invariant 0 <= i <= |dims|
      invariant forall j :: 0 <= j < i ==> shotErrors[j].None?
      invariant screenshots.Keys == set j | 0 <= j < i :: dims[j].name
      invariant forall n :: n in screenshots ==> screenshots[n] == JobPath(dir, jobId, ViewportFile(n, url))
    {
      var name := dims[i].name;
      if shotErrors[i].Some? {
        return CaptureResult(false, url, map[], None, None, shotErrors[i]);
      }
      screenshots := screenshots[name := JobPath(dir, jobId, ViewportFile(name, url))];
      i := i + 1;
    }
    return CaptureResult(true, url, screenshots, None, None, None);
  }
}
