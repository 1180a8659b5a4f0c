/** Device identification from request headers
    (common/services/device.service.ts).

    Anonymous users are keyed by a device id the client sends in the
    `X-Device-Id` header and a platform it announces in
    `X-Device-Platform`. Header names reach the service lower-cased, so a
    request is modelled by its lower-cased header map.
 */
module Device {
  import opened Wrappers

  datatype Platform = Web | Mobile

  /** `DeviceInfo`: the id exactly as sent, with the detected platform. */
  datatype DeviceInfo = DeviceInfo(deviceId: string, platform: Platform)

  /** The request headers by lower-cased name. */
  datatype Request = Request(headers: map<string, string>)

  const IdHeader := "x-device-id"
  const PlatformHeader := "x-device-platform"

  const MobileIdRequired := "Mobile device ID is required"
  const WebIdRequired := "Device ID is required for anonymous users"

  /** The header's value, or `undefined` when it was not sent. */
  function Header(req: Request, name: string): Option<string> {
    if name in req.headers then Some(req.headers[name]) else None
  }

  /** `detectPlatform`: a strict comparison with 'mobile'. */
  function DetectPlatform(req: Request): (p: Platform)
    ensures p == Mobile <==> Header(req, PlatformHeader) == Some("mobile")
  {
    if Header(req, PlatformHeader) == Some("mobile") then Mobile else Web
  }

  /** `extractDeviceInfo`. Both branches demand a truthy id; they differ
      only in the error text and the platform they report. */
  function ExtractDeviceInfo(req: Request): (r: Result<DeviceInfo>)
    ensures var id := Header(req, IdHeader);
      && (r.Ok? <==> id.Some? && |id.value| > 0)
      && (r.Ok? ==> r.value == DeviceInfo(id.value, DetectPlatform(req)))
      && (r.Err? ==> r.error == Failure(if DetectPlatform(req) == Mobile then MobileIdRequired else WebIdRequired))
  {
    var platform := DetectPlatform(req);
    var id := Header(req, IdHeader);
    if platform == Mobile then
      if id.None? || id.value == "" then Err(Failure(MobileIdRequired))
      else Ok(DeviceInfo(id.value, Mobile))
    else
      if id.None? || id.value == "" then Err(Failure(WebIdRequired))
      else Ok(DeviceInfo(id.value, Web))
  }

  /** The headers a client sends to announce a device: the id, and the
      platform header only for a mobile app. */
  function HeadersFor(info: DeviceInfo): (req: Request)
    ensures Header(req, IdHeader) == Some(info.deviceId)
  {
    var ids := map[IdHeader := info.deviceId];
    if info.platform == Mobile then Request(ids[PlatformHeader := "mobile"]) else Request(ids)
  }

  /** Every device with a non-empty id is read back from the headers its
      client sends. */
  lemma ExtractHeadersFor(info: DeviceInfo)
    requires |info.deviceId| > 0
    ensures ExtractDeviceInfo(HeadersFor(info)) == Ok(info)
  {
    var id, platform := IdHeader, PlatformHeader;
    assert |id| != |platform|;
  }

  /** Only the exact lower-case word selects the mobile branch: 'Mobile',
      'MOBILE' or any other text is the web platform. */
  lemma PlatformIsCaseSensitive(req: Request, value: string)
    requires Header(req, PlatformHeader) == Some(value)
    requires value != "mobile"
    ensures DetectPlatform(req) == Web
  {
  }

  /** A missing or empty id is refused whatever the platform, and the
      message says which platform asked. */
  lemma MissingIdRefused(req: Request)
    requires Header(req, IdHeader) in {None, Some("")}
    ensures ExtractDeviceInfo(req).Err?
    ensures Header(req, PlatformHeader) == Some("mobile") ==> ExtractDeviceInfo(req) == Err(Failure(MobileIdRequired))
    ensures Header(req, PlatformHeader) != Some("mobile") ==> ExtractDeviceInfo(req) == Err(Failure(WebIdRequired))
  {
  }
}
