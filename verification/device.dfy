/** The request context the engine reads: the parsed user agent (`req.useragent`),
    the raw `user-agent` header, the client IP and the geolocation lookup result,
    and `getDeviceInfo`. */
module Device {
  import opened Wrappers

  /** The flags and names of `express-useragent` the engine consults. */
  datatype UserAgent = UserAgent(
    isSmartTV: bool, isBot: bool, isMobileNative: bool, isMobile: bool, isTablet: bool,
    isAndroidTablet: bool, isiPad: bool, isiPhone: bool, isiPod: bool, isKindleFire: bool,
    isDesktop: bool, isWindows: bool, isMac: bool, isLinux: bool, isChromeOS: bool,
    isRaspberry: bool, os: string, browser: string)

  /** The result of `getLocationInfo`, taken as given. */
  datatype Location = Location(city: string, country: string, lat: real, lng: real)

  datatype Request = Request(
    ip: string,
    useragent: Option<UserAgent>,
    userAgentHeader: Option<string>,
    location: Location)

  datatype DeviceInfo = DeviceInfo(deviceType: string, os: string, browser: string, userAgent: string)

  const UNKNOWN := "unknown"

  /** Device labels in the order the flags are tested. */
  const DEVICE_LABELS: seq<string> := [
    "smart-tv", "bot", "mobile-native", "mobile", "tablet", "android-tablet", "ipad",
    "iphone", "ipod", "kindle-fire", "desktop", "windows", "mac", "linux", "chromeos",
    "raspberry-pi"]

  function Flags(ua: UserAgent): (f: seq<bool>)
    ensures |f| == |DEVICE_LABELS|
  {
    [ua.isSmartTV, ua.isBot, ua.isMobileNative, ua.isMobile, ua.isTablet, ua.isAndroidTablet,
     ua.isiPad, ua.isiPhone, ua.isiPod, ua.isKindleFire, ua.isDesktop, ua.isWindows, ua.isMac,
     ua.isLinux, ua.isChromeOS, ua.isRaspberry]
  }

  /** Reference definition: the label of the first flag set at or after position
      `from`, else "unknown". */
  function FirstSetLabel(flags: seq<bool>, labels: seq<string>, from: nat): (r: string)
    requires |flags| == |labels| && from <= |flags|
    ensures r == UNKNOWN || r in labels[from..]
    decreases |flags| - from
  {
    if from == |flags| then UNKNOWN
    else if flags[from] then labels[from]
    else FirstSetLabel(flags, labels, from + 1)
  }

  /** With labels that are never "unknown", the reference answers "unknown"
      exactly when no flag from `from` on is set. */
  lemma {:induction false} FirstSetLabelUnknown(flags: seq<bool>, labels: seq<string>, from: nat)
    requires |flags| == |labels| && from <= |flags|
    requires UNKNOWN !in labels
    ensures FirstSetLabel(flags, labels, from) == UNKNOWN <==> forall i :: from <= i < |flags| ==> !flags[i]
    decreases |flags| - from
  {
    if from < |flags| && !flags[from] {
      FirstSetLabelUnknown(flags, labels, from + 1);
    }
  }

  /** The chain of conditional expressions in `getDeviceInfo`, which tests the
      flags one after the other in the order of `DEVICE_LABELS`. */
  function DeviceType(ua: Option<UserAgent>): (r: string)
    ensures ua.None? ==> r == UNKNOWN
    ensures r == UNKNOWN || r in DEVICE_LABELS
  {
    match ua
    case None => UNKNOWN
    case Some(u) => FirstSetLabel(Flags(u), DEVICE_LABELS, 0)
  }

  /** `getDeviceInfo(req)`. */
  function GetDeviceInfo(req: Request): (r: DeviceInfo)
    ensures req.useragent.None? ==> r.deviceType == r.os == r.browser == UNKNOWN
    ensures req.useragent.Some? ==> r.os == req.useragent.value.os && r.browser == req.useragent.value.browser
    ensures r.userAgent == req.userAgentHeader.GetOr(UNKNOWN)
  {
    DeviceInfo(
      DeviceType(req.useragent),
      if req.useragent.Some? then req.useragent.value.os else UNKNOWN,
      if req.useragent.Some? then req.useragent.value.browser else UNKNOWN,
      req.userAgentHeader.GetOr(UNKNOWN))
  }

  /** The label of the first set flag wins, whatever flags follow it. */
  lemma {:induction false} FirstSetLabelIsFirst(flags: seq<bool>, labels: seq<string>, from: nat, i: nat)
    requires |flags| == |labels| && from <= i < |flags|
    requires flags[i] && forall j :: from <= j < i ==> !flags[j]
    ensures FirstSetLabel(flags, labels, from) == labels[i]
    decreases i - from
  {
    if from < i {
      FirstSetLabelIsFirst(flags, labels, from + 1, i);
    }
  }

  /** A user agent has device type "unknown" exactly when none of its flags is set. */
  lemma DeviceTypeUnknown(ua: UserAgent)
    ensures DeviceType(Some(ua)) == UNKNOWN <==> forall i :: 0 <= i < |Flags(ua)| ==> !Flags(ua)[i]
  {
    FirstSetLabelUnknown(Flags(ua), DEVICE_LABELS, 0);
  }

  /** A user agent flagged both mobile and iPhone (and none of smart-tv, bot,
      mobile-native) is classified "mobile": earlier tests shadow later ones. */
  lemma MobileBeforeIphone(ua: UserAgent)
    requires !ua.isSmartTV && !ua.isBot && !ua.isMobileNative && ua.isMobile && ua.isiPhone
    ensures DeviceType(Some(ua)) == "mobile"
  {
    FirstSetLabelIsFirst(Flags(ua), DEVICE_LABELS, 0, 3);
  }
}
