/** The records the client fills in: media profiles and their configurations, the network
    interface, and the device record itself. MediaProfile and NetworkInterface are plain
    values; OnvifDevice is updated in place, so it is a class. */
module Beans {
  import opened Base

  datatype VideoEncoderConfiguration = VideoEncoderConfiguration(
    token: Option<string>, encoding: Option<string>, width: int, height: int, frameRate: int)

  datatype VideoSourceConfiguration = VideoSourceConfiguration(
    videoSourceConfigurationToken: Option<string>, name: Option<string>, userCount: Option<string>,
    videoSourceToken: Option<string>, width: int, height: int)

  datatype AudioEncoderConfiguration = AudioEncoderConfiguration(
    tokenName: Option<string>, encoding: Option<string>, audioSourceToken: Option<string>,
    sampleRate: int, bitrate: int)

  datatype AudioSourceConfiguration = AudioSourceConfiguration(
    audioSourceConfigurationToken: Option<string>, name: Option<string>, userCount: Option<string>,
    audioSourceToken: Option<string>, width: int, height: int)

  datatype PTZConfiguration = PTZConfiguration(token: Option<string>, nodeToken: Option<string>)

  datatype MediaProfile = MediaProfile(
    token: Option<string>,
    name: Option<string>,
    videoEncode: VideoEncoderConfiguration,
    videoSource: VideoSourceConfiguration,
    audioEncode: AudioEncoderConfiguration,
    audioSource: AudioSourceConfiguration,
    ptzConfiguration: PTZConfiguration,
    rtspUrl: Option<string>)

  const NewVideoEncoder := VideoEncoderConfiguration(None, None, 0, 0, 0)
  const NewVideoSource := VideoSourceConfiguration(None, None, None, None, 0, 0)
  const NewAudioEncoder := AudioEncoderConfiguration(None, None, None, 0, 0)
  const NewAudioSource := AudioSourceConfiguration(None, None, None, None, 0, 0)
  const NewProfile := MediaProfile(None, None, NewVideoEncoder, NewVideoSource, NewAudioEncoder,
                                   NewAudioSource, PTZConfiguration(None, None), None)

  datatype NetworkInterface = NetworkInterface(
    interfaceToken: Option<string>, mtu: Option<string>, ipvtPrefixLength: Option<string>)

  const NewNetworkInterface := NetworkInterface(None, None, None)

  /** A snapshot of every field of an OnvifDevice. */
  datatype DeviceState = DeviceState(
    userName: string,
    psw: string,
    ipAddress: Option<string>,
    uuid: Option<string>,
    firmwareVersion: Option<string>,
    manufacturer: Option<string>,
    serialNumber: Option<string>,
    model: Option<string>,
    mediaUrl: Option<string>,
    ptzUrl: Option<string>,
    imageUrl: Option<string>,
    eventUrl: Option<string>,
    analyticsUrl: Option<string>,
    profiles: seq<MediaProfile>,
    networkInterface: Option<NetworkInterface>,
    serviceUrl: Option<string>)

  /** A device record as the no-argument constructor makes it. */
  const NewDevice := DeviceState("", "", None, None, None, None, None, None, None, None, None,
                                 None, None, [], None, None)

  /** The address the serviceUrl setter derives: `substringAfter("//").substringBefore("/on")`. */
  function AddressOf(url: Option<string>): Option<string> {
    match url
    case None => None
    case Some(v) => Some(SubstringBefore(SubstringAfter(v, "//"), "/on"))
  }

  /** Where the derived address starts in the URL: just after the first "//", or at 0. */
  function HostStart(v: string): nat
    ensures HostStart(v) <= |v|
  {
    var k := IndexOf(v, "//", 0);
    if k == -1 then 0 else k + 2
  }

  /** The derived address is the stretch of the URL that starts after the first "//" (or at the
      start when there is none) and runs up to the first "/on" after it, or to the end; it never
      holds "/on" itself, so a port after the host stays in it. */
  lemma AddressIsHostPart(v: string)
    ensures var a := AddressOf(Some(v)).value; var h := HostStart(v);
      h + |a| <= |v| && a == v[h..h + |a|] &&
      (h + |a| == |v| || IsAt(v, "/on", h + |a|)) &&
      forall k :: !IsAt(a, "/on", k)
  {
    var a := AddressOf(Some(v)).value;
    var h := HostStart(v);
    var rest := SubstringAfter(v, "//");
    assert rest == v[h..];
    BeforeFirst(rest, "/on");
    assert a <= rest;
    if h + |a| < |v| {
      assert IsAt(rest, "/on", |a|);
      assert rest[|a|..|a| + 3] == v[h + |a|..h + |a| + 3];
    }
  }

  /** For an `http://host/on...` URL whose host part holds no '/', the derived address is
      exactly the host part, port included. */
  lemma HttpAddress(host: string, path: string)
    requires forall m :: 0 <= m < |host| ==> host[m] != '/'
    requires |path| >= 3 && path[..3] == "/on"
    ensures AddressOf(Some("http://" + host + path)) == Some(host)
  {
    var v := "http://" + host + path;
    assert v[5..7] == "//";
    assert forall m :: 0 <= m < 5 ==> v[m] == "http:"[m];
    FirstAt(v, "//", 5);
    var rest := v[7..];
    assert rest == host + path;
    assert rest[|host|..|host| + 3] == path[..3];
    FirstAt(rest, "/on", |host|);
  }

  /** The example from the discovery documentation: the device-service URL gives the bare IP. */
  lemma AddressExample(url: string)
    requires url == "http://10.0.0.5/onvif/device_service"
    ensures AddressOf(Some(url)) == Some("10.0.0.5")
  {
    var path := "/onvif/device_service";
    assert url == "http://" + "10.0.0.5" + path;
    HttpAddress("10.0.0.5", path);
  }

  /** With no "//" the whole URL is searched for "/on"; with no "/on" either, the whole URL is kept. */
  lemma AddressWithoutSeparators(v: string)
    requires forall k :: !IsAt(v, "//", k) && !IsAt(v, "/on", k)
    ensures AddressOf(Some(v)) == Some(v)
  {
  }

  /** Helper for concrete strings: `p` first occurs at `k` when it is there and no earlier
      character starts it. */
  lemma FirstAt(s: string, p: string, k: nat)
    requires 0 < |p| && k + |p| <= |s| && s[k..k + |p|] == p
    requires forall m :: 0 <= m < k ==> s[m] != p[0]
    ensures IndexOf(s, p, 0) == k
  {
    assert IsAt(s, p, k);
    forall m | 0 <= m < k ensures !IsAt(s, p, m) {
      assert s[m..m + |p|][0] == s[m];
    }
  }

  /** The device record. `imageSetting` (floating-point image settings) is not modelled. */
  class OnvifDevice {
    var userName: string
    var psw: string
    var ipAddress: Option<string>
    var uuid: Option<string>
    var firmwareVersion: Option<string>
    var manufacturer: Option<string>
    var serialNumber: Option<string>
    var model: Option<string>
    var mediaUrl: Option<string>
    var ptzUrl: Option<string>
    var imageUrl: Option<string>
    var eventUrl: Option<string>
    var analyticsUrl: Option<string>
    var profiles: seq<MediaProfile>
    var networkInterface: Option<NetworkInterface>
    var serviceUrl: Option<string>

    function State(): DeviceState
      reads this
    {
      DeviceState(userName, psw, ipAddress, uuid, firmwareVersion, manufacturer, serialNumber, model,
                  mediaUrl, ptzUrl, imageUrl, eventUrl, analyticsUrl, profiles, networkInterface, serviceUrl)
    }

    /** The address is always the one derived from the service URL. */
    ghost predicate Valid()
      reads this
    {
      ipAddress == AddressOf(serviceUrl)
    }

    /** `OnvifDevice()`: empty user name and password, no profiles, every other field null. */
    constructor ()
      ensures State() == NewDevice && Valid()
    {
      userName, psw := "", "";
      ipAddress, uuid := None, None;
      firmwareVersion, manufacturer, serialNumber, model := None, None, None, None;
      mediaUrl, ptzUrl, imageUrl, eventUrl, analyticsUrl := None, None, None, None, None;
      profiles := [];
      networkInterface := None;
      serviceUrl := None;
    }

    /** The `serviceUrl` setter: stores the URL and re-derives the address (null for null). */
    method SetServiceUrl(value: Option<string>)
      modifies this
      ensures State() == old(State()).(serviceUrl := value, ipAddress := AddressOf(value))
      ensures Valid()
      ensures value.None? ==> ipAddress.None?
    {
      serviceUrl := value;
      ipAddress := AddressOf(value);
    }

    /** `addProfiles`: clears the list and adds every given profile, in order; nothing else changes. */
    method AddProfiles(ps: seq<MediaProfile>)
      modifies this
      ensures State() == old(State()).(profiles := ps)
      ensures Valid() == old(Valid())
    {
      profiles := [];
      profiles := profiles + ps;
    }
  }
}
