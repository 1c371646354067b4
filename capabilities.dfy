/** `XmlDecodeUtil.getCapabilitiesUrl`: reads the service addresses of a GetCapabilities
    response into the device record. */
module Capabilities {
  import opened Base
  import opened XmlPull
  import opened Beans

  /** The capability elements whose `XAddr` child is read. */
  const ServiceTags: set<string> := {"Media", "PTZ", "Events", "Analytics", "Imaging"}

  /** The device field the `XAddr` of the capability `service` is read into. */
  function UrlOf(d: DeviceState, service: string): Option<string>
    requires service in ServiceTags
  {
    if service == "Media" then d.mediaUrl
    else if service == "PTZ" then d.ptzUrl
    else if service == "Events" then d.eventUrl
    else if service == "Analytics" then d.analyticsUrl
    else d.imageUrl
  }

  function WithUrl(d: DeviceState, service: string, v: string): (r: DeviceState)
    requires service in ServiceTags
    ensures UrlOf(r, service) == Some(v)
    ensures forall other :: other in ServiceTags && other != service ==> UrlOf(r, other) == UrlOf(d, other)
  {
    if service == "Media" then d.(mediaUrl := Some(v))
    else if service == "PTZ" then d.(ptzUrl := Some(v))
    else if service == "Events" then d.(eventUrl := Some(v))
    else if service == "Analytics" then d.(analyticsUrl := Some(v))
    else d.(imageUrl := Some(v))
  }

  /** The device with the five service addresses put back to those of `d`. */
  function WithUrlsOf(s: DeviceState, d: DeviceState): DeviceState {
    s.(mediaUrl := d.mediaUrl, ptzUrl := d.ptzUrl, eventUrl := d.eventUrl,
       analyticsUrl := d.analyticsUrl, imageUrl := d.imageUrl)
  }

  /** A `service` START_TAG at `k` whose next tag (`nextTag()`) is an `XAddr` START_TAG. */
  predicate XAddrSlot(evs: seq<Event>, k: nat, service: string) {
    StartAt(evs, k, service) && NextTag(evs, k).Ok? && StartAt(evs, NextTag(evs, k).value, "XAddr")
  }

  /** One turn of the loop with the cursor at `i`. On a capability element the cursor moves to
      its next tag, which is read when it is `XAddr` and otherwise not looked at again. */
  function CapsStep(evs: seq<Event>, i: nat, d: DeviceState): (r: Step<DeviceState>)
    requires i < |evs|
    ensures r.Next? ==> i < r.next <= |evs|
  {
    match evs[i]
    case Broken => Fail(d, XmlPull)
    case StartTag(name, _) =>
      if name in ServiceTags then
        match NextTag(evs, i)
        case Err(e) => Fail(d, e)
        case Ok(j) =>
          if NameAt(evs, j) == Some("XAddr") then
            match NextText(evs, j)
            case Err(e) => Fail(d, e)
            case Ok((t, k)) => Next(WithUrl(d, name, t), k + 1)
          else Next(d, j + 1)
      else Next(d, i + 1)
    case _ => Next(d, i + 1)
  }

  function RunCaps(evs: seq<Event>, i: nat, d: DeviceState): Parsed<DeviceState>
    requires i <= |evs|
    decreases |evs| - i
  {
    if i == |evs| then Parsed(d, None)
    else
      match CapsStep(evs, i, d)
      case Fail(d', e) => Parsed(d', Some(e))
      case Next(d', j) => RunCaps(evs, j, d')
  }

  /** The `when (tagName)` that stores the `XAddr` text in the field of its capability. */
  method SetServiceUrl(device: OnvifDevice, name: string, text: string)
    requires name in ServiceTags
    modifies device
    ensures device.State() == WithUrl(old(device.State()), name, text)
  {
    if name == "Media" {
      device.mediaUrl := Some(text);
    } else if name == "PTZ" {
      device.ptzUrl := Some(text);
    } else if name == "Events" {
      device.eventUrl := Some(text);
    } else if name == "Analytics" {
      device.analyticsUrl := Some(text);
    } else {
      device.imageUrl := Some(text);
    }
  }

  /** `getCapabilitiesUrl(xml, device)`: writes the device in place; an exception leaves the
      writes made before it. */
  method GetCapabilitiesUrl(evs: seq<Event>, device: OnvifDevice) returns (failure: Option<Error>)
    modifies device
    ensures Parsed(device.State(), failure) == RunCaps(evs, 0, old(device.State()))
  {
    var i := 0;
    while i < |evs|
      invariant i <= |evs|
      invariant RunCaps(evs, i, device.State()) == RunCaps(evs, 0, old(device.State()))
      decreases |evs| - i
    {
      match evs[i]
      case Broken =>
        return Some(XmlPull);
      case StartTag(name, _) =>
        if name in ServiceTags {
          var tag := NextTag(evs, i);
          if tag.Err? {
            return Some(tag.error);
          }
          i := tag.value;
          if NameAt(evs, i) == Some("XAddr") {
            var t := NextText(evs, i);
            if t.Err? {
              return Some(t.error);
            }
            SetServiceUrl(device, name, t.value.0);
            i := t.value.1;
          }
          i := i + 1;
        } else {
          i := i + 1;
        }
      case EndTag(_) =>
        i := i + 1;
      case Text(_) =>
        i := i + 1;
    }
    failure := None;
  }

  /** No device field other than the five service addresses changes. */
  lemma {:induction false} CapsFrame(evs: seq<Event>, i: nat, d: DeviceState)
    requires i <= |evs|
    ensures WithUrlsOf(RunCaps(evs, i, d).state, d) == d
    decreases |evs| - i
  {
    if i < |evs| {
      match CapsStep(evs, i, d)
      case Fail(_, _) =>
      case Next(d', j) =>
        CapsFrame(evs, j, d');
    }
  }

  /** A service address changes only by taking the text of an `XAddr` that is the next tag after
      a start tag of that service. */
  lemma {:induction false} CapsOnlyFromXAddr(evs: seq<Event>, i: nat, d: DeviceState, service: string)
    requires i <= |evs| && service in ServiceTags
    ensures var u := UrlOf(RunCaps(evs, i, d).state, service);
      u == UrlOf(d, service) ||
      exists k :: i <= k < |evs| && XAddrSlot(evs, k, service) && u == Some(TextOf(evs, NextTag(evs, k).value))
    decreases |evs| - i
  {
    if i < |evs| {
      match CapsStep(evs, i, d)
      case Fail(_, _) =>
      case Next(d', j) =>
        CapsOnlyFromXAddr(evs, j, d', service);
        if evs[i].StartTag? && evs[i].name == service && UrlOf(d', service) != UrlOf(d, service) {
          assert XAddrSlot(evs, i, service);
        }
    }
  }

  /** The loop started at cursor `i` with the device `d` has the cursor at `k` at the start of
      some turn. A capability element's `nextTag()` moves the cursor past the tag it lands on,
      so the loop does not visit every index. */
  predicate Visits(evs: seq<Event>, i: nat, d: DeviceState, k: nat)
    requires i <= |evs|
    decreases |evs| - i
  {
    i == k ||
    (i < k && i < |evs| && CapsStep(evs, i, d).Next? &&
     Visits(evs, CapsStep(evs, i, d).next, CapsStep(evs, i, d).state, k))
  }

  /** A run from the slot itself: a start tag of `service` whose next tag is `XAddr`, with no
      later such pair for that service, ends (when it ends normally) with that `XAddr`'s text. */
  lemma CapsTakesLastXAddr(evs: seq<Event>, k: nat, d: DeviceState, service: string)
    requires service in ServiceTags && XAddrSlot(evs, k, service)
    requires forall m :: k < m < |evs| ==> !XAddrSlot(evs, m, service)
    requires RunCaps(evs, k, d).failure.None?
    ensures UrlOf(RunCaps(evs, k, d).state, service) == Some(TextOf(evs, NextTag(evs, k).value))
  {
    match CapsStep(evs, k, d)
    case Fail(_, _) =>
    case Next(d', j) =>
      CapsOnlyFromXAddr(evs, j, d', service);
  }

  /** The whole parse: when the loop visits the last `XAddr` slot of `service` and ends
      normally, the service's address is that slot's text. */
  lemma {:induction false} RunTakesLastXAddr(evs: seq<Event>, i: nat, d: DeviceState, k: nat, service: string)
    requires i <= |evs| && service in ServiceTags && XAddrSlot(evs, k, service)
    requires forall m :: k < m < |evs| ==> !XAddrSlot(evs, m, service)
    requires Visits(evs, i, d, k) && RunCaps(evs, i, d).failure.None?
    ensures UrlOf(RunCaps(evs, i, d).state, service) == Some(TextOf(evs, NextTag(evs, k).value))
    decreases |evs| - i
  {
    if i == k {
      CapsTakesLastXAddr(evs, k, d, service);
    } else {
      var step := CapsStep(evs, i, d);
      RunTakesLastXAddr(evs, step.next, step.state, k, service);
    }
  }

  /** A slot the loop skips: `nextTag()` after `Media` lands on `PTZ`, which is not `XAddr`,
      and the loop resumes after it, so the `PTZ` address inside is never read. */
  lemma NestedSlotSkipped(evs: seq<Event>, d: DeviceState)
    requires evs == [StartTag("Media", []), StartTag("PTZ", []), StartTag("XAddr", []), Text("a"),
                     EndTag("XAddr"), EndTag("PTZ"), EndTag("Media")]
    ensures XAddrSlot(evs, 1, "PTZ") && !Visits(evs, 0, d, 1)
    ensures RunCaps(evs, 0, d) == Parsed(d, None)
  {
    assert CapsStep(evs, 0, d) == Next(d, 2);
    assert "XAddr" !in ServiceTags;
    assert RunCaps(evs, 5, d) == RunCaps(evs, 6, d) == RunCaps(evs, 7, d) == Parsed(d, None);
    assert RunCaps(evs, 2, d) == RunCaps(evs, 3, d) == RunCaps(evs, 4, d) == RunCaps(evs, 5, d);
  }
}
