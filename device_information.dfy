/** `XmlDecodeUtil.getDeviceInformation`: reads a GetDeviceInformation response into the
    device record, one field per element name. */
module DeviceInformation {
  import opened Base
  import opened XmlPull
  import opened Beans

  /** The element names the parser reads. */
  const InfoTags: set<string> := {"FirmwareVersion", "SerialNumber", "Manufacturer", "Model"}

  /** The device field the element `name` is read into. */
  function InfoOf(d: DeviceState, name: string): Option<string>
    requires name in InfoTags
  {
    if name == "FirmwareVersion" then d.firmwareVersion
    else if name == "SerialNumber" then d.serialNumber
    else if name == "Manufacturer" then d.manufacturer
    else d.model
  }

  /** Stores `v` in the field the element `name` is read into. */
  function WithInfo(d: DeviceState, name: string, v: string): (r: DeviceState)
    requires name in InfoTags
    ensures InfoOf(r, name) == Some(v)
    ensures forall other :: other in InfoTags && other != name ==> InfoOf(r, other) == InfoOf(d, other)
    ensures r.(firmwareVersion := d.firmwareVersion, serialNumber := d.serialNumber,
               manufacturer := d.manufacturer, model := d.model) == d
  {
    if name == "FirmwareVersion" then d.(firmwareVersion := Some(v))
    else if name == "SerialNumber" then d.(serialNumber := Some(v))
    else if name == "Manufacturer" then d.(manufacturer := Some(v))
    else d.(model := Some(v))
  }

  /** One turn of the loop, with the cursor at `i`. */
  function InfoStep(evs: seq<Event>, i: nat, d: DeviceState): (r: Step<DeviceState>)
    requires i < |evs|
    ensures r.Next? ==> i < r.next <= |evs|
  {
    match evs[i]
    case Broken => Fail(d, XmlPull)
    case StartTag(name, _) =>
      if name in InfoTags then
        match NextText(evs, i)
        case Err(e) => Fail(d, e)
        case Ok((t, j)) => Next(WithInfo(d, name, t), j + 1)
      else Next(d, i + 1)
    case _ => Next(d, i + 1)
  }

  /** The loop from the cursor at `i` to END_DOCUMENT or the first exception. */
  function RunInfo(evs: seq<Event>, i: nat, d: DeviceState): Parsed<DeviceState>
    requires i <= |evs|
    decreases |evs| - i
  {
    if i == |evs| then Parsed(d, None)
    else
      match InfoStep(evs, i, d)
      case Fail(d', e) => Parsed(d', Some(e))
      case Next(d', j) => RunInfo(evs, j, d')
  }

  /** `getDeviceInformation(xml, device)`: writes the device in place; an exception leaves the
      writes made before it. */
  method GetDeviceInformation(evs: seq<Event>, device: OnvifDevice) returns (failure: Option<Error>)
    modifies device
    ensures Parsed(device.State(), failure) == RunInfo(evs, 0, old(device.State()))
  {
    var i := 0;
    while i < |evs|
      invariant i <= |evs|
      invariant RunInfo(evs, i, device.State()) == RunInfo(evs, 0, old(device.State()))
      decreases |evs| - i
    {
      match evs[i]
      case Broken =>
        return Some(XmlPull);
      case StartTag(name, _) =>
        if name in InfoTags {
          var t := NextText(evs, i);
          if t.Err? {
            return Some(t.error);
          }
          var text := t.value.0;
          if name == "FirmwareVersion" {
            device.firmwareVersion := Some(text);
          } else if name == "SerialNumber" {
            device.serialNumber := Some(text);
          } else if name == "Manufacturer" {
            device.manufacturer := Some(text);
          } else {
            device.model := Some(text);
          }
          i := t.value.1 + 1;
        } else {
          i := i + 1;
        }
      case EndTag(_) =>
        i := i + 1;
      case Text(_) =>
        i := i + 1;
    }
    failure := None;
  }

  /** Only firmwareVersion, serialNumber, manufacturer and model are ever written, whether the
      parse ends normally or by an exception. */
  lemma {:induction false} InfoFrame(evs: seq<Event>, i: nat, d: DeviceState)
    requires i <= |evs|
    ensures var s := RunInfo(evs, i, d).state;
      s.(firmwareVersion := d.firmwareVersion, serialNumber := d.serialNumber,
         manufacturer := d.manufacturer, model := d.model) == d
    decreases |evs| - i
  {
    if i < |evs| {
      match InfoStep(evs, i, d)
      case Fail(_, _) =>
      case Next(d', j) =>
        InfoFrame(evs, j, d');
    }
  }

  /** The parse ends without an exception exactly when the tokenizer never fails and every
      element it reads holds plain text. */
  lemma {:induction false} InfoSucceedsIff(evs: seq<Event>, i: nat, d: DeviceState)
    requires i <= |evs|
    ensures RunInfo(evs, i, d).failure.None? <==> TextsReadable(evs, i, InfoTags)
    decreases |evs| - i
  {
    if i < |evs| {
      match InfoStep(evs, i, d)
      case Fail(_, _) =>
      case Next(d', j) =>
        InfoSucceedsIff(evs, j, d');
        if evs[i].StartTag? && evs[i].name in InfoTags {
          TextsReadableSkip(evs, i, InfoTags);
        }
    }
  }

  /** After a parse that ends normally, each of the four fields holds the text of the last
      element of its name, or what it held before when there is none. */
  lemma {:induction false} InfoLastWins(evs: seq<Event>, i: nat, d: DeviceState, name: string)
    requires i <= |evs| && name in InfoTags
    requires RunInfo(evs, i, d).failure.None?
    ensures var k := LastStart(evs, name, i);
      InfoOf(RunInfo(evs, i, d).state, name) == if k == -1 then InfoOf(d, name) else Some(TextOf(evs, k))
    decreases |evs| - i
  {
    if i < |evs| {
      match InfoStep(evs, i, d)
      case Fail(_, _) =>
      case Next(d', j) =>
        InfoLastWins(evs, j, d', name);
        if evs[i].StartTag? && evs[i].name in InfoTags {
          NextTextSkip(evs, i, name);
        }
    }
  }
}
