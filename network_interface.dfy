/** `XmlDecodeUtil.getNetworkInterface`: reads a GetNetworkInterfaces response into the
    device's network-interface record. */
module NetworkInterfaces {
  import opened Base
  import opened XmlPull
  import opened Beans

  /** The `tag` variable: which address block the parser believes it is in. */
  datatype NetCtx = NoBlock | IPv4 | IPv6

  /** The record being filled and the context. */
  datatype NetState = NetState(record: NetworkInterface, ctx: NetCtx)

  /** The context the parser has when its cursor is at `k`: set by the last `IPv4` or `IPv6`
      START_TAG before `k`; no END_TAG ever clears it. */
  function NetCtxAt(evs: seq<Event>, k: nat): NetCtx
    requires k <= |evs|
  {
    if k == 0 then NoBlock
    else if StartAt(evs, k - 1, "IPv4") then IPv4
    else if StartAt(evs, k - 1, "IPv6") then IPv6
    else NetCtxAt(evs, k - 1)
  }

  /** Events that are not START_TAGs leave the context alone. */
  lemma {:induction false} NetCtxSkip(evs: seq<Event>, a: nat, b: nat)
    requires a <= b <= |evs|
    requires forall k :: a <= k < b ==> !evs[k].StartTag?
    ensures NetCtxAt(evs, b) == NetCtxAt(evs, a)
    decreases b - a
  {
    if a < b {
      NetCtxSkip(evs, a, b - 1);
    }
  }

  /** One turn of the loop with the cursor at `i`. */
  function NetStep(evs: seq<Event>, i: nat, s: NetState): (r: Step<NetState>)
    requires i < |evs|
    ensures r.Next? ==> i < r.next <= |evs|
  {
    match evs[i]
    case Broken => Fail(s, XmlPull)
    case StartTag(name, attrs) =>
      if name == "NetworkInterfaces" then
        Next(s.(record := s.record.(interfaceToken := AttributeValue(attrs, "token"))), i + 1)
      else if name == "MTU" then
        match NextText(evs, i)
        case Err(e) => Fail(s, e)
        case Ok((t, j)) => Next(s.(record := s.record.(mtu := Some(t))), j + 1)
      else if name == "IPv4" then Next(s.(ctx := IPv4), i + 1)
      else if name == "PrefixLength" && s.ctx == IPv4 then
        match NextText(evs, i)
        case Err(e) => Fail(s, e)
        case Ok((t, j)) => Next(s.(record := s.record.(ipvtPrefixLength := Some(t))), j + 1)
      else if name == "IPv6" then Next(s.(ctx := IPv6), i + 1)
      else Next(s, i + 1)
    case _ => Next(s, i + 1)
  }

  function RunNet(evs: seq<Event>, i: nat, s: NetState): Parsed<NetState>
    requires i <= |evs|
    decreases |evs| - i
  {
    if i == |evs| then Parsed(s, None)
    else
      match NetStep(evs, i, s)
      case Fail(s', e) => Parsed(s', Some(e))
      case Next(s', j) => RunNet(evs, j, s')
  }

  /** The record the parser starts from: the device's own, or a fresh one. */
  function StartRecord(d: DeviceState): NetworkInterface {
    if d.networkInterface.Some? then d.networkInterface.value else NewNetworkInterface
  }

  /** `getNetworkInterface(xml, device)`: attaches a record first when the device has none, then
      fills that record in place; an exception leaves the writes made before it. */
  method GetNetworkInterface(evs: seq<Event>, device: OnvifDevice) returns (failure: Option<Error>)
    modifies device
    ensures var p := RunNet(evs, 0, NetState(StartRecord(old(device.State())), NoBlock));
      device.State() == old(device.State()).(networkInterface := Some(p.state.record)) && failure == p.failure
  {
    var networkInterface := device.networkInterface;
    if networkInterface.None? {
      networkInterface := Some(NewNetworkInterface);
      device.networkInterface := networkInterface;
    }
    var record := networkInterface.value;
    var tag := NoBlock;
    var i := 0;
    while i < |evs|
      invariant i <= |evs|
      invariant device.State() == old(device.State()).(networkInterface := Some(record))
      invariant RunNet(evs, i, NetState(record, tag)) == RunNet(evs, 0, NetState(StartRecord(old(device.State())), NoBlock))
      decreases |evs| - i
    {
      match evs[i]
      case Broken =>
        return Some(XmlPull);
      case StartTag(name, attrs) =>
        if name == "NetworkInterfaces" {
          record := record.(interfaceToken := AttributeValue(attrs, "token"));
          device.networkInterface := Some(record);
        } else if name == "MTU" {
          var t := NextText(evs, i);
          if t.Err? {
            return Some(t.error);
          }
          record := record.(mtu := Some(t.value.0));
          device.networkInterface := Some(record);
          i := t.value.1;
        } else if name == "IPv4" {
          tag := IPv4;
        } else if name == "PrefixLength" {
          if tag == IPv4 {
            var t := NextText(evs, i);
            if t.Err? {
              return Some(t.error);
            }
            record := record.(ipvtPrefixLength := Some(t.value.0));
            device.networkInterface := Some(record);
            i := t.value.1;
          }
        } else if name == "IPv6" {
          tag := IPv6;
        }
        i := i + 1;
      case EndTag(_) =>
        i := i + 1;
      case Text(_) =>
        i := i + 1;
    }
    failure := None;
  }

  /** Started with the context its position calls for, each step leaves the context the next
      position calls for: the context is exactly "the last IPv4/IPv6 start tag so far". */
  lemma NetStepTracksCtx(evs: seq<Event>, i: nat, s: NetState)
    requires i < |evs| && s.ctx == NetCtxAt(evs, i)
    ensures NetStep(evs, i, s).Next? ==> NetStep(evs, i, s).state.ctx == NetCtxAt(evs, NetStep(evs, i, s).next)
  {
    var r := NetStep(evs, i, s);
    if r.Next? && r.next != i + 1 {
      NetCtxSkip(evs, i + 1, r.next);
    }
  }

  /** The prefix length changes only by taking the text of a `PrefixLength` element that comes
      after an `IPv4` start tag, with no `IPv6` start tag in between. */
  lemma {:induction false} PrefixOnlyUnderIPv4(evs: seq<Event>, i: nat, s: NetState)
    requires i <= |evs| && s.ctx == NetCtxAt(evs, i)
    ensures var v := RunNet(evs, i, s).state.record.ipvtPrefixLength;
      v == s.record.ipvtPrefixLength ||
      exists k :: i <= k < |evs| && StartAt(evs, k, "PrefixLength") && NetCtxAt(evs, k) == IPv4 &&
                  v == Some(TextOf(evs, k))
    decreases |evs| - i
  {
    if i < |evs| {
      match NetStep(evs, i, s)
      case Fail(_, _) =>
      case Next(s', j) =>
        NetStepTracksCtx(evs, i, s);
        PrefixOnlyUnderIPv4(evs, j, s');
    }
  }

  /** One step's effect on the token and the MTU, and on the last start tags of their elements. */
  lemma NetStepLast(evs: seq<Event>, i: nat, s: NetState)
    requires i < |evs| && NetStep(evs, i, s).Next?
    ensures var r := NetStep(evs, i, s);
      var n := LastStart(evs, "NetworkInterfaces", r.next);
      var m := LastStart(evs, "MTU", r.next);
      r.state.record.interfaceToken ==
        (if StartAt(evs, i, "NetworkInterfaces") then AttributeValue(evs[i].attributes, "token") else s.record.interfaceToken) &&
      r.state.record.mtu == (if StartAt(evs, i, "MTU") then Some(TextOf(evs, i)) else s.record.mtu) &&
      LastStart(evs, "NetworkInterfaces", i) == (if n != -1 then n else if StartAt(evs, i, "NetworkInterfaces") then i else -1) &&
      LastStart(evs, "MTU", i) == (if m != -1 then m else if StartAt(evs, i, "MTU") then i else -1)
  {
    if NetStep(evs, i, s).next != i + 1 {
      NextTextSkip(evs, i, "NetworkInterfaces");
      NextTextSkip(evs, i, "MTU");
    }
  }

  /** After a parse that ends normally, the token is the `token` attribute of the last
      `NetworkInterfaces` start tag (null when that tag has none) and the MTU the text of the
      last `MTU`; each keeps its value when there is no such element. */
  lemma {:induction false} NetLastWins(evs: seq<Event>, i: nat, s: NetState)
    requires i <= |evs|
    requires RunNet(evs, i, s).failure.None?
    ensures var r := RunNet(evs, i, s).state.record;
      var n := LastStart(evs, "NetworkInterfaces", i);
      var m := LastStart(evs, "MTU", i);
      r.interfaceToken == (if n == -1 then s.record.interfaceToken else AttributeValue(evs[n].attributes, "token")) &&
      r.mtu == (if m == -1 then s.record.mtu else Some(TextOf(evs, m)))
    decreases |evs| - i
  {
    if i < |evs| {
      var r := NetStep(evs, i, s);
      if r.Next? {
        NetLastWins(evs, r.next, r.state);
        NetStepLast(evs, i, s);
      }
    }
  }

  /** When no `NetworkInterfaces`, `MTU` or `PrefixLength` start tag is left, the record is left
      as it is: an interface record the device already had is kept, not replaced. */
  lemma {:induction false} NetRecordKept(evs: seq<Event>, i: nat, s: NetState)
    requires i <= |evs|
    requires forall k :: i <= k < |evs| ==>
      !StartAt(evs, k, "NetworkInterfaces") && !StartAt(evs, k, "MTU") && !StartAt(evs, k, "PrefixLength")
    ensures RunNet(evs, i, s).state.record == s.record
    decreases |evs| - i
  {
    if i < |evs| {
      match NetStep(evs, i, s)
      case Fail(_, _) =>
      case Next(s', j) =>
        assert !StartAt(evs, i, "NetworkInterfaces") && !StartAt(evs, i, "MTU") && !StartAt(evs, i, "PrefixLength");
        NetRecordKept(evs, j, s');
    }
  }
}
