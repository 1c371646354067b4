/** `XmlDecodeUtil.getDeviceInfo`: turns a WS-Discovery ProbeMatch (OASIS WS-Discovery 1.1,
    section 5.3) into a fresh device record, taking the manufacturer from the ONVIF
    `onvif://www.onvif.org/name/` scope (ONVIF Core Specification, section 7.3.2.2). */
module ProbeMatch {
  import opened Base
  import opened XmlPull
  import opened Beans

  const ProbeTags: set<string> := {"XAddrs", "MessageID", "Scopes"}

  const NamePrefix: string := "onvif://www.onvif.org/name/"

  /** No character of the name-scope prefix is a space. */
  lemma PrefixHasNoSpace(s: string, start: nat, k: nat)
    requires IsAt(s, NamePrefix, start) && start <= k < start + |NamePrefix|
    ensures s[k] != ' '
  {
    assert s[k] == s[start..start + |NamePrefix|][k - start];
  }

  /** `extractManufacturerFromScopes(scopes)`: null for null or when no name scope is present;
      otherwise the text from the end of the first name-scope prefix to the next space (or the
      end), with every "%20" turned into a space. */
  function ManufacturerFromScopes(scopes: Option<string>): (r: Option<string>)
    ensures r.None? <==> scopes.None? || !Contains(scopes.value, NamePrefix)
  {
    if scopes.None? then None
    else
      var s := scopes.value;
      var start := IndexOf(s, NamePrefix, 0);
      if start == -1 then None
      else
        var sp := IndexOf(s, " ", start);
        var end := if sp != -1 then sp else |s|;
        assert start + |NamePrefix| <= end by {
          if sp != -1 && sp < start + |NamePrefix| {
            assert s[sp] == s[sp..sp + 1][0] == ' ';
            PrefixHasNoSpace(s, start, sp);
          }
        }
        Some(ReplaceAll(s[start + |NamePrefix|..end], "%20", " "))
  }

  /** The first space at or after `from` ends a stretch without spaces. */
  lemma SpaceFreeUntil(s: string, from: nat)
    requires from <= |s|
    ensures var sp := IndexOf(s, " ", from);
      var b := if sp != -1 then sp else |s|;
      from <= b <= |s| && (forall k :: from <= k < b ==> s[k] != ' ') && (b == |s| || s[b] == ' ')
  {
    var sp := IndexOf(s, " ", from);
    var b := if sp != -1 then sp else |s|;
    forall k | from <= k < b ensures s[k] != ' ' {
      assert !IsAt(s, " ", k);
      assert s[k..k + 1][0] == s[k];
    }
    if sp != -1 {
      assert s[sp..sp + 1] == " ";
    }
  }

  /** Where the name scope is present, the raw manufacturer text starts right after the first
      prefix, holds no space, and is followed by a space or the end of the scope list; the
      result is that text with "%20" decoded. */
  lemma ManufacturerMeaning(s: string)
    requires Contains(s, NamePrefix)
    ensures var a := IndexOf(s, NamePrefix, 0) + |NamePrefix|;
      exists b :: a <= b <= |s| && ManufacturerFromScopes(Some(s)) == Some(ReplaceAll(s[a..b], "%20", " ")) &&
        (forall k :: a <= k < b ==> s[k] != ' ') && (b == |s| || s[b] == ' ')
  {
    var start := IndexOf(s, NamePrefix, 0);
    var a := start + |NamePrefix|;
    var sp := IndexOf(s, " ", start);
    var b := if sp != -1 then sp else |s|;
    SpaceFreeUntil(s, start);
    if b < a {
      PrefixHasNoSpace(s, start, b);
    }
    assert ManufacturerFromScopes(Some(s)) == Some(ReplaceAll(s[a..b], "%20", " "));
  }

  /** A scope list that starts with the name scope yields the name up to the first space,
      decoded; without "%20" in it, the name comes back as written. */
  lemma {:induction false} LeadingNameScope(name: string, rest: string)
    requires forall k :: 0 <= k < |name| ==> name[k] != ' '
    requires rest == [] || rest[0] == ' '
    ensures ManufacturerFromScopes(Some(NamePrefix + name + rest)) == Some(ReplaceAll(name, "%20", " "))
    ensures (forall k :: !IsAt(name, "%20", k)) ==> ManufacturerFromScopes(Some(NamePrefix + name + rest)) == Some(name)
  {
    var s := NamePrefix + name + rest;
    assert IsAt(s, NamePrefix, 0);
    var a := |NamePrefix|;
    var b := a + |name|;
    forall k | 0 <= k < b ensures !IsAt(s, " ", k) {
      if k < a {
        PrefixHasNoSpace(s, 0, k);
      } else {
        assert s[k] == name[k - a];
      }
      assert s[k..k + 1][0] == s[k];
    }
    var sp := IndexOf(s, " ", 0);
    assert sp == -1 || sp >= b;
    if rest != [] {
      assert s[b..b + 1] == " ";
      assert IsAt(s, " ", b);
      assert sp == b;
    } else {
      assert sp == -1;
    }
    assert s[a..(if rest == [] then |s| else b)] == name;
    assert IndexOf(s, NamePrefix, 0) == 0;
    assert ManufacturerFromScopes(Some(s)) == Some(ReplaceAll(name, "%20", " "));
    if forall k :: !IsAt(name, "%20", k) {
      ReplaceAbsent(name, "%20", " ");
    }
  }

  /** What one ProbeMatch element does to the device: `XAddrs` goes through the serviceUrl
      setter with the first space-separated address, `MessageID` becomes the uuid, and `Scopes`
      sets the manufacturer only when a name scope is found. */
  function ProbeWrite(d: DeviceState, name: string, t: string): DeviceState
    requires name in ProbeTags
  {
    if name == "XAddrs" then
      var url := Split(t, " ")[0];
      d.(serviceUrl := Some(url), ipAddress := AddressOf(Some(url)))
    else if name == "MessageID" then d.(uuid := Some(t))
    else
      match ManufacturerFromScopes(Some(t))
      case None => d
      case Some(m) => d.(manufacturer := Some(m))
  }

  function ProbeStep(evs: seq<Event>, i: nat, d: DeviceState): (r: Step<DeviceState>)
    requires i < |evs|
    ensures r.Next? ==> i < r.next <= |evs|
  {
    match evs[i]
    case Broken => Fail(d, XmlPull)
    case StartTag(name, _) =>
      if name in ProbeTags then
        match NextText(evs, i)
        case Err(e) => Fail(d, e)
        case Ok((t, j)) => Next(ProbeWrite(d, name, t), j + 1)
      else Next(d, i + 1)
    case _ => Next(d, i + 1)
  }

  function RunProbe(evs: seq<Event>, i: nat, d: DeviceState): Parsed<DeviceState>
    requires i <= |evs|
    decreases |evs| - i
  {
    if i == |evs| then Parsed(d, None)
    else
      match ProbeStep(evs, i, d)
      case Fail(d', e) => Parsed(d', Some(e))
      case Next(d', j) => RunProbe(evs, j, d')
  }

  /** What `getDeviceInfo(xml)` returns (the record it filled) or throws. */
  function ProbeResult(evs: seq<Event>): Result<DeviceState> {
    var p := RunProbe(evs, 0, NewDevice);
    if p.failure.Some? then Err(p.failure.value) else Ok(p.state)
  }

  /** `getDeviceInfo(xml)`: a fresh record written in place, or the exception. */
  method GetDeviceInfo(evs: seq<Event>) returns (r: Result<OnvifDevice>)
    ensures r.Ok? <==> ProbeResult(evs).Ok?
    ensures r.Ok? ==> fresh(r.value) && r.value.State() == ProbeResult(evs).value && r.value.Valid()
    ensures r.Err? ==> r.error == ProbeResult(evs).error
  {
    var device := new OnvifDevice();
    var i := 0;
    while i < |evs|
      invariant i <= |evs|
      invariant fresh(device) && device.Valid()
      invariant RunProbe(evs, i, device.State()) == RunProbe(evs, 0, NewDevice)
      decreases |evs| - i
    {
      match evs[i]
      case Broken =>
        return Err(XmlPull);
      case StartTag(name, _) =>
        if name in ProbeTags {
          var t := NextText(evs, i);
          if t.Err? {
            return Err(t.error);
          }
          var text := t.value.0;
          if name == "XAddrs" {
            var url := Split(text, " ")[0];
            device.SetServiceUrl(Some(url));
          } else if name == "MessageID" {
            device.uuid := Some(text);
          } else {
            var manufacturerInfo := ManufacturerFromScopes(Some(text));
            if manufacturerInfo.Some? {
              device.manufacturer := manufacturerInfo;
            }
          }
          i := t.value.1 + 1;
        } else {
          i := i + 1;
        }
      case EndTag(_) =>
        i := i + 1;
      case Text(_) =>
        i := i + 1;
    }
    return Ok(device);
  }

  /** Index of the last `Scopes` START_TAG at or after `from` whose text holds a name scope, or -1. */
  function LastNameScope(evs: seq<Event>, from: nat): (r: int)
    ensures r == -1 || (from <= r && StartAt(evs, r, "Scopes") &&
                        ManufacturerFromScopes(Some(TextOf(evs, r))).Some?)
    decreases |evs| - from
  {
    if from >= |evs| then -1
    else
      var later := LastNameScope(evs, from + 1);
      if later != -1 then later
      else if StartAt(evs, from, "Scopes") && ManufacturerFromScopes(Some(TextOf(evs, from))).Some? then from
      else -1
  }

  lemma {:induction false} LastNameScopeSkip(evs: seq<Event>, a: nat, b: nat)
    requires a <= b
    requires forall k :: a <= k < b ==> !StartAt(evs, k, "Scopes")
    ensures LastNameScope(evs, a) == LastNameScope(evs, b)
    decreases b - a
  {
    if a < b && a < |evs| {
      LastNameScopeSkip(evs, a + 1, b);
    } else if a < b {
      assert LastNameScope(evs, a) == -1 && LastNameScope(evs, b) == -1;
    }
  }

  /** The parse ends without an exception exactly when the tokenizer never fails and every
      `XAddrs`, `MessageID` and `Scopes` element holds plain text. */
  lemma {:induction false} ProbeSucceedsIff(evs: seq<Event>, i: nat, d: DeviceState)
    requires i <= |evs|
    ensures RunProbe(evs, i, d).failure.None? <==> TextsReadable(evs, i, ProbeTags)
    decreases |evs| - i
  {
    if i < |evs| {
      match ProbeStep(evs, i, d)
      case Fail(_, _) =>
      case Next(d', j) =>
        ProbeSucceedsIff(evs, j, d');
        if evs[i].StartTag? && evs[i].name in ProbeTags {
          TextsReadableSkip(evs, i, ProbeTags);
        }
    }
  }

  /** Only serviceUrl, ipAddress, uuid and manufacturer are written, and the address always stays
      the one derived from the service URL. */
  lemma {:induction false} ProbeFrame(evs: seq<Event>, i: nat, d: DeviceState)
    requires i <= |evs|
    requires d.ipAddress == AddressOf(d.serviceUrl)
    ensures var s := RunProbe(evs, i, d).state;
      s.(serviceUrl := d.serviceUrl, ipAddress := d.ipAddress, uuid := d.uuid, manufacturer := d.manufacturer) == d &&
      s.ipAddress == AddressOf(s.serviceUrl)
    decreases |evs| - i
  {
    if i < |evs| {
      match ProbeStep(evs, i, d)
      case Fail(_, _) =>
      case Next(d', j) =>
        ProbeFrame(evs, j, d');
    }
  }

  /** One step's effect on the service URL and on the last `XAddrs`. */
  lemma ServiceUrlStep(evs: seq<Event>, i: nat, d: DeviceState)
    requires i < |evs| && ProbeStep(evs, i, d).Next?
    ensures var r := ProbeStep(evs, i, d);
      var later := LastStart(evs, "XAddrs", r.next);
      r.state.serviceUrl == (if StartAt(evs, i, "XAddrs") then Some(Split(TextOf(evs, i), " ")[0]) else d.serviceUrl) &&
      LastStart(evs, "XAddrs", i) == (if later != -1 then later else if StartAt(evs, i, "XAddrs") then i else -1)
  {
    if evs[i].StartTag? && evs[i].name in ProbeTags {
      NextTextSkip(evs, i, "XAddrs");
    }
  }

  /** After a parse that ends normally, serviceUrl is the first space-separated address of
      the last `XAddrs`, or what it was when there is none. */
  lemma {:induction false} ProbeServiceUrlLastWins(evs: seq<Event>, i: nat, d: DeviceState)
    requires i <= |evs|
    requires RunProbe(evs, i, d).failure.None?
    ensures var x := LastStart(evs, "XAddrs", i);
      RunProbe(evs, i, d).state.serviceUrl ==
        if x == -1 then d.serviceUrl else Some(Split(TextOf(evs, x), " ")[0])
    decreases |evs| - i
  {
    if i < |evs| {
      var r := ProbeStep(evs, i, d);
      if r.Next? {
        ProbeServiceUrlLastWins(evs, r.next, r.state);
        ServiceUrlStep(evs, i, d);
      }
    }
  }

  /** After a parse that ends normally, uuid is the verbatim text of the last `MessageID`, or
      what it was when there is none. */
  lemma {:induction false} ProbeUuidLastWins(evs: seq<Event>, i: nat, d: DeviceState)
    requires i <= |evs|
    requires RunProbe(evs, i, d).failure.None?
    ensures var m := LastStart(evs, "MessageID", i);
      RunProbe(evs, i, d).state.uuid == if m == -1 then d.uuid else Some(TextOf(evs, m))
    decreases |evs| - i
  {
    if i < |evs| {
      match ProbeStep(evs, i, d)
      case Fail(_, _) =>
      case Next(d', j) =>
        ProbeUuidLastWins(evs, j, d');
        if evs[i].StartTag? && evs[i].name in ProbeTags {
          NextTextSkip(evs, i, "MessageID");
        }
    }
  }

  /** One step's effect on the manufacturer and on the last name-holding `Scopes`. */
  lemma ManufacturerStep(evs: seq<Event>, i: nat, d: DeviceState)
    requires i < |evs| && ProbeStep(evs, i, d).Next?
    ensures var r := ProbeStep(evs, i, d);
      var here := StartAt(evs, i, "Scopes") && ManufacturerFromScopes(Some(TextOf(evs, i))).Some?;
      var later := LastNameScope(evs, r.next);
      r.state.manufacturer == (if here then ManufacturerFromScopes(Some(TextOf(evs, i))) else d.manufacturer) &&
      LastNameScope(evs, i) == (if later != -1 then later else if here then i else -1)
  {
    var j := ProbeStep(evs, i, d).next;
    if j != i + 1 {
      assert forall k :: i + 1 <= k < j ==> !evs[k].StartTag?;
      LastNameScopeSkip(evs, i + 1, j);
    }
  }

  /** After a parse that ends normally, the manufacturer comes from the last `Scopes` that holds
      a name scope; `Scopes` without one leave it as it was. */
  lemma {:induction false} ProbeManufacturerLastWins(evs: seq<Event>, i: nat, d: DeviceState)
    requires i <= |evs|
    requires RunProbe(evs, i, d).failure.None?
    ensures var c := LastNameScope(evs, i);
      RunProbe(evs, i, d).state.manufacturer ==
        if c == -1 then d.manufacturer else ManufacturerFromScopes(Some(TextOf(evs, c)))
    decreases |evs| - i
  {
    if i < |evs| {
      var r := ProbeStep(evs, i, d);
      if r.Next? {
        ProbeManufacturerLastWins(evs, r.next, r.state);
        ManufacturerStep(evs, i, d);
      }
    }
  }
}
