/** `XmlDecodeUtil.getMediaProfiles`: reads a GetProfiles response into a list of media
    profiles.

    The parser keeps a current `profile` (the one most recently created) and appends it to
    the result list at a `Profiles` END_TAG; since the list holds references, a profile that
    is already in the list keeps being filled while it is current. The model records every
    created profile in `objs` (the current one last) and the list as indices into `objs`. */
module MediaProfiles {
  import opened Base
  import opened XmlPull
  import opened Beans

  /** The `tag` variable: which configuration the parser believes it is in. */
  datatype MediaCtx = NoConfig | Video | Audio | VideoSource | AudioSource | Ptz

  datatype MediaState = MediaState(objs: seq<MediaProfile>, list: seq<nat>, ctx: MediaCtx)

  const Initial := MediaState([], [], NoConfig)

  /** The configuration end tags that clear the context; no other end tag does. */
  const ResetTags: set<string> := {"AudioEncoderConfiguration", "VideoEncoderConfiguration", "PTZConfiguration"}

  /** Leaf elements and the contexts under which each is taken into the current profile. */
  function LeafContexts(name: string): set<MediaCtx> {
    if name in {"Width", "Height", "FrameRateLimit"} then {Video}
    else if name == "Encoding" then {Video, Audio}
    else if name in {"Bitrate", "SampleRate"} then {Audio}
    else if name in {"Name", "UseCount", "Bounds"} then {VideoSource}
    else if name == "SourceToken" then {VideoSource, AudioSource}
    else if name == "NodeToken" then {Ptz}
    else {}
  }

  const Leaves: set<string> :=
    {"Width", "Height", "FrameRateLimit", "Encoding", "Bitrate", "SampleRate", "Name", "UseCount",
     "Bounds", "SourceToken", "NodeToken"}

  /** Leaves whose text `nextText()` reads whatever the context. */
  const AlwaysRead: set<string> := {"Width", "Height", "FrameRateLimit", "Encoding", "Bitrate", "SampleRate"}

  /** Integer leaves under the context that stores them: their text goes through `toInt()`. */
  predicate IntLeaf(name: string, ctx: MediaCtx) {
    (name in {"Width", "Height", "FrameRateLimit"} && ctx == Video) ||
    (name in {"Bitrate", "SampleRate"} && ctx == Audio)
  }

  /** Every list entry names a created profile, and the entries never go back to an earlier
      profile: the list is in document order. */
  predicate Ordered(s: MediaState) {
    (forall k :: 0 <= k < |s.list| ==> s.list[k] < |s.objs|) &&
    (forall a, b :: 0 <= a < b < |s.list| ==> s.list[a] <= s.list[b])
  }

  /** A write to one field of a profile's configurations. */
  datatype Edit =
    | EncoderToken(text: Option<string>)
    | EncoderEncoding(text: Option<string>)
    | EncoderWidth(n: int)
    | EncoderHeight(n: int)
    | EncoderFrameRate(n: int)
    | SourceConfigToken(text: Option<string>)
    | SourceName(text: Option<string>)
    | SourceUseCount(text: Option<string>)
    | SourceToken(text: Option<string>)
    | SourceWidth(n: int)
    | SourceHeight(n: int)
    | AudioTokenName(text: Option<string>)
    | AudioEncoding(text: Option<string>)
    | AudioBitrate(n: int)
    | AudioSampleRate(n: int)
    | AudioSourceConfigToken(text: Option<string>)
    | AudioSourceToken(text: Option<string>)
    | PtzToken(text: Option<string>)
    | PtzNodeToken(text: Option<string>)

  /** A configuration write never touches the profile's own token, name or stream URL. */
  function Apply(p: MediaProfile, e: Edit): (q: MediaProfile)
    ensures q.token == p.token && q.name == p.name && q.rtspUrl == p.rtspUrl
  {
    match e
    case EncoderToken(v) => p.(videoEncode := p.videoEncode.(token := v))
    case EncoderEncoding(v) => p.(videoEncode := p.videoEncode.(encoding := v))
    case EncoderWidth(n) => p.(videoEncode := p.videoEncode.(width := n))
    case EncoderHeight(n) => p.(videoEncode := p.videoEncode.(height := n))
    case EncoderFrameRate(n) => p.(videoEncode := p.videoEncode.(frameRate := n))
    case SourceConfigToken(v) => p.(videoSource := p.videoSource.(videoSourceConfigurationToken := v))
    case SourceName(v) => p.(videoSource := p.videoSource.(name := v))
    case SourceUseCount(v) => p.(videoSource := p.videoSource.(userCount := v))
    case SourceToken(v) => p.(videoSource := p.videoSource.(videoSourceToken := v))
    case SourceWidth(n) => p.(videoSource := p.videoSource.(width := n))
    case SourceHeight(n) => p.(videoSource := p.videoSource.(height := n))
    case AudioTokenName(v) => p.(audioEncode := p.audioEncode.(tokenName := v))
    case AudioEncoding(v) => p.(audioEncode := p.audioEncode.(encoding := v))
    case AudioBitrate(n) => p.(audioEncode := p.audioEncode.(bitrate := n))
    case AudioSampleRate(n) => p.(audioEncode := p.audioEncode.(sampleRate := n))
    case AudioSourceConfigToken(v) => p.(audioSource := p.audioSource.(audioSourceConfigurationToken := v))
    case AudioSourceToken(v) => p.(audioSource := p.audioSource.(audioSourceToken := v))
    case PtzToken(v) => p.(ptzConfiguration := p.ptzConfiguration.(token := v))
    case PtzNodeToken(v) => p.(ptzConfiguration := p.ptzConfiguration.(nodeToken := v))
  }

  /** Two lists of profiles of the same length whose tokens and names agree. */
  predicate SameHeads(a: seq<MediaProfile>, b: seq<MediaProfile>) {
    |a| == |b| && forall k :: 0 <= k < |a| ==> a[k].token == b[k].token && a[k].name == b[k].name
  }

  /** Applies `e` to the current profile, the last one created; with no current profile
      (`profile?.…` on null) nothing happens. */
  function OnCurrent(objs: seq<MediaProfile>, e: Edit): (r: seq<MediaProfile>)
    ensures SameHeads(r, objs)
    ensures forall k :: 0 <= k < |objs| - 1 ==> r[k] == objs[k]
    ensures |objs| > 0 ==> r[|objs| - 1] == Apply(objs[|objs| - 1], e)
    ensures |objs| == 0 ==> r == objs
  {
    if |objs| == 0 then objs
    else objs[..|objs| - 1] + [Apply(objs[|objs| - 1], e)]
  }

  /** `height?.toInt() ?: 0`: a missing attribute gives 0, a present one must parse. */
  function IntAttribute(v: Option<string>): (r: Result<int>)
    ensures v.None? ==> r == Ok(0)
    ensures v.Some? ==> r == ToInt(v.value)
  {
    match v
    case None => Ok(0)
    case Some(t) => ToInt(t)
  }

  /** A `Profiles` START_TAG at `i`: a new profile with the `token` attribute becomes current;
      the parser then moves one event on and reads the profile's name only when that event is a
      `Name` tag. The event after the start tag is never handled by the loop itself. At
      END_DOCUMENT the extra move stays there. */
  function ProfilesStart(evs: seq<Event>, i: nat, s: MediaState, attrs: seq<Attribute>): (r: Step<MediaState>)
    requires i < |evs|
    ensures |r.state.objs| == |s.objs| + 1 && r.state.objs[..|s.objs|] == s.objs
    ensures r.state.list == s.list && r.state.ctx == s.ctx
    ensures r.state.objs[|s.objs|].token == AttributeValue(attrs, "token")
    ensures r.Next? ==> (i + 1 < r.next <= |evs| || r.next == |evs|)
    ensures r.Next? ==>
      r.state.objs[|s.objs|].name == if StartAt(evs, i + 1, "Name") then Some(TextOf(evs, i + 1)) else None
  {
    var p := NewProfile.(token := AttributeValue(attrs, "token"));
    var s1 := s.(objs := s.objs + [p]);
    if i + 1 < |evs| && evs[i + 1].Broken? then Fail(s1, XmlPull)
    else if NameAt(evs, i + 1) == Some("Name") then
      match NextText(evs, i + 1)
      case Err(e) => Fail(s1, e)
      case Ok((t, j)) => Next(s.(objs := s.objs + [p.(name := Some(t))]), j + 1)
    else Next(s1, if i + 1 < |evs| then i + 2 else |evs|)
  }

  /** The write an integer leaf makes with the parsed value `v`. */
  function IntEdit(name: string, v: int): Edit {
    if name == "Width" then EncoderWidth(v)
    else if name == "Height" then EncoderHeight(v)
    else if name == "FrameRateLimit" then EncoderFrameRate(v)
    else if name == "Bitrate" then AudioBitrate(v)
    else AudioSampleRate(v)
  }

  /** An integer leaf: its text is read first, whatever the context; under its context and
      with a current profile, `toInt()` must accept it. */
  function IntLeafStep(evs: seq<Event>, i: nat, s: MediaState, name: string): (r: Step<MediaState>)
    requires i < |evs| && evs[i].StartTag?
    ensures NextText(evs, i).Err? ==> r.Fail?
    ensures NextText(evs, i).Ok? && IntLeaf(name, s.ctx) && |s.objs| > 0 ==>
      (r.Fail? <==> ToInt(NextText(evs, i).value.0).Err?)
    ensures !IntLeaf(name, s.ctx) ==> r.state == s
    ensures r.Next? ==> r.next == NextText(evs, i).value.1 + 1
    ensures r.state.list == s.list && r.state.ctx == s.ctx && SameHeads(r.state.objs, s.objs)
  {
    match NextText(evs, i)
    case Err(e) => Fail(s, e)
    case Ok((t, j)) =>
      if IntLeaf(name, s.ctx) && |s.objs| > 0 then
        match ToInt(t)
        case Err(e) => Fail(s, e)
        case Ok(v) => Next(s.(objs := OnCurrent(s.objs, IntEdit(name, v))), j + 1)
      else Next(s, j + 1)
  }

  /** The write a text leaf makes under the context `ctx`. */
  function TextEdit(name: string, ctx: MediaCtx, t: string): Edit {
    if name == "Name" then SourceName(Some(t))
    else if name == "UseCount" then SourceUseCount(Some(t))
    else if name == "SourceToken" && ctx == VideoSource then SourceToken(Some(t))
    else if name == "SourceToken" then AudioSourceToken(Some(t))
    else if name == "NodeToken" then PtzNodeToken(Some(t))
    else if ctx == Video then EncoderEncoding(Some(t))
    else AudioEncoding(Some(t))
  }

  /** A text leaf: `Name`, `UseCount`, `SourceToken` and `NodeToken` are read only under one of
      their contexts; `Encoding` is read under any context and kept only under its own. */
  function TextLeafStep(evs: seq<Event>, i: nat, s: MediaState, name: string): (r: Step<MediaState>)
    requires i < |evs| && evs[i].StartTag?
    requires name in {"Name", "UseCount", "SourceToken", "NodeToken", "Encoding"}
    ensures s.ctx !in LeafContexts(name) ==> r.state == s
    ensures s.ctx !in LeafContexts(name) && name != "Encoding" ==> r == Next(s, i + 1)
    ensures r.Fail? <==> (s.ctx in LeafContexts(name) || name == "Encoding") && NextText(evs, i).Err?
    ensures r.Next? ==> i < r.next <= |evs|
    ensures r.state.list == s.list && r.state.ctx == s.ctx && SameHeads(r.state.objs, s.objs)
  {
    if s.ctx !in LeafContexts(name) && name != "Encoding" then Next(s, i + 1)
    else
      match NextText(evs, i)
      case Err(e) => Fail(s, e)
      case Ok((t, j)) =>
        if s.ctx in LeafContexts(name) then Next(s.(objs := OnCurrent(s.objs, TextEdit(name, s.ctx, t))), j + 1)
        else Next(s, j + 1)
  }

  /** `Bounds` under a video source: the `height` and then the `width` attribute, each 0 when
      absent and parsed by `toInt()` when present. */
  function BoundsStep(i: nat, s: MediaState, attrs: seq<Attribute>): (r: Step<MediaState>)
    ensures s.ctx != VideoSource || |s.objs| == 0 ==> r == Next(s, i + 1)
    ensures r.Fail? <==> (s.ctx == VideoSource && |s.objs| > 0 &&
      (IntAttribute(AttributeValue(attrs, "height")).Err? || IntAttribute(AttributeValue(attrs, "width")).Err?))
    ensures r.state.list == s.list && r.state.ctx == s.ctx && SameHeads(r.state.objs, s.objs)
    ensures r.Next? && s.ctx == VideoSource && |s.objs| > 0 ==>
      r.state.objs[|s.objs| - 1].videoSource.height == IntAttribute(AttributeValue(attrs, "height")).value &&
      r.state.objs[|s.objs| - 1].videoSource.width == IntAttribute(AttributeValue(attrs, "width")).value
    ensures r.Next? ==> r.next == i + 1
  {
    if s.ctx != VideoSource || |s.objs| == 0 then Next(s, i + 1)
    else
      match IntAttribute(AttributeValue(attrs, "height"))
      case Err(e) => Fail(s, e)
      case Ok(h) =>
        var s1 := s.(objs := OnCurrent(s.objs, SourceHeight(h)));
        match IntAttribute(AttributeValue(attrs, "width"))
        case Err(e) => Fail(s1, e)
        case Ok(w) => Next(s1.(objs := OnCurrent(s1.objs, SourceWidth(w))), i + 1)
  }

  /** The context a configuration start tag sets. */
  function ConfigContext(name: string): MediaCtx {
    if name == "VideoEncoderConfiguration" then Video
    else if name == "AudioEncoderConfiguration" then Audio
    else if name == "VideoSourceConfiguration" then VideoSource
    else if name == "AudioSourceConfiguration" then AudioSource
    else Ptz
  }

  /** A configuration START_TAG: records its token in the current profile and sets the context.
      `PTZConfiguration` takes the first attribute, whatever its name, and an element without
      attributes throws when there is a current profile. */
  function ConfigStart(i: nat, s: MediaState, name: string, attrs: seq<Attribute>): (r: Step<MediaState>)
    requires name in {"VideoEncoderConfiguration", "AudioEncoderConfiguration", "VideoSourceConfiguration",
                      "AudioSourceConfiguration", "PTZConfiguration"}
    ensures r.Next? ==> r.next == i + 1
    ensures r.state.list == s.list && SameHeads(r.state.objs, s.objs)
    ensures r.Next? ==> r.state.ctx == ConfigContext(name)
    ensures name == "PTZConfiguration" && |s.objs| > 0 ==>
      (r.Fail? <==> |attrs| == 0) &&
      (r.Next? ==> r.state.objs[|s.objs| - 1].ptzConfiguration.token == Some(attrs[0].value))
  {
    if name == "PTZConfiguration" then
      if |s.objs| == 0 then Next(s.(ctx := Ptz), i + 1)
      else
        match FirstAttributeValue(attrs)
        case Err(e) => Fail(s, e)
        case Ok(v) => Next(s.(objs := OnCurrent(s.objs, PtzToken(Some(v))), ctx := Ptz), i + 1)
    else
      var v := AttributeValue(attrs, "token");
      if name == "VideoEncoderConfiguration" then Next(s.(objs := OnCurrent(s.objs, EncoderToken(v)), ctx := Video), i + 1)
      else if name == "AudioEncoderConfiguration" then Next(s.(objs := OnCurrent(s.objs, AudioTokenName(v)), ctx := Audio), i + 1)
      else if name == "VideoSourceConfiguration" then Next(s.(objs := OnCurrent(s.objs, SourceConfigToken(v)), ctx := VideoSource), i + 1)
      else Next(s.(objs := OnCurrent(s.objs, AudioSourceConfigToken(v)), ctx := AudioSource), i + 1)
  }

  const ConfigTags: set<string> :=
    {"VideoEncoderConfiguration", "AudioEncoderConfiguration", "VideoSourceConfiguration",
     "AudioSourceConfiguration", "PTZConfiguration"}

  /** An END_TAG: at `Profiles` the current profile, if any, is appended to the list; at the
      three configuration end tags the context is cleared. */
  function EndStep(i: nat, s: MediaState, name: string): (r: Step<MediaState>)
    ensures r.Next? && r.next == i + 1 && r.state.objs == s.objs
    ensures r.state.list == if name == "Profiles" && |s.objs| > 0 then s.list + [|s.objs| - 1] else s.list
    ensures r.state.ctx == if name in ResetTags then NoConfig else s.ctx
  {
    var s1 := if name == "Profiles" && |s.objs| > 0 then s.(list := s.list + [|s.objs| - 1]) else s;
    Next(if name in ResetTags then s1.(ctx := NoConfig) else s1, i + 1)
  }

  /** One turn of the loop with the cursor at `i`. */
  function MediaStep(evs: seq<Event>, i: nat, s: MediaState): (r: Step<MediaState>)
    requires i < |evs|
    ensures r.Next? ==> i < r.next <= |evs|
    ensures Ordered(s) ==> Ordered(r.state)
    // profiles are created only at a Profiles start tag, and only there get a token and a name
    ensures |r.state.objs| == |s.objs| + (if StartAt(evs, i, "Profiles") then 1 else 0)
    ensures !StartAt(evs, i, "Profiles") ==> SameHeads(r.state.objs, s.objs)
    // a profile enters the list only at a Profiles end tag
    ensures r.state.list == s.list ||
      (evs[i] == EndTag("Profiles") && |s.objs| > 0 && r.state.list == s.list + [|s.objs| - 1])
    // only the three configuration end tags clear the context
    ensures evs[i].EndTag? ==> r.state.ctx == if evs[i].name in ResetTags then NoConfig else s.ctx
    // a leaf outside its context changes nothing
    ensures evs[i].StartTag? && evs[i].name in Leaves && s.ctx !in LeafContexts(evs[i].name) ==> r.state == s
  {
    match evs[i]
    case Broken => Fail(s, XmlPull)
    case StartTag(name, attrs) =>
      if name == "Profiles" then ProfilesStart(evs, i, s, attrs)
      else if name in ConfigTags then ConfigStart(i, s, name, attrs)
      else if name in {"Width", "Height", "FrameRateLimit", "Bitrate", "SampleRate"} then IntLeafStep(evs, i, s, name)
      else if name in {"Name", "UseCount", "SourceToken", "NodeToken", "Encoding"} then TextLeafStep(evs, i, s, name)
      else if name == "Bounds" then BoundsStep(i, s, attrs)
      else Next(s, i + 1)
    case EndTag(name) => EndStep(i, s, name)
    case Text(_) => Next(s, i + 1)
  }

  function RunMedia(evs: seq<Event>, i: nat, s: MediaState): (r: Parsed<MediaState>)
    requires i <= |evs|
    ensures Ordered(s) ==> Ordered(r.state)
    decreases |evs| - i
  {
    if i == |evs| then Parsed(s, None)
    else
      match MediaStep(evs, i, s)
      case Fail(s', e) => Parsed(s', Some(e))
      case Next(s', j) => RunMedia(evs, j, s')
  }

  /** The list the parser returns: the profiles its entries refer to, in list order. */
  function Listed(s: MediaState): (ps: seq<MediaProfile>)
    requires Ordered(s)
    ensures |ps| == |s.list|
  {
    seq(|s.list|, k requires 0 <= k < |s.list| => s.objs[s.list[k]])
  }

  /** What `getMediaProfiles(xml)` returns or throws. */
  function MediaProfilesOf(evs: seq<Event>): Result<seq<MediaProfile>> {
    var p := RunMedia(evs, 0, Initial);
    if p.failure.Some? then Err(p.failure.value) else Ok(Listed(p.state))
  }

  /** The `Profiles` branch of the loop. */
  method StartProfile(evs: seq<Event>, i: nat, s: MediaState, attrs: seq<Attribute>) returns (r: Step<MediaState>)
    requires i < |evs|
    ensures r == ProfilesStart(evs, i, s, attrs)
  {
    var created := s.objs + [NewProfile.(token := AttributeValue(attrs, "token"))];
    if i + 1 < |evs| && evs[i + 1].Broken? {
      return Fail(s.(objs := created), XmlPull);
    }
    if NameAt(evs, i + 1) == Some("Name") {
      var t := NextText(evs, i + 1);
      if t.Err? {
        return Fail(s.(objs := created), t.error);
      }
      var last := created[|created| - 1];
      created := created[..|created| - 1] + [last.(name := Some(t.value.0))];
      assert created == s.objs + [NewProfile.(token := AttributeValue(attrs, "token"), name := Some(t.value.0))];
      return Next(s.(objs := created), t.value.1 + 1);
    }
    return Next(s.(objs := created), if i + 1 < |evs| then i + 2 else |evs|);
  }

  /** The configuration branches of the loop. */
  method StartConfig(i: nat, s: MediaState, name: string, attrs: seq<Attribute>) returns (r: Step<MediaState>)
    requires name in ConfigTags
    ensures r == ConfigStart(i, s, name, attrs)
  {
    var created := s.objs;
    var tag := s.ctx;
    if name == "PTZConfiguration" {
      if |created| > 0 {
        var token := FirstAttributeValue(attrs);
        if token.Err? {
          return Fail(s, token.error);
        }
        created := OnCurrent(created, PtzToken(Some(token.value)));
      }
      tag := Ptz;
    } else {
      var token := AttributeValue(attrs, "token");
      if name == "VideoEncoderConfiguration" {
        created := OnCurrent(created, EncoderToken(token));
        tag := Video;
      } else if name == "AudioEncoderConfiguration" {
        created := OnCurrent(created, AudioTokenName(token));
        tag := Audio;
      } else if name == "VideoSourceConfiguration" {
        created := OnCurrent(created, SourceConfigToken(token));
        tag := VideoSource;
      } else {
        created := OnCurrent(created, AudioSourceConfigToken(token));
        tag := AudioSource;
      }
    }
    return Next(s.(objs := created, ctx := tag), i + 1);
  }

  /** The integer-leaf branches of the loop. */
  method ReadIntLeaf(evs: seq<Event>, i: nat, s: MediaState, name: string) returns (r: Step<MediaState>)
    requires i < |evs| && evs[i].StartTag?
    ensures r == IntLeafStep(evs, i, s, name)
  {
    var t := NextText(evs, i);
    if t.Err? {
      return Fail(s, t.error);
    }
    var created := s.objs;
    if IntLeaf(name, s.ctx) && |created| > 0 {
      var v := ToInt(t.value.0);
      if v.Err? {
        return Fail(s, v.error);
      }
      created := OnCurrent(created, IntEdit(name, v.value));
    }
    return Next(s.(objs := created), t.value.1 + 1);
  }

  /** The text-leaf branches of the loop. */
  method ReadTextLeaf(evs: seq<Event>, i: nat, s: MediaState, name: string) returns (r: Step<MediaState>)
    requires i < |evs| && evs[i].StartTag?
    requires name in {"Name", "UseCount", "SourceToken", "NodeToken", "Encoding"}
    ensures r == TextLeafStep(evs, i, s, name)
  {
    if s.ctx !in LeafContexts(name) && name != "Encoding" {
      return Next(s, i + 1);
    }
    var t := NextText(evs, i);
    if t.Err? {
      return Fail(s, t.error);
    }
    var created := s.objs;
    if s.ctx in LeafContexts(name) {
      created := OnCurrent(created, TextEdit(name, s.ctx, t.value.0));
    }
    return Next(s.(objs := created), t.value.1 + 1);
  }

  /** The `Bounds` branch of the loop. */
  method ReadBounds(i: nat, s: MediaState, attrs: seq<Attribute>) returns (r: Step<MediaState>)
    ensures r == BoundsStep(i, s, attrs)
  {
    var created := s.objs;
    if s.ctx == VideoSource && |created| > 0 {
      var height := IntAttribute(AttributeValue(attrs, "height"));
      if height.Err? {
        return Fail(s, height.error);
      }
      created := OnCurrent(created, SourceHeight(height.value));
      var width := IntAttribute(AttributeValue(attrs, "width"));
      if width.Err? {
        return Fail(s.(objs := created), width.error);
      }
      created := OnCurrent(created, SourceWidth(width.value));
    }
    return Next(s.(objs := created), i + 1);
  }

  /** The START_TAG branches of the loop: the element's name picks the branch. */
  method ReadStartTag(evs: seq<Event>, i: nat, s: MediaState) returns (step: Step<MediaState>)
    requires i < |evs| && evs[i].StartTag?
    ensures step == MediaStep(evs, i, s)
  {
    var name, attrs := evs[i].name, evs[i].attributes;
    if name == "Profiles" {
      step := StartProfile(evs, i, s, attrs);
    } else if name in ConfigTags {
      step := StartConfig(i, s, name, attrs);
    } else if name in {"Width", "Height", "FrameRateLimit", "Bitrate", "SampleRate"} {
      step := ReadIntLeaf(evs, i, s, name);
    } else if name in {"Name", "UseCount", "SourceToken", "NodeToken", "Encoding"} {
      step := ReadTextLeaf(evs, i, s, name);
    } else if name == "Bounds" {
      step := ReadBounds(i, s, attrs);
    } else {
      step := Next(s, i + 1);
    }
  }

  /** The END_TAG branch of the loop. */
  method CloseTag(i: nat, s: MediaState, name: string) returns (step: Step<MediaState>)
    ensures step == EndStep(i, s, name)
  {
    var profiles, tag := s.list, s.ctx;
    if name == "Profiles" && |s.objs| > 0 {
      profiles := profiles + [|s.objs| - 1];
    }
    if name in ResetTags {
      tag := NoConfig;
    }
    return Next(MediaState(s.objs, profiles, tag), i + 1);
  }

  /** One turn of the loop: the branch the event under the cursor selects. */
  method Turn(evs: seq<Event>, i: nat, s: MediaState) returns (step: Step<MediaState>)
    requires i < |evs|
    ensures step == MediaStep(evs, i, s)
  {
    match evs[i]
    case Broken =>
      step := Fail(s, XmlPull);
    case StartTag(_, _) =>
      step := ReadStartTag(evs, i, s);
    case EndTag(name) =>
      step := CloseTag(i, s, name);
    case Text(_) =>
      step := Next(s, i + 1);
  }

  /** `getMediaProfiles(xml)`. `created` holds every profile made so far, the current `profile`
      being the last; `profiles` is the result list, as references into `created`. */
  method GetMediaProfiles(evs: seq<Event>) returns (r: Result<seq<MediaProfile>>)
    ensures r == MediaProfilesOf(evs)
  {
    var created: seq<MediaProfile> := [];
    var profiles: seq<nat> := [];
    var tag := NoConfig;
    var i := 0;
    while i < |evs|
      invariant i <= |evs|
      invariant Ordered(MediaState(created, profiles, tag))
      invariant RunMedia(evs, i, MediaState(created, profiles, tag)) == RunMedia(evs, 0, Initial)
      decreases |evs| - i
    {
      var step := Turn(evs, i, MediaState(created, profiles, tag));
      if step.Fail? {
        return Err(step.error);
      }
      created, profiles, tag, i := step.state.objs, step.state.list, step.state.ctx, step.next;
    }
    return Ok(Listed(MediaState(created, profiles, tag)));
  }

  /** The parser never returns more entries than there are `Profiles` end tags. */
  lemma {:induction false} ProfilesAtMostEndTags(evs: seq<Event>, i: nat, s: MediaState)
    requires i <= |evs|
    ensures |RunMedia(evs, i, s).state.list| <= |s.list| + CountEnd(evs, "Profiles", i)
    decreases |evs| - i
  {
    if i < |evs| && MediaStep(evs, i, s).Next? {
      var j, t := ListTurn(evs, i, s);
      ProfilesAtMostEndTags(evs, j, t);
      CountEndMonotone(evs, "Profiles", i + 1, j);
    }
  }

  /** One turn that moves on, as the cursor and state it leaves: the list grows by at most the
      `Profiles` end tag it handles. */
  lemma ListTurn(evs: seq<Event>, i: nat, s: MediaState) returns (j: nat, t: MediaState)
    requires i < |evs| && MediaStep(evs, i, s).Next?
    ensures i < j <= |evs| && RunMedia(evs, i, s) == RunMedia(evs, j, t)
    ensures |t.list| <= |s.list| + (if evs[i] == EndTag("Profiles") then 1 else 0)
  {
    j, t := MediaStep(evs, i, s).next, MediaStep(evs, i, s).state;
  }

  /** The loop started at cursor `i` in state `s` has the cursor at `k` at the start of some
      turn (`k == |evs|`: the loop ends there). The `next()` after a `Profiles` start tag
      moves the cursor past an event the loop then never handles. */
  predicate MediaVisits(evs: seq<Event>, i: nat, s: MediaState, k: nat)
    requires i <= |evs|
    decreases |evs| - i
  {
    i == k ||
    (i < k && i < |evs| && MediaStep(evs, i, s).Next? &&
     MediaVisits(evs, MediaStep(evs, i, s).next, MediaStep(evs, i, s).state, k))
  }

  /** The state when the cursor arrives at `k`. */
  function MediaArrival(evs: seq<Event>, i: nat, s: MediaState, k: nat): MediaState
    requires i <= |evs| && MediaVisits(evs, i, s, k)
    decreases |evs| - i
  {
    if i == k then s
    else MediaArrival(evs, MediaStep(evs, i, s).next, MediaStep(evs, i, s).state, k)
  }

  /** The `Profiles` start tags the loop handles on its way from `i` to `k`, in order. */
  function StartsVisited(evs: seq<Event>, i: nat, s: MediaState, k: nat): (r: seq<nat>)
    requires i <= |evs| && MediaVisits(evs, i, s, k)
    ensures forall m :: 0 <= m < |r| ==> i <= r[m] < k && StartAt(evs, r[m], "Profiles")
    ensures forall a, b :: 0 <= a < b < |r| ==> r[a] < r[b]
    decreases |evs| - i
  {
    if i == k then []
    else
      (if StartAt(evs, i, "Profiles") then [i] else []) +
      StartsVisited(evs, MediaStep(evs, i, s).next, MediaStep(evs, i, s).state, k)
  }

  /** The run from `i` is the run from any cursor it visits, in the state it arrives with. */
  lemma {:induction false} RunFromArrival(evs: seq<Event>, i: nat, s: MediaState, k: nat)
    requires i <= |evs| && MediaVisits(evs, i, s, k)
    ensures k <= |evs| && RunMedia(evs, i, s) == RunMedia(evs, k, MediaArrival(evs, i, s, k))
    decreases |evs| - i
  {
    if i != k {
      RunFromArrival(evs, MediaStep(evs, i, s).next, MediaStep(evs, i, s).state, k);
    }
  }

  /** A run that ends normally visits END_DOCUMENT, arriving there with its final state. */
  lemma {:induction false} NormalRunVisitsEnd(evs: seq<Event>, i: nat, s: MediaState)
    requires i <= |evs| && RunMedia(evs, i, s).failure.None?
    ensures MediaVisits(evs, i, s, |evs|) && MediaArrival(evs, i, s, |evs|) == RunMedia(evs, i, s).state
    decreases |evs| - i
  {
    if i < |evs| {
      NormalRunVisitsEnd(evs, MediaStep(evs, i, s).next, MediaStep(evs, i, s).state);
    }
  }

  /** `t` is `s` with one more profile per `Profiles` start tag in `starts`, carrying that
      tag's `token`; the earlier profiles keep their tokens and the list only grows. */
  predicate GrowsBy(evs: seq<Event>, s: MediaState, t: MediaState, starts: seq<nat>) {
    (forall m :: 0 <= m < |starts| ==> StartAt(evs, starts[m], "Profiles")) &&
    |t.objs| == |s.objs| + |starts| && |s.list| <= |t.list| && t.list[..|s.list|] == s.list &&
    (forall m :: 0 <= m < |s.objs| ==> t.objs[m].token == s.objs[m].token) &&
    (forall m :: 0 <= m < |starts| ==> t.objs[|s.objs| + m].token == AttributeValue(evs[starts[m]].attributes, "token"))
  }

  lemma GrowsByThen(evs: seq<Event>, s: MediaState, t: MediaState, a: MediaState, h1: seq<nat>, h2: seq<nat>)
    requires GrowsBy(evs, s, t, h1) && GrowsBy(evs, t, a, h2)
    ensures GrowsBy(evs, s, a, h1 + h2)
  {
    var h := h1 + h2;
    forall m | 0 <= m < |h|
      ensures a.objs[|s.objs| + m].token == AttributeValue(evs[h[m]].attributes, "token")
    {
      if m >= |h1| {
        assert h[m] == h2[m - |h1|] && |s.objs| + m == |t.objs| + (m - |h1|);
      } else {
        assert a.objs[|s.objs| + m].token == t.objs[|s.objs| + m].token;
      }
    }
    assert a.list[..|s.list|] == a.list[..|t.list|][..|s.list|];
  }

  /** One turn of the loop grows the state by the `Profiles` start tag it handles, if any. */
  lemma StepGrows(evs: seq<Event>, i: nat, s: MediaState)
    requires i < |evs| && MediaStep(evs, i, s).Next?
    ensures GrowsBy(evs, s, MediaStep(evs, i, s).state, if StartAt(evs, i, "Profiles") then [i] else [])
  {
    var t := MediaStep(evs, i, s).state;
    if StartAt(evs, i, "Profiles") {
      assert t == ProfilesStart(evs, i, s, evs[i].attributes).state;
      assert forall m :: 0 <= m < |s.objs| ==> t.objs[m] == t.objs[..|s.objs|][m];
    } else {
      assert SameHeads(t.objs, s.objs);
    }
  }

  /** On the way to `k` one profile is created per `Profiles` start tag handled, with that
      tag's `token`; earlier profiles keep their tokens and the list only grows. */
  lemma {:induction false} ArrivalProfiles(evs: seq<Event>, i: nat, s: MediaState, k: nat)
    requires i <= |evs| && MediaVisits(evs, i, s, k)
    ensures GrowsBy(evs, s, MediaArrival(evs, i, s, k), StartsVisited(evs, i, s, k))
    decreases |evs| - i
  {
    if i == k {
      assert s.list[..|s.list|] == s.list;
    } else {
      var step := MediaStep(evs, i, s);
      StepGrows(evs, i, s);
      ArrivalProfiles(evs, step.next, step.state, k);
      GrowsByThen(evs, s, step.state, MediaArrival(evs, i, s, k),
                  if StartAt(evs, i, "Profiles") then [i] else [], StartsVisited(evs, step.next, step.state, k));
    }
  }

  /** From a `Profiles` end tag with a current profile, a run that ends normally has that
      profile at the next place of its list, with the token it had there. */
  lemma EndTagAppends(evs: seq<Event>, k: nat, a: MediaState) returns (f: MediaState)
    requires k < |evs| && evs[k] == EndTag("Profiles") && |a.objs| > 0
    requires RunMedia(evs, k, a).failure.None?
    ensures f == RunMedia(evs, k, a).state
    ensures |a.list| < |f.list| && f.list[|a.list|] == |a.objs| - 1 && |a.objs| <= |f.objs| &&
      f.objs[|a.objs| - 1].token == a.objs[|a.objs| - 1].token
  {
    f := RunMedia(evs, k, a).state;
    var s' := EndTagTurn(evs, k, a);
    NormalRunVisitsEnd(evs, k + 1, s');
    assert GrowsBy(evs, s', f, StartsVisited(evs, k + 1, s', |evs|)) by {
      ArrivalProfiles(evs, k + 1, s', |evs|);
    }
    assert f.list[|a.list|] == f.list[..|s'.list|][|a.list|] == s'.list[|a.list|];
    assert f.objs[|a.objs| - 1].token == s'.objs[|a.objs| - 1].token;
  }

  /** The turn at a `Profiles` end tag with a current profile appends that profile to the list. */
  lemma EndTagTurn(evs: seq<Event>, k: nat, a: MediaState) returns (s': MediaState)
    requires k < |evs| && evs[k] == EndTag("Profiles") && |a.objs| > 0
    ensures s'.objs == a.objs && s'.list == a.list + [|a.objs| - 1]
    ensures RunMedia(evs, k, a) == RunMedia(evs, k + 1, s')
  {
    s' := a.(list := a.list + [|a.objs| - 1]);
    assert "Profiles" !in ResetTags;
    assert MediaStep(evs, k, a) == Next(s', k + 1);
  }

  /** Arriving at `k` after a `Profiles` start tag, the current profile is that of the most
      recent one; the returned list is read from the final state `f` of the run from `k`. */
  lemma LatestListed(evs: seq<Event>, k: nat) returns (f: MediaState)
    requires k < |evs| && evs[k] == EndTag("Profiles") && MediaVisits(evs, 0, Initial, k)
    requires MediaProfilesOf(evs).Ok? && |StartsVisited(evs, 0, Initial, k)| > 0
    ensures var a := MediaArrival(evs, 0, Initial, k);
      var st := StartsVisited(evs, 0, Initial, k);
      Ordered(f) && MediaProfilesOf(evs).value == Listed(f) &&
      |a.list| < |f.list| && f.list[|a.list|] == |a.objs| - 1 && |a.objs| <= |f.objs| &&
      f.objs[|a.objs| - 1].token == AttributeValue(evs[st[|st| - 1]].attributes, "token")
  {
    var a := MediaArrival(evs, 0, Initial, k);
    ArrivalProfiles(evs, 0, Initial, k);
    RunFromArrival(evs, 0, Initial, k);
    f := EndTagAppends(evs, k, a);
    assert Ordered(Initial);
  }

  /** The `j`-th returned profile is the one the `j`-th list entry names. */
  lemma ListedEntry(f: MediaState, j: nat, o: nat)
    requires Ordered(f) && j < |f.list| && f.list[j] == o
    ensures j < |Listed(f)| && o < |f.objs| && Listed(f)[j] == f.objs[o]
  {
  }

  /** A `Profiles` end tag that the loop handles after at least one `Profiles` start tag puts
      the profile of the most recent such start tag at the next place of the returned list. */
  lemma EndTagListsLatestProfile(evs: seq<Event>, k: nat)
    requires k < |evs| && evs[k] == EndTag("Profiles") && MediaVisits(evs, 0, Initial, k)
    requires MediaProfilesOf(evs).Ok?
    ensures var a := MediaArrival(evs, 0, Initial, k);
      var st := StartsVisited(evs, 0, Initial, k);
      var ps := MediaProfilesOf(evs).value;
      |st| > 0 ==>
        |a.list| < |ps| && ps[|a.list|].token == AttributeValue(evs[st[|st| - 1]].attributes, "token")
  {
    var a := MediaArrival(evs, 0, Initial, k);
    var st := StartsVisited(evs, 0, Initial, k);
    if |st| > 0 {
      var f := LatestListed(evs, k);
      ListedEntry(f, |a.list|, |a.objs| - 1);
    }
  }

  /** The returned profiles carry the tokens of the `Profiles` start tags the loop handled,
      in the order those tags appear in the document. */
  lemma ProfilesInDocumentOrder(evs: seq<Event>)
    requires MediaProfilesOf(evs).Ok?
    ensures MediaVisits(evs, 0, Initial, |evs|)
    ensures var f := RunMedia(evs, 0, Initial).state;
      var st := StartsVisited(evs, 0, Initial, |evs|);
      var ps := MediaProfilesOf(evs).value;
      |f.objs| == |st| && |ps| == |f.list| &&
      (forall k :: 0 <= k < |ps| ==>
         f.list[k] < |st| && ps[k].token == AttributeValue(evs[st[f.list[k]]].attributes, "token")) &&
      (forall a, b :: 0 <= a < b < |ps| ==> st[f.list[a]] <= st[f.list[b]])
  {
    NormalRunVisitsEnd(evs, 0, Initial);
    ArrivalProfiles(evs, 0, Initial, |evs|);
    var f := RunMedia(evs, 0, Initial).state;
    var st := StartsVisited(evs, 0, Initial, |evs|);
    assert Ordered(Initial);
    forall a, b | 0 <= a < b < |f.list|
      ensures st[f.list[a]] <= st[f.list[b]]
    {
      if f.list[a] < f.list[b] {
        assert st[f.list[a]] < st[f.list[b]];
      }
    }
  }

  /** A `Profiles` element with no children is never listed: the `next()` after its start tag
      consumes its end tag, so `<Profiles token="a"></Profiles>` gives an empty list. */
  lemma EmptyProfileDropped(evs: seq<Event>)
    requires evs == [StartTag("Profiles", [Attribute("token", "a")]), EndTag("Profiles")]
    ensures MediaProfilesOf(evs) == Ok([])
  {
    var s1 := MediaStep(evs, 0, Initial).state;
    assert MediaStep(evs, 0, Initial) == Next(s1, 2) && s1.list == [];
    assert RunMedia(evs, 0, Initial) == Parsed(s1, None);
  }
}
