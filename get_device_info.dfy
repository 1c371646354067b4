/** `GetDeviceInfo.run`: fills a discovered device in by a fixed chain of SOAP requests, each
    sent, parsed and written into the device in place. The first exception ends the chain and
    is reported; success is reported only after every step. The HTTP transport is a scripted
    world: the reply to the request of step `k` (its body as parser events, or the exception
    `postRequest` throws) and the clock and randomness the digest of step `k` uses. */
module DeviceInfo {
  import opened Base
  import opened XmlPull
  import opened Beans
  import opened Capabilities
  import opened DeviceInformation
  import opened NetworkInterfaces
  import opened MediaProfiles
  import opened UriParser
  import opened OnvifUtils

  /** What `postRequest` does with a request: returns a body, or throws. */
  datatype Reply = Body(events: seq<Event>) | Failed(error: Error)

  /** The templates, the digest inputs of each step and the reply to each step. */
  datatype World = World(assets: map<string, string>, source: nat -> DigestSource, reply: nat -> Reply)

  /** A request handed to `postRequest`: the template file, whether it carries a digest, the
      address, the format parameter `postString` was given and the text it produced. */
  datatype Request = Request(file: string, needDigest: bool, url: string, param: string, body: string)

  /** The result the callback receives: `success(device)` or `failure(e)`. */
  datatype Outcome = Success | Failure(error: Error)

  /** One `fetchAndParse` before the parser: the request sent, if one was, and the body or the
      exception. */
  datatype Fetched = Fetched(sent: Option<Request>, reply: Result<seq<Event>>)

  /** `fetchAndParse` as step `k`: the request text is assembled first (a missing template or a
      bad format throws before anything is sent), then the URL is `urlOverride ?: serviceUrl`
      (null throws `MalformedURLException`), then the request is posted. */
  function FetchOf(w: World, k: nat, d: DeviceState, file: string, needDigest: bool,
                   urlOverride: Option<string>, param: string): (r: Fetched)
    ensures r.sent.Some? ==>
      r.sent.value.file == file && r.sent.value.needDigest == needDigest &&
      Some(r.sent.value.url) == (if urlOverride.Some? then urlOverride else d.serviceUrl) &&
      r.sent.value.param == param && Ok(r.sent.value.body) == PostString(w.assets, file, d, needDigest, [param], w.source(k))
    ensures r.sent.None? ==> r.reply.Err?
    ensures r.reply.Ok? ==> w.reply(k) == Body(r.reply.value)
  {
    match PostString(w.assets, file, d, needDigest, [param], w.source(k))
    case Err(e) => Fetched(None, Err(e))
    case Ok(postString) =>
      var url := if urlOverride.Some? then urlOverride else d.serviceUrl;
      if url.None? then Fetched(None, Err(MalformedUrl))
      else
        var request := Request(file, needDigest, url.value, param, postString);
        match w.reply(k)
        case Body(evs) => Fetched(Some(request), Ok(evs))
        case Failed(e) => Fetched(Some(request), Err(e))
  }

  /** The steps of the chain. */
  datatype Step = Caps | Info | Net | Profiles | Stream(index: nat)

  function File(s: Step): string {
    match s
    case Caps => "getCapabilities.xml"
    case Info => "getDeviceInformation.xml"
    case Net => "getNetworkInterface.xml"
    case Profiles => "getProfiles.xml"
    case Stream(_) => "getStreamUri.xml"
  }

  /** `profile.token ?: ""`. */
  function TokenOf(p: MediaProfile): string {
    if p.token.Some? then p.token.value else ""
  }

  /** The format parameter: the profile's token for a stream step, the default "" otherwise. */
  function ParamOf(s: Step, d: DeviceState): string
    requires s.Stream? ==> s.index < |d.profiles|
  {
    if s.Stream? then TokenOf(d.profiles[s.index]) else ""
  }

  /** The parser of each step applied to the device; a parser that throws leaves the writes it
      made before the exception. */
  function Parse(s: Step, evs: seq<Event>, d: DeviceState): (r: Parsed<DeviceState>)
    requires s.Stream? ==> s.index < |d.profiles|
    ensures s.Stream? ==> |r.state.profiles| == |d.profiles|
  {
    match s
    case Caps => RunCaps(evs, 0, d)
    case Info => RunInfo(evs, 0, d)
    case Net =>
      var p := RunNet(evs, 0, NetState(StartRecord(d), NoBlock));
      Parsed(d.(networkInterface := Some(p.state.record)), p.failure)
    case Profiles =>
      (match MediaProfilesOf(evs)
       case Err(e) => Parsed(d, Some(e))
       case Ok(ps) => Parsed(d.(profiles := ps), None))
    case Stream(i) =>
      match UriByTag(evs, "Uri")
      case Err(e) => Parsed(d, Some(e))
      case Ok(uri) => Parsed(d.(profiles := d.profiles[i := d.profiles[i].(rtspUrl := Some(uri))]), None)
  }

  /** The state of the chain: the device, the outcome so far, the requests sent and the number
      of steps begun. */
  datatype Run = Run(device: DeviceState, outcome: Outcome, sent: seq<Request>, steps: nat)

  function Sent(r: Option<Request>): seq<Request> {
    if r.Some? then [r.value] else []
  }

  /** One step after the others: skipped once a step has thrown. Only the capabilities request
      goes unauthenticated; the profile and stream requests go to the media address. */
  function Stage(r: Run, w: World, s: Step): (r': Run)
    requires s.Stream? ==> s.index < |r.device.profiles|
    ensures s.Stream? ==> |r'.device.profiles| == |r.device.profiles|
    ensures r.outcome.Failure? ==> r' == r
    ensures r.outcome.Success? ==> r'.steps == r.steps + 1
  {
    if r.outcome.Failure? then r
    else
      var urlOverride := if s.Profiles? || s.Stream? then r.device.mediaUrl else None;
      var f := FetchOf(w, r.steps, r.device, File(s), !s.Caps?, urlOverride, ParamOf(s, r.device));
      var sent := r.sent + Sent(f.sent);
      match f.reply
      case Err(e) => Run(r.device, Failure(e), sent, r.steps + 1)
      case Ok(evs) =>
        var p := Parse(s, evs, r.device);
        Run(p.state, if p.failure.Some? then Failure(p.failure.value) else Success, sent, r.steps + 1)
  }

  /** The `forEach` over the profiles from the `i`-th on. */
  function Streams(r: Run, w: World, i: nat): Run
    decreases |r.device.profiles| - i
  {
    if r.outcome.Failure? || i >= |r.device.profiles| then r
    else Streams(Stage(r, w, Stream(i)), w, i + 1)
  }

  /** The chain from the first step through the profiles. */
  function Head(d: DeviceState, w: World): Run {
    var r := Run(d, Success, [], 0);
    Stage(Stage(Stage(Stage(r, w, Caps), w, Info), w, Net), w, Profiles)
  }

  /** The fixed steps from the `k`-th on. */
  function FixedFrom(r: Run, w: World, k: nat): Run
    decreases 4 - k
  {
    if k >= 4 then r else FixedFrom(Stage(r, w, [Caps, Info, Net, Profiles][k]), w, k + 1)
  }

  lemma HeadIsFixed(d: DeviceState, w: World)
    ensures Head(d, w) == FixedFrom(Run(d, Success, [], 0), w, 0)
  {
  }

  /** A failed chain stays as it is. */
  lemma {:induction false} FailedStays(r: Run, w: World, k: nat)
    requires r.outcome.Failure?
    ensures FixedFrom(r, w, k) == r && Streams(r, w, 0) == r
    decreases 4 - k
  {
    if k < 4 {
      FailedStays(r, w, k + 1);
    }
  }

  /** What `run()` does to the device, what it reports and what it sends. */
  function RunOf(d: DeviceState, w: World): Run {
    Streams(Head(d, w), w, 0)
  }

  /** `fetchAndParse(xmlFile, needDigest, urlOverride, params, parser)` as step `k`, the
      parser being the one of step `s`: returns the outcome and the requests sent so far. */
  method FetchAndParse(device: OnvifDevice, w: World, s: Step, k: nat, ghost r: Run, sentBefore: seq<Request>)
    returns (outcome: Outcome, sent: seq<Request>)
    requires r.outcome.Success? && r.device == device.State() && r.sent == sentBefore && r.steps == k
    requires s.Stream? ==> s.index < |device.profiles|
    modifies device
    ensures var next := Stage(r, w, s);
      device.State() == next.device && outcome == next.outcome && sent == next.sent
  {
    var xmlFile := File(s);
    var needDigest := !s.Caps?;
    var urlOverride := if s.Profiles? || s.Stream? then device.mediaUrl else None;
    var params := ParamOf(s, device.State());
    var postString := PostString(w.assets, xmlFile, device.State(), needDigest, [params], w.source(k));
    if postString.Err? {
      return Failure(postString.error), sentBefore;
    }
    var url := if urlOverride.Some? then urlOverride else device.serviceUrl;
    if url.None? {
      return Failure(MalformedUrl), sentBefore;
    }
    sent := sentBefore + [Request(xmlFile, needDigest, url.value, params, postString.value)];
    if w.reply(k).Failed? {
      return Failure(w.reply(k).error), sent;
    }
    var failure := ApplyParser(device, s, w.reply(k).events);
    outcome := if failure.Some? then Failure(failure.value) else Success;
  }

  /** The `parser` lambda each step hands to `fetchAndParse`, applied to the reply body: writes
      the device in place and reports the parser's exception. */
  method ApplyParser(device: OnvifDevice, s: Step, response: seq<Event>) returns (failure: Option<Error>)
    requires s.Stream? ==> s.index < |device.profiles|
    modifies device
    ensures Parsed(device.State(), failure) == Parse(s, response, old(device.State()))
  {
    match s {
      case Caps =>
        failure := GetCapabilitiesUrl(response, device);
      case Info =>
        failure := GetDeviceInformation(response, device);
      case Net =>
        failure := GetNetworkInterface(response, device);
      case Profiles =>
        var profiles := GetMediaProfiles(response);
        if profiles.Err? {
          return Some(profiles.error);
        }
        device.AddProfiles(profiles.value);
        failure := None;
      case Stream(i) =>
        var profile := device.profiles[i];
        var uri := GetStreamUri(response);
        if uri.Err? {
          return Some(uri.error);
        }
        device.profiles := device.profiles[i := profile.(rtspUrl := Some(uri.value))];
        failure := None;
    }
  }

  /** The four fixed requests of `run()`, one after the other: stops at the first exception. */
  method RunFixed(device: OnvifDevice, w: World) returns (outcome: Outcome, sent: seq<Request>, ghost r: Run)
    modifies device
    ensures r == Head(old(device.State()), w)
    ensures device.State() == r.device && outcome == r.outcome && sent == r.sent
  {
    r := Run(device.State(), Success, [], 0);
    outcome, sent := FetchAndParse(device, w, Caps, 0, r, []);
    r := Stage(r, w, Caps);
    if outcome.Failure? {
      return;
    }
    outcome, sent := FetchAndParse(device, w, Info, 1, r, sent);
    r := Stage(r, w, Info);
    if outcome.Failure? {
      return;
    }
    outcome, sent := FetchAndParse(device, w, Net, 2, r, sent);
    r := Stage(r, w, Net);
    if outcome.Failure? {
      return;
    }
    outcome, sent := FetchAndParse(device, w, Profiles, 3, r, sent);
    r := Stage(r, w, Profiles);
  }

  /** The `forEach` of `run()` over the profiles: stops at the first exception. */
  method RunStreams(device: OnvifDevice, w: World, ghost r0: Run, sentBefore: seq<Request>)
    returns (outcome: Outcome, sent: seq<Request>)
    requires r0.outcome.Success? && r0.device == device.State() && r0.sent == sentBefore && r0.steps == 4
    modifies device
    ensures var r := Streams(r0, w, 0);
      device.State() == r.device && outcome == r.outcome && sent == r.sent
  {
    ghost var r := r0;
    sent := sentBefore;
    var i := 0;
    while i < |device.profiles|
      invariant i <= |device.profiles|
      invariant r.outcome.Success? && r.device == device.State() && r.sent == sent && r.steps == 4 + i
      invariant Streams(r, w, i) == Streams(r0, w, 0)
      decreases |device.profiles| - i
    {
      ghost var next := Stage(r, w, Stream(i));
      outcome, sent := FetchAndParse(device, w, Stream(i), 4 + i, r, sent);
      r := next;
      if outcome.Failure? {
        FailedStays(r, w, 0);
        return;
      }
      i := i + 1;
    }
    outcome := Success;
  }

  /** `run()`: the four fixed steps, then one stream request per profile; returns what the
      callback receives and the requests sent. */
  method RunChain(device: OnvifDevice, w: World) returns (outcome: Outcome, sent: seq<Request>)
    modifies device
    ensures var r := RunOf(old(device.State()), w);
      device.State() == r.device && outcome == r.outcome && sent == r.sent
  {
    ghost var r;
    outcome, sent, r := RunFixed(device, w);
    if outcome.Failure? {
      FailedStays(r, w, 0);
      return;
    }
    outcome, sent := RunStreams(device, w, r, sent);
  }

  // ---------------------------------------------------------------------
  // Properties of the chain

  /** The file of the `j`-th request of the chain. */
  function PlanFile(j: nat): string {
    if j == 0 then "getCapabilities.xml"
    else if j == 1 then "getDeviceInformation.xml"
    else if j == 2 then "getNetworkInterface.xml"
    else if j == 3 then "getProfiles.xml"
    else "getStreamUri.xml"
  }

  /** The place of a step in the chain. */
  function PlaceOf(s: Step): nat {
    match s
    case Caps => 0
    case Info => 1
    case Net => 2
    case Profiles => 3
    case Stream(i) => 4 + i
  }

  /** The five service addresses the capabilities reply fills in. */
  function Urls(d: DeviceState): (Option<string>, Option<string>, Option<string>, Option<string>, Option<string>) {
    (d.mediaUrl, d.ptzUrl, d.eventUrl, d.analyticsUrl, d.imageUrl)
  }

  /** What a step's parser may change: neither the service address nor the user name and
      password; the media address only on the capabilities step; the profile list only on the
      profile and stream steps, the stream step keeping its length and every token. */
  predicate Framed(s: Step, d: DeviceState, p: DeviceState) {
    p.serviceUrl == d.serviceUrl && p.userName == d.userName && p.psw == d.psw &&
    (!s.Caps? ==> Urls(p) == Urls(d)) &&
    (!s.Profiles? && !s.Stream? ==> p.profiles == d.profiles) &&
    (s.Stream? ==> |p.profiles| == |d.profiles| &&
                   forall i :: 0 <= i < |d.profiles| ==> p.profiles[i].token == d.profiles[i].token)
  }

  lemma ParseFrame(s: Step, evs: seq<Event>, d: DeviceState)
    requires s.Stream? ==> s.index < |d.profiles|
    ensures Framed(s, d, Parse(s, evs, d).state)
  {
    match s
    case Caps => CapsFrame(evs, 0, d);
    case Info => InfoFrame(evs, 0, d);
    case _ =>
  }

  /** The request text depends on the device only through its user name and password. */
  lemma PostStringCredentials(assets: map<string, string>, file: string, d: DeviceState, e: DeviceState,
                              needDigest: bool, params: seq<string>, src: DigestSource)
    requires d.userName == e.userName && d.psw == e.psw
    ensures PostString(assets, file, d, needDigest, params, src) == PostString(assets, file, e, needDigest, params, src)
  {
  }

  /** The `j`-th request as the chain plans it, `d` being the device after the chain: the step's
      file, a digest on all but the first, the service address for the first three and the media
      address (else the service address) for the rest, and the step's parameter. */
  predicate AsPlanned(d0: DeviceState, w: World, d: DeviceState, j: nat, q: Request) {
    q.file == PlanFile(j) && q.needDigest == (j != 0) &&
    Some(q.url) == (if j >= 3 && d.mediaUrl.Some? then d.mediaUrl else d0.serviceUrl) &&
    q.param == ParamAt(d, j)
  }

  /** The format parameter of the `j`-th request: the token of the profile it asks about, or
      the default "". */
  function ParamAt(d: DeviceState, j: nat): string {
    if j >= 4 && j - 4 < |d.profiles| then TokenOf(d.profiles[j - 4]) else ""
  }

  /** The request text is the template of the request's file filled in from the first device's
      credentials, the parameter, and the digest inputs of its step. */
  predicate BodyMade(d0: DeviceState, w: World, q: Request, j: nat) {
    Ok(q.body) == PostString(w.assets, q.file, d0, q.needDigest, [q.param], w.source(j))
  }

  /** Every request's text made as `BodyMade` says, the `j`-th with the digest inputs of step `j`. */
  predicate Made(d0: DeviceState, w: World, sent: seq<Request>) {
    forall j :: 0 <= j < |sent| ==> BodyMade(d0, w, sent[j], j)
  }

  /** What holds of the chain after every step. */
  predicate Planned(d0: DeviceState, w: World, r: Run) {
    |r.sent| <= r.steps && (r.outcome.Success? ==> |r.sent| == r.steps) &&
    r.device.serviceUrl == d0.serviceUrl && r.device.userName == d0.userName && r.device.psw == d0.psw &&
    forall j :: 0 <= j < |r.sent| ==> AsPlanned(d0, w, r.device, j, r.sent[j])
  }

  /** `d'` agrees with `d` on what the first `n` planned requests read of the device. */
  predicate AgreesUpTo(d: DeviceState, d': DeviceState, n: nat) {
    (n > 3 ==> d'.mediaUrl == d.mediaUrl) &&
    (n > 4 ==> |d'.profiles| == |d.profiles| &&
               forall i :: 0 <= i < |d.profiles| ==> d'.profiles[i].token == d.profiles[i].token)
  }

  lemma PlannedKept(d0: DeviceState, w: World, d: DeviceState, d': DeviceState, sent: seq<Request>)
    requires forall j :: 0 <= j < |sent| ==> AsPlanned(d0, w, d, j, sent[j])
    requires AgreesUpTo(d, d', |sent|)
    ensures forall j :: 0 <= j < |sent| ==> AsPlanned(d0, w, d', j, sent[j])
  {
    forall j | 0 <= j < |sent| ensures AsPlanned(d0, w, d', j, sent[j]) {
      assert AsPlanned(d0, w, d, j, sent[j]);
    }
  }

  /** What `fetchAndParse` sends for step `s` from device `d`, text aside. */
  predicate Fits(f: Fetched, s: Step, d: DeviceState)
    requires s.Stream? ==> s.index < |d.profiles|
  {
    (f.sent.None? ==> f.reply.Err?) &&
    (f.sent.Some? ==>
      var q := f.sent.value;
      q.file == File(s) && q.needDigest == !s.Caps? && q.param == ParamOf(s, d) &&
      Some(q.url) == (if (s.Profiles? || s.Stream?) && d.mediaUrl.Some? then d.mediaUrl else d.serviceUrl))
  }

  lemma FetchFits(w: World, s: Step, k: nat, d: DeviceState)
    requires s.Stream? ==> s.index < |d.profiles|
    ensures Fits(FetchOf(w, k, d, File(s), !s.Caps?, if s.Profiles? || s.Stream? then d.mediaUrl else None, ParamOf(s, d)), s, d)
  {
  }

  /** The request a step sends is the one planned for its place. */
  lemma SentPlanned(d0: DeviceState, w: World, r: Run, s: Step, f: Fetched, d': DeviceState)
    requires Planned(d0, w, r) && r.outcome.Success? && r.steps == PlaceOf(s)
    requires s.Stream? ==> s.index < |r.device.profiles|
    requires Fits(f, s, r.device) && f.sent.Some?
    requires d'.mediaUrl == r.device.mediaUrl || s.Caps?
    requires s.Stream? ==> s.index < |d'.profiles| && d'.profiles[s.index].token == r.device.profiles[s.index].token
    ensures AsPlanned(d0, w, d', r.steps, f.sent.value)
  {
  }

  /** A step whose request fails, in its place, from a chain as planned. */
  lemma FailedFetchPlanned(d0: DeviceState, w: World, r: Run, s: Step, f: Fetched)
    requires Planned(d0, w, r) && r.outcome.Success? && r.steps == PlaceOf(s)
    requires s.Stream? ==> s.index < |r.device.profiles|
    requires Fits(f, s, r.device)
    requires f.reply.Err?
    ensures Planned(d0, w, Run(r.device, Failure(f.reply.error), r.sent + Sent(f.sent), r.steps + 1))
  {
    if f.sent.Some? {
      SentPlanned(d0, w, r, s, f, r.device);
    }
  }

  /** A step whose request is answered, in its place, from a chain as planned, whatever its
      parser does within its frame. */
  lemma ParsedPlanned(d0: DeviceState, w: World, r: Run, s: Step, f: Fetched, p: DeviceState, o: Outcome)
    requires Planned(d0, w, r) && r.outcome.Success? && r.steps == PlaceOf(s)
    requires s.Stream? ==> s.index < |r.device.profiles|
    requires Fits(f, s, r.device)
    requires f.reply.Ok? && Framed(s, r.device, p)
    ensures Planned(d0, w, Run(p, o, r.sent + Sent(f.sent), r.steps + 1))
  {
    assert AgreesUpTo(r.device, p, |r.sent|);
    PlannedKept(d0, w, r.device, p, r.sent);
    SentPlanned(d0, w, r, s, f, p);
  }

  /** A step taken in its place keeps the chain as planned. */
  lemma StagePlanned(d0: DeviceState, w: World, r: Run, s: Step)
    requires Planned(d0, w, r) && (s.Stream? ==> s.index < |r.device.profiles|)
    requires r.outcome.Success? ==> r.steps == PlaceOf(s)
    ensures Planned(d0, w, Stage(r, w, s))
  {
    if r.outcome.Success? {
      var f := FetchOf(w, r.steps, r.device, File(s), !s.Caps?,
                       if s.Profiles? || s.Stream? then r.device.mediaUrl else None, ParamOf(s, r.device));
      FetchFits(w, s, r.steps, r.device);
      if f.reply.Ok? {
        var p := Parse(s, f.reply.value, r.device);
        ParseFrame(s, f.reply.value, r.device);
        ParsedPlanned(d0, w, r, s, f, p.state, if p.failure.Some? then Failure(p.failure.value) else Success);
      } else {
        FailedFetchPlanned(d0, w, r, s, f);
      }
    }
  }

  /** A request made in its place keeps every text as `Made` says. */
  lemma MadeAppend(d0: DeviceState, w: World, sent: seq<Request>, q: Option<Request>)
    requires Made(d0, w, sent) && (q.Some? ==> BodyMade(d0, w, q.value, |sent|))
    ensures Made(d0, w, sent + Sent(q))
  {
    var sent' := sent + Sent(q);
    forall j | 0 <= j < |sent'| ensures BodyMade(d0, w, sent'[j], j) {
      if j < |sent| {
        assert sent'[j] == sent[j];
      }
    }
  }

  lemma StageMade(d0: DeviceState, w: World, r: Run, s: Step)
    requires Planned(d0, w, r) && Made(d0, w, r.sent) && (s.Stream? ==> s.index < |r.device.profiles|)
    requires r.outcome.Success? ==> r.steps == PlaceOf(s)
    ensures Made(d0, w, Stage(r, w, s).sent)
  {
    if r.outcome.Success? {
      var f := FetchOf(w, r.steps, r.device, File(s), !s.Caps?,
                       if s.Profiles? || s.Stream? then r.device.mediaUrl else None, ParamOf(s, r.device));
      assert Stage(r, w, s).sent == r.sent + Sent(f.sent);
      if f.sent.Some? {
        PostStringCredentials(w.assets, File(s), r.device, d0, !s.Caps?, [ParamOf(s, r.device)], w.source(r.steps));
      }
      MadeAppend(d0, w, r.sent, f.sent);
    }
  }

  /** The fixed steps from the `k`-th on keep the chain as planned. */
  lemma {:induction false} FixedPlanned(d0: DeviceState, w: World, r: Run, k: nat)
    requires k <= 4 && Planned(d0, w, r) && Made(d0, w, r.sent)
    requires r.outcome.Success? ==> r.steps == k
    ensures Planned(d0, w, FixedFrom(r, w, k)) && Made(d0, w, FixedFrom(r, w, k).sent)
    decreases 4 - k
  {
    if k < 4 {
      var s := [Caps, Info, Net, Profiles][k];
      StagePlanned(d0, w, r, s);
      StageMade(d0, w, r, s);
      FixedPlanned(d0, w, Stage(r, w, s), k + 1);
    }
  }

  /** The stream steps from the `i`-th profile on keep the chain as planned. */
  lemma {:induction false} StreamsPlanned(d0: DeviceState, w: World, r: Run, i: nat)
    requires Planned(d0, w, r) && Made(d0, w, r.sent)
    requires r.outcome.Success? ==> r.steps == 4 + i
    ensures Planned(d0, w, Streams(r, w, i)) && Made(d0, w, Streams(r, w, i).sent)
    decreases |r.device.profiles| - i
  {
    if r.outcome.Success? && i < |r.device.profiles| {
      StagePlanned(d0, w, r, Stream(i));
      StageMade(d0, w, r, Stream(i));
      StreamsPlanned(d0, w, Stage(r, w, Stream(i)), i + 1);
    }
  }

  /** Every request `run()` sends is the one planned for its place: the `j`-th goes out with the
      `j`-th file, a digest on all but the first, to the service address for the first three and
      to the media address (the service address while there is none) for the others, with the
      token of the `j - 4`-th profile on a stream request; its text is the template filled in
      from the device's user name and password and the digest inputs of step `j`. A chain that
      throws has sent no more requests than steps it began, and one that succeeds exactly one per
      step. */
  lemma RequestsFollowPlan(d: DeviceState, w: World)
    ensures var r := RunOf(d, w);
      Planned(d, w, r) && Made(d, w, r.sent)
  {
    var r0 := Run(d, Success, [], 0);
    HeadIsFixed(d, w);
    FixedPlanned(d, w, r0, 0);
    var h := Head(d, w);
    if h.outcome.Success? {
      StepsCounted(d, w);
    }
    StreamsPlanned(d, w, h, 0);
  }

  /** A successful head has begun its four steps. */
  lemma StepsCounted(d: DeviceState, w: World)
    ensures Head(d, w).outcome.Success? ==> Head(d, w).steps == 4
  {
    var r0 := Run(d, Success, [], 0);
    var r1 := Stage(r0, w, Caps);
    var r2 := Stage(r1, w, Info);
    var r3 := Stage(r2, w, Net);
    assert r1.outcome.Success? ==> r1.steps == 1;
    assert r2.outcome.Success? ==> r2.steps == 2;
    assert r3.outcome.Success? ==> r3.steps == 3;
  }

  /** What the stream request of the `m`-th profile yields: the `Uri` text of its reply, or the
      exception. */
  function UriReply(w: World, m: nat): Result<string> {
    match w.reply(4 + m)
    case Failed(e) => Err(e)
    case Body(evs) => UriByTag(evs, "Uri")
  }

  /** The profiles `ps` are the parsed profiles `P` with the stream address of each of the first
      `i` set from its reply. */
  predicate Streamed(ps: seq<MediaProfile>, P: seq<MediaProfile>, w: World, i: nat) {
    |ps| == |P| && i <= |P| &&
    (forall m :: 0 <= m < i ==> UriReply(w, m).Ok? && ps[m] == P[m].(rtspUrl := Some(UriReply(w, m).value))) &&
    (forall m :: i <= m < |P| ==> ps[m] == P[m])
  }

  /** A stream step that succeeds has set the stream address of its profile, and only that. */
  lemma StreamStage(r: Run, w: World, i: nat)
    requires r.outcome.Success? && r.steps == 4 + i && i < |r.device.profiles|
    ensures var n := Stage(r, w, Stream(i));
      n.outcome.Success? ==>
        n.steps == r.steps + 1 && UriReply(w, i).Ok? &&
        n.device.profiles == r.device.profiles[i := r.device.profiles[i].(rtspUrl := Some(UriReply(w, i).value))]
  {
    var f := FetchOf(w, r.steps, r.device, File(Stream(i)), true, r.device.mediaUrl, ParamOf(Stream(i), r.device));
    if f.reply.Ok? {
      assert w.reply(4 + i) == Body(f.reply.value);
    }
  }

  /** Setting the stream address of profile `i` from its reply extends `Streamed` by one. */
  lemma StreamedStep(ps: seq<MediaProfile>, P: seq<MediaProfile>, w: World, i: nat)
    requires Streamed(ps, P, w, i) && i < |P| && UriReply(w, i).Ok?
    ensures Streamed(ps[i := ps[i].(rtspUrl := Some(UriReply(w, i).value))], P, w, i + 1)
  {
  }

  /** One turn of the `forEach`, as the run it leaves and what it adds to `Streamed`. */
  lemma StreamedTurn(r: Run, w: World, i: nat, P: seq<MediaProfile>) returns (n: Run)
    requires r.outcome.Success? && r.steps == 4 + i && Streamed(r.device.profiles, P, w, i) && i < |P|
    ensures Streams(r, w, i) == Streams(n, w, i + 1)
    ensures n.outcome.Success? ==> n.steps == 4 + (i + 1) && Streamed(n.device.profiles, P, w, i + 1)
    ensures n.outcome.Failure? ==> Streams(n, w, i + 1) == n
  {
    n := Stage(r, w, Stream(i));
    StreamStage(r, w, i);
    if n.outcome.Success? {
      StreamedStep(r.device.profiles, P, w, i);
    }
  }

  lemma {:induction false} StreamsComplete(r: Run, w: World, i: nat, P: seq<MediaProfile>)
    requires r.outcome.Success? && r.steps == 4 + i && Streamed(r.device.profiles, P, w, i)
    ensures var f := Streams(r, w, i);
      f.outcome.Success? ==> f.steps == 4 + |P| && Streamed(f.device.profiles, P, w, |P|)
    decreases |P| - i
  {
    if i < |P| {
      var n := StreamedTurn(r, w, i, P);
      if n.outcome.Success? {
        StreamsComplete(n, w, i + 1, P);
      }
    }
  }

  /** A successful head has the profiles the profile reply parses to. */
  lemma HeadProfiles(d: DeviceState, w: World)
    ensures var h := Head(d, w);
      h.outcome.Success? ==>
        h.steps == 4 && w.reply(3).Body? && MediaProfilesOf(w.reply(3).events).Ok? &&
        h.device.profiles == MediaProfilesOf(w.reply(3).events).value
  {
    StepsCounted(d, w);
    var r3 := Stage(Stage(Stage(Run(d, Success, [], 0), w, Caps), w, Info), w, Net);
    assert r3.outcome.Success? ==> r3.steps == 3;
  }

  /** A chain that succeeds has sent the four fixed requests and one per profile, and the
      device's profiles are those of the profile reply, in its order, each with the `Uri` of its
      stream reply as its stream address. */
  lemma SuccessCompletes(d: DeviceState, w: World)
    ensures var r := RunOf(d, w);
      r.outcome.Success? ==>
        w.reply(3).Body? && MediaProfilesOf(w.reply(3).events).Ok? &&
        var P := MediaProfilesOf(w.reply(3).events).value;
        |r.sent| == 4 + |P| && Streamed(r.device.profiles, P, w, |P|)
  {
    var h := Head(d, w);
    RequestsFollowPlan(d, w);
    if h.outcome.Success? {
      HeadProfiles(d, w);
      StreamsComplete(h, w, 0, h.device.profiles);
    } else {
      FailedStays(h, w, 4);
    }
  }

  /** A step other than the capabilities step leaves the service addresses as they are. */
  lemma StageKeepsUrls(r: Run, w: World, s: Step)
    requires !s.Caps? && (s.Stream? ==> s.index < |r.device.profiles|)
    ensures Urls(Stage(r, w, s).device) == Urls(r.device)
  {
    if r.outcome.Success? {
      var f := FetchOf(w, r.steps, r.device, File(s), !s.Caps?,
                       if s.Profiles? || s.Stream? then r.device.mediaUrl else None, ParamOf(s, r.device));
      if f.reply.Ok? {
        ParseFrame(s, f.reply.value, r.device);
      }
    }
  }

  lemma {:induction false} FixedKeepsUrls(r: Run, w: World, k: nat)
    requires 1 <= k
    ensures Urls(FixedFrom(r, w, k).device) == Urls(r.device)
    decreases 4 - k
  {
    if k < 4 {
      StageKeepsUrls(r, w, [Caps, Info, Net, Profiles][k]);
      FixedKeepsUrls(Stage(r, w, [Caps, Info, Net, Profiles][k]), w, k + 1);
    }
  }

  /** One turn of the `forEach`, as the run it leaves and the addresses it keeps. */
  lemma StreamTurn(r: Run, w: World, i: nat) returns (n: Run)
    requires r.outcome.Success? && i < |r.device.profiles|
    ensures Streams(r, w, i) == Streams(n, w, i + 1) && Urls(n.device) == Urls(r.device)
    ensures |n.device.profiles| == |r.device.profiles| && n.steps == r.steps + 1
  {
    n := Stage(r, w, Stream(i));
    StageKeepsUrls(r, w, Stream(i));
  }

  /** The `forEach` only adds steps. */
  lemma {:induction false} StreamsSteps(r: Run, w: World, i: nat)
    ensures Streams(r, w, i).steps >= r.steps
    decreases |r.device.profiles| - i
  {
    if r.outcome.Success? && i < |r.device.profiles| {
      var n := StreamTurn(r, w, i);
      StreamsSteps(n, w, i + 1);
    }
  }

  lemma {:induction false} StreamsKeepUrls(r: Run, w: World, i: nat)
    ensures Urls(Streams(r, w, i).device) == Urls(r.device)
    decreases |r.device.profiles| - i
  {
    if r.outcome.Success? && i < |r.device.profiles| {
      var n := StreamTurn(r, w, i);
      StreamsKeepUrls(n, w, i + 1);
    }
  }

  /** Nothing is rolled back: once the capabilities request has been sent and answered, the
      service addresses its parser wrote (all of them, or those written before it threw) are the
      device's at the end, whatever the later steps do. */
  lemma CapsWritesKept(d: DeviceState, w: World)
    ensures var r := RunOf(d, w);
      |r.sent| >= 1 && w.reply(0).Body? ==> Urls(r.device) == Urls(RunCaps(w.reply(0).events, 0, d).state)
  {
    var r0 := Run(d, Success, [], 0);
    var r1 := Stage(r0, w, Caps);
    assert Head(d, w) == FixedFrom(r1, w, 1);
    FixedKeepsUrls(r1, w, 1);
    StreamsKeepUrls(Head(d, w), w, 0);
    if |r1.sent| == 0 {
      FailedStays(r1, w, 1);
    }
  }

  /** `reply'` gives the replies of `w` to the first `n` steps. */
  predicate AgreeBelow(w: World, reply': nat -> Reply, n: nat) {
    forall k :: 0 <= k < n ==> w.reply(k) == reply'(k)
  }

  /** A step reads the world only at its own place. */
  lemma StageAgree(r: Run, w: World, reply': nat -> Reply, s: Step)
    requires s.Stream? ==> s.index < |r.device.profiles|
    requires r.outcome.Success? ==> AgreeBelow(w, reply', r.steps + 1)
    ensures Stage(r, w.(reply := reply'), s) == Stage(r, w, s)
    ensures Stage(r, w, s).steps == (if r.outcome.Success? then r.steps + 1 else r.steps)
  {
    if r.outcome.Success? {
      var u := if s.Profiles? || s.Stream? then r.device.mediaUrl else None;
      assert FetchOf(w, r.steps, r.device, File(s), !s.Caps?, u, ParamOf(s, r.device)) ==
             FetchOf(w.(reply := reply'), r.steps, r.device, File(s), !s.Caps?, u, ParamOf(s, r.device));
    }
  }

  lemma {:induction false} FixedAgree(r: Run, w: World, reply': nat -> Reply, k: nat)
    requires AgreeBelow(w, reply', FixedFrom(r, w, k).steps)
    ensures FixedFrom(r, w.(reply := reply'), k) == FixedFrom(r, w, k) && FixedFrom(r, w, k).steps >= r.steps
    decreases 4 - k
  {
    if k < 4 {
      var s := [Caps, Info, Net, Profiles][k];
      var n := Stage(r, w, s);
      StageAgree(r, w, w.reply, s);
      FixedAgree(n, w, reply', k + 1);
      StageAgree(r, w, reply', s);
    }
  }

  /** One turn of the `forEach`, as the run it leaves, under `w` and, when the replies agree
      up to this step, under `reply'` too. */
  lemma StreamTurnAgree(r: Run, w: World, reply': nat -> Reply, i: nat) returns (n: Run)
    requires r.outcome.Success? && i < |r.device.profiles|
    ensures Streams(r, w, i) == Streams(n, w, i + 1) && n.steps == r.steps + 1
    ensures |n.device.profiles| == |r.device.profiles|
    ensures AgreeBelow(w, reply', r.steps + 1) ==>
      Streams(r, w.(reply := reply'), i) == Streams(n, w.(reply := reply'), i + 1)
  {
    n := Stage(r, w, Stream(i));
    StageAgree(r, w, w.reply, Stream(i));
    if AgreeBelow(w, reply', r.steps + 1) {
      StageAgree(r, w, reply', Stream(i));
    }
  }

  lemma AgreeBelowFewer(w: World, reply': nat -> Reply, a: nat, b: nat)
    requires a <= b && AgreeBelow(w, reply', b)
    ensures AgreeBelow(w, reply', a)
  {
  }

  lemma {:induction false} StreamsAgree(r: Run, w: World, reply': nat -> Reply, i: nat)
    requires AgreeBelow(w, reply', Streams(r, w, i).steps)
    ensures Streams(r, w.(reply := reply'), i) == Streams(r, w, i) && Streams(r, w, i).steps >= r.steps
    decreases |r.device.profiles| - i
  {
    StreamsSteps(r, w, i);
    if r.outcome.Success? && i < |r.device.profiles| {
      var n := StreamTurnAgree(r, w, reply', i);
      StreamsAgree(n, w, reply', i + 1);
      AgreeBelowFewer(w, reply', r.steps + 1, Streams(n, w, i + 1).steps);
    }
  }

  /** The chain consults the world only for the steps it begins: a chain that throws at step
      `k` behaves the same whatever the replies and digest inputs from step `k + 1` on, so no
      request is made after the first exception. */
  lemma LaterStepsIgnored(d: DeviceState, w: World, reply': nat -> Reply)
    requires AgreeBelow(w, reply', RunOf(d, w).steps)
    ensures RunOf(d, w.(reply := reply')) == RunOf(d, w)
  {
    var r0 := Run(d, Success, [], 0);
    HeadIsFixed(d, w);
    HeadIsFixed(d, w.(reply := reply'));
    StreamsAgree(Head(d, w), w, reply', 0);
    FixedAgree(r0, w, reply', 0);
  }
}
