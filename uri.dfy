/** `XmlDecodeUtil.getUriByTag` and its users `getStreamUri`, `getSnapshotUri` and
    `getUploadUri`: the text of an element of a given name in a Media service response. */
module UriParser {
  import opened Base
  import opened XmlPull

  /** One turn of the loop with the cursor at `i`, `uri` being the text kept so far. */
  function UriStep(evs: seq<Event>, i: nat, tag: string, uri: string): (r: Step<string>)
    requires i < |evs|
    ensures r.Next? ==> i < r.next <= |evs|
  {
    match evs[i]
    case Broken => Fail(uri, XmlPull)
    case StartTag(name, _) =>
      if name == tag then
        match NextText(evs, i)
        case Err(e) => Fail(uri, e)
        case Ok((t, j)) => Next(t, j + 1)
      else Next(uri, i + 1)
    case _ => Next(uri, i + 1)
  }

  function RunUri(evs: seq<Event>, i: nat, tag: string, uri: string): Parsed<string>
    requires i <= |evs|
    decreases |evs| - i
  {
    if i == |evs| then Parsed(uri, None)
    else
      match UriStep(evs, i, tag, uri)
      case Fail(u, e) => Parsed(u, Some(e))
      case Next(u, j) => RunUri(evs, j, tag, u)
  }

  /** What `getUriByTag(xml, tag)` returns or throws. */
  function UriByTag(evs: seq<Event>, tag: string): Result<string> {
    var p := RunUri(evs, 0, tag, "");
    if p.failure.Some? then Err(p.failure.value) else Ok(p.state)
  }

  /** `getUriByTag(xml, tag)`. */
  method GetUriByTag(evs: seq<Event>, tag: string) returns (r: Result<string>)
    ensures r == UriByTag(evs, tag)
  {
    var uri := "";
    var i := 0;
    while i < |evs|
      invariant i <= |evs|
      invariant RunUri(evs, i, tag, uri) == RunUri(evs, 0, tag, "")
      decreases |evs| - i
    {
      match evs[i]
      case Broken =>
        return Err(XmlPull);
      case StartTag(name, _) =>
        if name == tag {
          var t := NextText(evs, i);
          if t.Err? {
            return Err(t.error);
          }
          uri := t.value.0;
          i := t.value.1 + 1;
        } else {
          i := i + 1;
        }
      case EndTag(_) =>
        i := i + 1;
      case Text(_) =>
        i := i + 1;
    }
    return Ok(uri);
  }

  /** `getStreamUri(xml)`: the same loop with the tag fixed to "Uri". */
  method GetStreamUri(evs: seq<Event>) returns (r: Result<string>)
    ensures r == UriByTag(evs, "Uri")
  {
    r := GetUriByTag(evs, "Uri");
  }

  /** `getSnapshotUri(xml)`. */
  method GetSnapshotUri(evs: seq<Event>) returns (r: Result<string>)
    ensures r == UriByTag(evs, "Uri")
  {
    r := GetUriByTag(evs, "Uri");
  }

  /** `getUploadUri(xml)`. */
  method GetUploadUri(evs: seq<Event>) returns (r: Result<string>)
    ensures r == UriByTag(evs, "UploadUri")
  {
    r := GetUriByTag(evs, "UploadUri");
  }

  lemma {:induction false} RunUriMeaning(evs: seq<Event>, i: nat, tag: string, uri: string)
    requires i <= |evs|
    ensures RunUri(evs, i, tag, uri).failure.None? <==> TextsReadable(evs, i, {tag})
    ensures RunUri(evs, i, tag, uri).failure.None? ==>
      var k := LastStart(evs, tag, i);
      RunUri(evs, i, tag, uri).state == if k == -1 then uri else TextOf(evs, k)
    decreases |evs| - i
  {
    if i < |evs| {
      match UriStep(evs, i, tag, uri)
      case Fail(_, _) =>
      case Next(u, j) =>
        RunUriMeaning(evs, j, tag, u);
        if evs[i].StartTag? && evs[i].name == tag {
          TextsReadableSkip(evs, i, {tag});
          NextTextSkip(evs, i, tag);
        }
    }
  }

  /** `getUriByTag(xml, tag)` succeeds exactly when the document reads to the end and every
      element called `tag` holds plain text; it then returns the text of the last such element,
      or "" when there is none. */
  lemma UriByTagMeaning(evs: seq<Event>, tag: string)
    ensures UriByTag(evs, tag).Ok? <==> TextsReadable(evs, 0, {tag})
    ensures UriByTag(evs, tag).Ok? ==>
      var k := LastStart(evs, tag, 0);
      UriByTag(evs, tag).value == if k == -1 then "" else TextOf(evs, k)
  {
    RunUriMeaning(evs, 0, tag, "");
  }
}
