/** `OnvifUtils.getPostString`: the SOAP request text, made from a template with `String.format`
    and, for authenticated requests, a fresh WS-Security digest. */
module OnvifUtils {
  import opened Base
  import opened Beans
  import opened Nonce
  import opened Gsoap
  import opened Primitives

  // ---------------------------------------------------------------------
  // String.format, for the conversions the templates use

  /** Every `%` starts one of the conversions `%s`, `%%` or `%n`. */
  predicate WellFormed(t: string)
    decreases |t|
  {
    if |t| == 0 then true
    else if t[0] != '%' then WellFormed(t[1..])
    else |t| >= 2 && t[1] in {'s', '%', 'n'} && WellFormed(t[2..])
  }

  /** The number of `%s` conversions, each taking the next argument. */
  function Placeholders(t: string): nat
    requires WellFormed(t)
    decreases |t|
  {
    if |t| == 0 then 0
    else if t[0] != '%' then Placeholders(t[1..])
    else (if t[1] == 's' then 1 else 0) + Placeholders(t[2..])
  }

  /** Substitution of the arguments, in order; an argument too few is an error. */
  function Substitute(t: string, args: seq<string>): (r: Result<string>)
    requires WellFormed(t)
    ensures r.Ok? <==> Placeholders(t) <= |args|
    ensures r.Err? ==> r.error == MissingFormatArgument
    decreases |t|
  {
    if |t| == 0 then Ok("")
    else if t[0] != '%' then
      match Substitute(t[1..], args)
      case Ok(rest) => Ok([t[0]] + rest)
      case Err(e) => Err(e)
    else
      var piece, used := if t[1] == 's' && |args| > 0 then args[0] else if t[1] == 'n' then "\n" else "%",
                         if t[1] == 's' && |args| > 0 then 1 else 0;
      if t[1] == 's' && |args| == 0 then Err(MissingFormatArgument)
      else
        match Substitute(t[2..], args[used..])
        case Ok(rest) => Ok(piece + rest)
        case Err(e) => Err(e)
  }

  /** `String.format(t, *args)`: the whole format is checked before any argument is used; extra
      arguments are ignored. */
  function Format(t: string, args: seq<string>): (r: Result<string>)
    ensures r.Ok? <==> WellFormed(t) && Placeholders(t) <= |args|
    ensures r.Err? ==> r.error == (if WellFormed(t) then MissingFormatArgument else UnknownFormat)
  {
    if !WellFormed(t) then Err(UnknownFormat) else Substitute(t, args)
  }

  /** The text obtained by putting the arguments between the pieces of a template. */
  function Interleave(pieces: seq<string>, args: seq<string>): string
    requires |pieces| >= 1 && |args| >= |pieces| - 1
    decreases |pieces|
  {
    if |pieces| == 1 then pieces[0] else pieces[0] + args[0] + Interleave(pieces[1..], args[1..])
  }

  predicate NoPercent(s: string) {
    forall k :: 0 <= k < |s| ==> s[k] != '%'
  }

  /** `s` put before a successful result. */
  function Prepend(s: string, r: Result<string>): Result<string> {
    if r.Ok? then Ok(s + r.value) else r
  }

  /** A text without `%` passes through unchanged, whatever the arguments. */
  lemma {:induction false} FormatPlain(s: string, rest: string, args: seq<string>)
    requires NoPercent(s) && WellFormed(rest)
    ensures WellFormed(s + rest) && Placeholders(s + rest) == Placeholders(rest)
    ensures Substitute(s + rest, args) == Prepend(s, Substitute(rest, args))
    decreases |s|
  {
    if |s| == 0 {
      assert s + rest == rest;
      if Substitute(rest, args).Ok? {
        assert s + Substitute(rest, args).value == Substitute(rest, args).value;
      }
    } else {
      var t := s + rest;
      assert t[0] == s[0] && t[1..] == s[1..] + rest;
      FormatPlain(s[1..], rest, args);
      assert [s[0]] + (s[1..] + rest) == t;
      if Substitute(rest, args).Ok? {
        assert [s[0]] + (s[1..] + Substitute(rest, args).value) == s + Substitute(rest, args).value;
      }
    }
  }

  /** A template made of `%`-free pieces joined by `%s` formats to the pieces with the arguments
      put between them, in order, when there are enough arguments. */
  lemma {:induction false} FormatTemplate(pieces: seq<string>, args: seq<string>)
    requires |pieces| >= 1 && |args| >= |pieces| - 1
    requires forall i :: 0 <= i < |pieces| ==> NoPercent(pieces[i])
    ensures Format(Join(pieces, "%s"), args) == Ok(Interleave(pieces, args))
    decreases |pieces|
  {
    if |pieces| == 1 {
      FormatPlain(pieces[0], "", args);
      assert pieces[0] + "" == pieces[0];
    } else {
      var tail := pieces[1..];
      JoinCons(pieces[0], tail, "%s");
      assert pieces == [pieces[0]] + tail;
      FormatTemplate(tail, args[1..]);
      var rest := Join(tail, "%s");
      var t := "%s" + rest;
      assert t[2..] == rest && t[0] == '%' && t[1] == 's';
      assert WellFormed(rest) && Substitute(rest, args[1..]) == Ok(Interleave(tail, args[1..]));
      assert WellFormed(t);
      assert Substitute(t, args) == Ok(args[0] + Interleave(tail, args[1..]));
      FormatPlain(pieces[0], t, args);
      assert Join(pieces, "%s") == pieces[0] + t;
      assert pieces[0] + (args[0] + Interleave(tail, args[1..])) == Interleave(pieces, args);
    }
  }

  // ---------------------------------------------------------------------
  // getPostString

  /** What a `getDigest` call draws on: the library, the nonce draws and the clock reading. */
  datatype DigestSource = DigestSource(lib: Library, random: nat -> Draw, now: LocalTime)

  /** The format arguments for an authenticated request. */
  function DigestArgs(d: Digest): seq<string> {
    [d.userName, d.encodePsw, d.nonce, d.createdTime]
  }

  /** `getPostString(fileName, context, device, needDigest, *params)`: the template is the asset
      `fileName` (missing: an error); the digest is made from the device's user name and
      password. */
  function PostString(assets: map<string, string>, fileName: string, device: DeviceState, needDigest: bool,
                      params: seq<string>, src: DigestSource): Result<string>
  {
    if fileName !in assets then Err(AssetNotFound(fileName))
    else
      var postString := assets[fileName];
      if needDigest then
        match DigestOf(src.lib, device.userName, device.psw, src.random, src.now)
        case None => Ok(postString)
        case Some(digest) =>
          if |params| > 0 then Format(postString, DigestArgs(digest) + params)
          else Format(postString, [digest.userName, digest.encodePsw, digest.nonce, digest.createdTime])
      else Format(postString, params)
  }

  /** With a digest, the arguments are the user name, password digest, nonce and creation time,
      then the parameters, in that order (just the four when there are none); without one the
      template comes back unchanged; an unauthenticated request formats the parameters alone.
      The digest is built from the device's current user name and password. */
  lemma PostStringArguments(assets: map<string, string>, fileName: string, device: DeviceState, needDigest: bool,
                            params: seq<string>, src: DigestSource)
    requires fileName in assets
    ensures var r := PostString(assets, fileName, device, needDigest, params, src);
      var digest := DigestOf(src.lib, device.userName, device.psw, src.random, src.now);
      (needDigest && digest.Some? ==>
        r == Format(assets[fileName], [device.userName, digest.value.encodePsw, digest.value.nonce,
                                       digest.value.createdTime] + params) &&
        PasswordDigest(src.lib, digest.value.nonce, digest.value.createdTime, device.psw) == Some(digest.value.encodePsw)) &&
      (needDigest && digest.None? ==> r == Ok(assets[fileName])) &&
      (!needDigest ==> r == Format(assets[fileName], params))
  {
    var digest := DigestOf(src.lib, device.userName, device.psw, src.random, src.now);
    if needDigest && digest.Some? && |params| == 0 {
      assert DigestArgs(digest.value) + params == DigestArgs(digest.value);
    }
  }

  /** A template of five `%`-free pieces joined by `%s` and one parameter: the request text is
      the pieces with the user name, password digest, nonce, creation time and parameter between
      them. */
  lemma PostStringRendersTemplate(pieces: seq<string>, assets: map<string, string>, fileName: string,
                                  device: DeviceState, param: string, src: DigestSource)
    requires |pieces| == 6 && forall i :: 0 <= i < 6 ==> NoPercent(pieces[i])
    requires fileName in assets && assets[fileName] == Join(pieces, "%s")
    requires DigestOf(src.lib, device.userName, device.psw, src.random, src.now).Some?
    ensures var d := DigestOf(src.lib, device.userName, device.psw, src.random, src.now).value;
      PostString(assets, fileName, device, true, [param], src) ==
      Ok(Interleave(pieces, [device.userName, d.encodePsw, d.nonce, d.createdTime, param]))
  {
    var d := DigestOf(src.lib, device.userName, device.psw, src.random, src.now).value;
    PostStringArguments(assets, fileName, device, true, [param], src);
    assert DigestArgs(d) + [param] == [device.userName, d.encodePsw, d.nonce, d.createdTime, param];
    FormatTemplate(pieces, [device.userName, d.encodePsw, d.nonce, d.createdTime, param]);
  }
}
