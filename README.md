# ONVIF client data handling, in Dafny

This project models the data-handling core of an Android ONVIF client library, and proves properties of the model:

- how the client reads SOAP responses into a device record;
- how it assembles requests and their WS-Security password digest;
- how it chains the requests that fill a discovered device in;
- how it looks up default credentials and guards its discovery run;
- how it builds an HTTP Digest `Authorization` header (section 3.2.2 of RFC 2617).

Sockets, coroutines and the Android UI are not modelled.

Each response parser (`XmlDecodeUtil`) is a loop over pull-parser events.
- Its input is a sequence of `Event`s. `Broken` marks where the tokenizer throws.
- `nextText()` and `nextTag()` are moves of a cursor over that sequence.
- Each parser has three parts:
  - a step function, saying what one turn of the loop does;
  - a run function over the whole sequence;
  - a method with the loop itself, proved equal to the run function.
- Lemmas state what the run function means: which fields change, last element wins, when an exception is thrown.

The loops do not handle every event, because the calls inside a turn move the cursor on. Two consequences are stated as lemmas:
- In `getCapabilitiesUrl`, the `nextTag()` after a service tag moves past the tag it lands on. A service element nested directly in another is never read (`Capabilities.NestedSlotSkipped`).
- In `getMediaProfiles`, the `next()` after a `Profiles` start tag moves past the event that follows it. A `Profiles` element without children is created but never listed, because its end tag is the event skipped (`MediaProfiles.EmptyProfileDropped`). ONVIF requires a `Name` child in every profile, so a conforming reply does not hit this.

The device record (`OnvifDevice`) is a class whose fields the parsers write in place. `State()` gives its value as a `DeviceState`.

The `GetDeviceInfo` chain is a method over a scripted world. The world gives:
- the request templates;
- the clock and random draws each request's digest uses;
- the reply to each request, either the body's events or the exception `postRequest` throws.

A function `RunOf` says what the chain does. Lemmas about `RunOf` cover the order of the requests, success, abort and no-rollback.

SHA-1, MD5, Base64 and UTF-8 are function values in a `Library` record. Randomness and the clock are parameters.

Files, one module each:
- `base.dfy`: Kotlin string helpers and `toInt`.
- `xml_pull.dfy`: the event model.
- `beans.dfy`: the device record.
- `probe_match.dfy`, `capabilities.dfy`, `device_information.dfy`, `network_interface.dfy`, `media_profiles.dfy`, `uri.dfy`: the parsers.
- `primitives.dfy`: the library calls.
- `md5_util.dfy`: hex encoding.
- `nonce.dfy` and `gsoap.dfy`: the WS-Security UsernameToken digest (section 3.1 of the OASIS UsernameToken Profile 1.0).
- `onvif_utils.dfy`: request assembly.
- `http_util.dfy`: the HTTP Digest helpers.
- `client.dfy`: the credential table and the discovery flag.
- `get_device_info.dfy`: the request chain.

## Model

| member | source | states |
|---|---|---|
| Base.ToInt | OnvifDiscoveryKit/src/main/java/com/xaye/onvifdiscoverykit/utils/XmlDecodeUtil.kt:330 | `toInt()` succeeds only with a 32-bit value and throws NumberFormatException naming the text otherwise, always on the empty text |
| Base.DigitFromRuns | OnvifDiscoveryKit/src/main/java/com/xaye/onvifdiscoverykit/utils/XmlDecodeUtil.kt:330 | `Character.digit(c, 10)`, which `toInt()` applies to each digit, gives a value exactly for the characters in one of the runs of ten Unicode decimal digits, the value being the character's distance from its run's zero |
| Base.DecimalToInt | OnvifDiscoveryKit/src/main/java/com/xaye/onvifdiscoverykit/utils/XmlDecodeUtil.kt:330 | every non-negative 32-bit value written in ASCII decimal reads back as itself |
| Base.AsciiParsedValue | OnvifDiscoveryKit/src/main/java/com/xaye/onvifdiscoverykit/utils/XmlDecodeUtil.kt:330 | on ASCII digits the value `toInt()` reads is the ordinary decimal value |
| Base.NoDigitNoInt | OnvifDiscoveryKit/src/main/java/com/xaye/onvifdiscoverykit/utils/XmlDecodeUtil.kt:330 | a text without a decimal digit of any script never parses as a number |
| Base.ArabicIndicThree | OnvifDiscoveryKit/src/main/java/com/xaye/onvifdiscoverykit/utils/XmlDecodeUtil.kt:330 | a digit of another script counts: `٣` (U+0663) reads as 3 |
| Base.JoinSplit | OnvifDiscoveryKit/src/main/java/com/xaye/onvifdiscoverykit/utils/XmlDecodeUtil.kt:36 | `split(" ")` loses nothing: joining the parts with the delimiter gives back the text |
| Base.BeforeFirst | OnvifDiscoveryKit/src/main/java/com/xaye/onvifdiscoverykit/bean/OnvifDevice.kt:45 | `substringBefore(d)` keeps a text free of `d` that is followed by `d` or by the end |
| Base.ReplaceAbsent | OnvifDiscoveryKit/src/main/java/com/xaye/onvifdiscoverykit/utils/XmlDecodeUtil.kt:63 | `replace("%20", " ")` changes nothing where `%20` does not occur |
| Base.Trim | OnvifDiscoveryKit/src/main/java/com/xaye/onvifdiscoverykit/onvif/Gsoap.kt:37 | `trim { it <= ' ' }` returns a slice of its input that neither starts nor ends with a character at or below the space |
| Base.ContainsIff | OnvifDiscoveryKit/src/main/java/com/xaye/onvifdiscoverykit/OnvifClient.kt:114 | `contains` holds exactly when the key occurs at some position |
| XmlPull.NextText | OnvifDiscoveryKit/src/main/java/com/xaye/onvifdiscoverykit/utils/XmlDecodeUtil.kt:35 | `nextText()` returns the text (or "") of an element holding only text and leaves the cursor on its end tag; in every other position it throws |
| XmlPull.NextTag | OnvifDiscoveryKit/src/main/java/com/xaye/onvifdiscoverykit/utils/XmlDecodeUtil.kt:83-84 | `nextTag()` moves to the next start or end tag, skipping only whitespace text; otherwise it throws |
| XmlPull.AttributeValue | OnvifDiscoveryKit/src/main/java/com/xaye/onvifdiscoverykit/utils/XmlDecodeUtil.kt:262 | `getAttributeValue(null, name)` looks from the last attribute back: when the last attribute has the name, its value is the result |
| XmlPull.AttributeValueLast | OnvifDiscoveryKit/src/main/java/com/xaye/onvifdiscoverykit/utils/XmlDecodeUtil.kt:262 | the result is null exactly when no attribute has the name, and otherwise the value of an attribute with that name after which no attribute has it, so `a:token="1" b:token="2"` gives "2" |
| XmlPull.FirstAttributeValue | OnvifDiscoveryKit/src/main/java/com/xaye/onvifdiscoverykit/utils/XmlDecodeUtil.kt:372 | `getAttributeValue(0)` is the first attribute's value whatever its name, and throws exactly when the element has none |
| Beans.AddressIsHostPart | OnvifDiscoveryKit/src/main/java/com/xaye/onvifdiscoverykit/bean/OnvifDevice.kt:42-46 | the derived address is the slice of the URL from after the first `//` (from the start when there is none) up to the first `/on` after it (to the end when there is none), and holds no `/on` |
| Beans.HttpAddress | OnvifDiscoveryKit/src/main/java/com/xaye/onvifdiscoverykit/bean/OnvifDevice.kt:45 | for `http://host/on...` with a host free of `/` the address is the host, a port included |
| Beans.AddressExample | OnvifDiscoveryKit/src/main/java/com/xaye/onvifdiscoverykit/bean/OnvifDevice.kt:45 | `http://10.0.0.5/onvif/device_service` gives `10.0.0.5` |
| Beans.AddressWithoutSeparators | OnvifDiscoveryKit/src/main/java/com/xaye/onvifdiscoverykit/bean/OnvifDevice.kt:45 | with neither `//` nor `/on` the whole string is the address |
| Beans.OnvifDevice.constructor | OnvifDiscoveryKit/src/main/java/com/xaye/onvifdiscoverykit/bean/OnvifDevice.kt:12-38 | a fresh record has empty user name and password, no profiles and null in every other field |
| Beans.OnvifDevice.SetServiceUrl | OnvifDiscoveryKit/src/main/java/com/xaye/onvifdiscoverykit/bean/OnvifDevice.kt:42-46 | the setter stores the value and sets `ipAddress` to the address derived from it (null for null); no other field changes |
| Beans.OnvifDevice.AddProfiles | OnvifDiscoveryKit/src/main/java/com/xaye/onvifdiscoverykit/bean/OnvifDevice.kt:48-51 | `addProfiles(ps)` makes the profile list equal to `ps`, element for element, and changes no other field |
| ProbeMatch.ManufacturerFromScopes | OnvifDiscoveryKit/src/main/java/com/xaye/onvifdiscoverykit/utils/XmlDecodeUtil.kt:57-66 | the result is null exactly when the scopes are null or lack `onvif://www.onvif.org/name/` |
| ProbeMatch.ManufacturerMeaning | OnvifDiscoveryKit/src/main/java/com/xaye/onvifdiscoverykit/utils/XmlDecodeUtil.kt:57-66 | otherwise it is the text from the end of the first such prefix to the next space (or the end), with every `%20` replaced by a space |
| ProbeMatch.LeadingNameScope | OnvifDiscoveryKit/src/main/java/com/xaye/onvifdiscoverykit/utils/XmlDecodeUtil.kt:57-66 | a scope list starting with the name scope gives its name, unchanged when it holds no `%20` |
| ProbeMatch.GetDeviceInfo | OnvifDiscoveryKit/src/main/java/com/xaye/onvifdiscoverykit/utils/XmlDecodeUtil.kt:23-52 | `getDeviceInfo(xml)` returns a new device whose state is what the parse writes, or throws the parse's exception |
| ProbeMatch.ProbeSucceedsIff | OnvifDiscoveryKit/src/main/java/com/xaye/onvifdiscoverykit/utils/XmlDecodeUtil.kt:23-52 | the parse ends without an exception exactly when the tokenizer never fails and every `XAddrs`, `MessageID` and `Scopes` element holds only text |
| ProbeMatch.ProbeFrame | OnvifDiscoveryKit/src/main/java/com/xaye/onvifdiscoverykit/utils/XmlDecodeUtil.kt:23-52 | only `serviceUrl`, `ipAddress`, `uuid` and `manufacturer` are written, and `ipAddress` stays the address derived from `serviceUrl` |
| ProbeMatch.ProbeServiceUrlLastWins | OnvifDiscoveryKit/src/main/java/com/xaye/onvifdiscoverykit/utils/XmlDecodeUtil.kt:34-38 | `serviceUrl` is the first space-separated token of the last `XAddrs` text; unchanged when there is none |
| ProbeMatch.ProbeUuidLastWins | OnvifDiscoveryKit/src/main/java/com/xaye/onvifdiscoverykit/utils/XmlDecodeUtil.kt:39-41 | `uuid` is the text of the last `MessageID`, verbatim; unchanged when there is none |
| ProbeMatch.ProbeManufacturerLastWins | OnvifDiscoveryKit/src/main/java/com/xaye/onvifdiscoverykit/utils/XmlDecodeUtil.kt:42-45 | `manufacturer` comes from the last `Scopes` element that holds a name scope; scopes without one leave it untouched |
| Capabilities.GetCapabilitiesUrl | OnvifDiscoveryKit/src/main/java/com/xaye/onvifdiscoverykit/utils/XmlDecodeUtil.kt:72-107 | the loop writes the device and reports an exception exactly as the step function `CapsStep`, run over the events, says |
| Capabilities.SetServiceUrl | OnvifDiscoveryKit/src/main/java/com/xaye/onvifdiscoverykit/utils/XmlDecodeUtil.kt:81-101 | the `XAddr` text goes into the field of its capability and every other field of the device stays as it was |
| Capabilities.CapsFrame | OnvifDiscoveryKit/src/main/java/com/xaye/onvifdiscoverykit/utils/XmlDecodeUtil.kt:81-102 | no device field other than the media, PTZ, events, analytics and imaging addresses changes, whether the parse ends normally or throws |
| Capabilities.CapsOnlyFromXAddr | OnvifDiscoveryKit/src/main/java/com/xaye/onvifdiscoverykit/utils/XmlDecodeUtil.kt:81-102 | a service address changes only to the text of an `XAddr` that is the next tag after a start tag of that service |
| Capabilities.CapsTakesLastXAddr | OnvifDiscoveryKit/src/main/java/com/xaye/onvifdiscoverykit/utils/XmlDecodeUtil.kt:81-102 | a run started at a start tag of a service whose next tag is `XAddr`, with no later such pair for that service, ends normally with that `XAddr`'s text as the service's address |
| Capabilities.RunTakesLastXAddr | OnvifDiscoveryKit/src/main/java/com/xaye/onvifdiscoverykit/utils/XmlDecodeUtil.kt:77-104 | a parse that visits the last `XAddr` slot of a service and ends normally leaves that slot's text as the service's address |
| Capabilities.NestedSlotSkipped | OnvifDiscoveryKit/src/main/java/com/xaye/onvifdiscoverykit/utils/XmlDecodeUtil.kt:81-104 | the loop does not visit every start tag: in `<Media><PTZ><XAddr>a</XAddr></PTZ></Media>` the `nextTag()` after `Media` lands on `PTZ`, the loop resumes after it, and no address is written |
| DeviceInformation.GetDeviceInformation | OnvifDiscoveryKit/src/main/java/com/xaye/onvifdiscoverykit/utils/XmlDecodeUtil.kt:113-132 | the loop writes the device and reports an exception exactly as the step function `InfoStep`, run over the events, says |
| DeviceInformation.InfoFrame | OnvifDiscoveryKit/src/main/java/com/xaye/onvifdiscoverykit/utils/XmlDecodeUtil.kt:122-127 | only firmwareVersion, serialNumber, manufacturer and model are written |
| DeviceInformation.InfoSucceedsIff | OnvifDiscoveryKit/src/main/java/com/xaye/onvifdiscoverykit/utils/XmlDecodeUtil.kt:113-132 | the parse ends normally exactly when the tokenizer never fails and each of the four elements holds only text |
| DeviceInformation.InfoLastWins | OnvifDiscoveryKit/src/main/java/com/xaye/onvifdiscoverykit/utils/XmlDecodeUtil.kt:122-127 | each of the four fields is the text of the last element of its name; unchanged when there is none |
| NetworkInterfaces.GetNetworkInterface | OnvifDiscoveryKit/src/main/java/com/xaye/onvifdiscoverykit/utils/XmlDecodeUtil.kt:179-232 | attaches a new record when the device has none, otherwise fills the existing one, exactly as the step function `NetStep` says; partial writes stay on an exception |
| NetworkInterfaces.NetStepTracksCtx | OnvifDiscoveryKit/src/main/java/com/xaye/onvifdiscoverykit/utils/XmlDecodeUtil.kt:210-224 | the context after each step is the last `IPv4`/`IPv6` start tag so far; no end tag clears it |
| NetworkInterfaces.PrefixOnlyUnderIPv4 | OnvifDiscoveryKit/src/main/java/com/xaye/onvifdiscoverykit/utils/XmlDecodeUtil.kt:214-220 | the prefix length only ever takes the text of a `PrefixLength` whose most recent `IPv4`/`IPv6` start tag was `IPv4` |
| NetworkInterfaces.NetLastWins | OnvifDiscoveryKit/src/main/java/com/xaye/onvifdiscoverykit/utils/XmlDecodeUtil.kt:200-209 | the token is the `token` attribute of the last `NetworkInterfaces` start tag (null when it has none), the MTU the last `MTU` text |
| NetworkInterfaces.NetRecordKept | OnvifDiscoveryKit/src/main/java/com/xaye/onvifdiscoverykit/utils/XmlDecodeUtil.kt:180-184 | without any of those elements an existing record is kept, not replaced |
| MediaProfiles.ProfilesStart | OnvifDiscoveryKit/src/main/java/com/xaye/onvifdiscoverykit/utils/XmlDecodeUtil.kt:259-268 | a `Profiles` start tag creates a new current profile holding its `token`; its `Name` is taken only when the very next event is a `Name` start tag |
| MediaProfiles.IntAttribute | OnvifDiscoveryKit/src/main/java/com/xaye/onvifdiscoverykit/utils/XmlDecodeUtil.kt:320-323 | a missing `height`/`width` attribute counts as 0, a present one goes through `toInt()` |
| MediaProfiles.IntLeafStep | OnvifDiscoveryKit/src/main/java/com/xaye/onvifdiscoverykit/utils/XmlDecodeUtil.kt:326-346 | `Width`/`Height`/`FrameRateLimit`/`Bitrate`/`SampleRate` always read their text; under their own context and with a current profile a non-numeric text throws, outside it nothing changes |
| MediaProfiles.TextLeafStep | OnvifDiscoveryKit/src/main/java/com/xaye/onvifdiscoverykit/utils/XmlDecodeUtil.kt:293-316 | `Name`/`UseCount`/`SourceToken`/`NodeToken` read their text only under their context, `Encoding` always; outside it nothing changes |
| MediaProfiles.BoundsStep | OnvifDiscoveryKit/src/main/java/com/xaye/onvifdiscoverykit/utils/XmlDecodeUtil.kt:317-325 | `Bounds` sets height and width of the current video source only under the video-source context, and throws exactly when one of them does not parse |
| MediaProfiles.ConfigStart | OnvifDiscoveryKit/src/main/java/com/xaye/onvifdiscoverykit/utils/XmlDecodeUtil.kt:269-292 | each configuration start tag sets its context and its token on the current profile; the PTZ token is the first attribute whatever its name, and an element with none throws |
| MediaProfiles.EndStep | OnvifDiscoveryKit/src/main/java/com/xaye/onvifdiscoverykit/utils/XmlDecodeUtil.kt:384-391 | a `Profiles` end tag appends the current profile; only the two encoder and the PTZ configuration end tags clear the context |
| MediaProfiles.MediaStep | OnvifDiscoveryKit/src/main/java/com/xaye/onvifdiscoverykit/utils/XmlDecodeUtil.kt:254-395 | per event: a profile is created only at a `Profiles` start tag, listed only at a `Profiles` end tag, the context reset only by the three configuration end tags, and a leaf outside its context changes nothing |
| MediaProfiles.RunMedia | OnvifDiscoveryKit/src/main/java/com/xaye/onvifdiscoverykit/utils/XmlDecodeUtil.kt:254-395 | every listed profile is one already created, in non-decreasing order |
| MediaProfiles.StartProfile | OnvifDiscoveryKit/src/main/java/com/xaye/onvifdiscoverykit/utils/XmlDecodeUtil.kt:259-268 | the `Profiles` branch computes exactly what `ProfilesStart` says |
| MediaProfiles.StartConfig | OnvifDiscoveryKit/src/main/java/com/xaye/onvifdiscoverykit/utils/XmlDecodeUtil.kt:269-292 | the configuration branches compute exactly what `ConfigStart` says |
| MediaProfiles.ReadIntLeaf | OnvifDiscoveryKit/src/main/java/com/xaye/onvifdiscoverykit/utils/XmlDecodeUtil.kt:326-369 | the integer-leaf branches compute exactly what `IntLeafStep` says |
| MediaProfiles.ReadTextLeaf | OnvifDiscoveryKit/src/main/java/com/xaye/onvifdiscoverykit/utils/XmlDecodeUtil.kt:293-316 | the text-leaf branches compute exactly what `TextLeafStep` says |
| MediaProfiles.ReadBounds | OnvifDiscoveryKit/src/main/java/com/xaye/onvifdiscoverykit/utils/XmlDecodeUtil.kt:317-325 | the `Bounds` branch computes exactly what `BoundsStep` says |
| MediaProfiles.ReadStartTag | OnvifDiscoveryKit/src/main/java/com/xaye/onvifdiscoverykit/utils/XmlDecodeUtil.kt:257-382 | the START_TAG branches of the loop compute exactly what `MediaStep` says for that event |
| MediaProfiles.CloseTag | OnvifDiscoveryKit/src/main/java/com/xaye/onvifdiscoverykit/utils/XmlDecodeUtil.kt:384-392 | the END_TAG branch appends the current profile at `Profiles` and clears the context at the three configuration end tags, as `EndStep` says |
| MediaProfiles.Turn | OnvifDiscoveryKit/src/main/java/com/xaye/onvifdiscoverykit/utils/XmlDecodeUtil.kt:255-395 | one turn of the loop computes exactly what `MediaStep` says for the event under the cursor |
| MediaProfiles.GetMediaProfiles | OnvifDiscoveryKit/src/main/java/com/xaye/onvifdiscoverykit/utils/XmlDecodeUtil.kt:241-397 | returns the list of profiles, or the exception, that `RunMedia` gives over the events |
| MediaProfiles.ProfilesAtMostEndTags | OnvifDiscoveryKit/src/main/java/com/xaye/onvifdiscoverykit/utils/XmlDecodeUtil.kt:384-387 | no more profiles are returned than there are `Profiles` end tags |
| MediaProfiles.ProfilesInDocumentOrder | OnvifDiscoveryKit/src/main/java/com/xaye/onvifdiscoverykit/utils/XmlDecodeUtil.kt:241-397 | after a normal parse one profile exists per `Profiles` start tag the loop handled, and each returned profile carries the `token` of its start tag, the start tags of the returned profiles coming in document order |
| MediaProfiles.ArrivalProfiles | OnvifDiscoveryKit/src/main/java/com/xaye/onvifdiscoverykit/utils/XmlDecodeUtil.kt:259-263 | on the way to any cursor the loop visits, one profile is created per `Profiles` start tag handled, with that tag's `token`; earlier profiles keep theirs and the list only grows |
| MediaProfiles.EndTagAppends | OnvifDiscoveryKit/src/main/java/com/xaye/onvifdiscoverykit/utils/XmlDecodeUtil.kt:384-387 | from a `Profiles` end tag with a current profile, a normal run keeps that profile at the next place of the list, with its token |
| MediaProfiles.EndTagListsLatestProfile | OnvifDiscoveryKit/src/main/java/com/xaye/onvifdiscoverykit/utils/XmlDecodeUtil.kt:384-387 | a `Profiles` end tag the loop handles after a `Profiles` start tag puts the profile of the most recent such start tag, with its `token`, at the next place of the returned list |
| MediaProfiles.EmptyProfileDropped | OnvifDiscoveryKit/src/main/java/com/xaye/onvifdiscoverykit/utils/XmlDecodeUtil.kt:259-264 | `<Profiles token="a"></Profiles>` gives an empty list: the `next()` after the start tag consumes the end tag |
| UriParser.GetUriByTag | OnvifDiscoveryKit/src/main/java/com/xaye/onvifdiscoverykit/utils/XmlDecodeUtil.kt:449-473 | the loop returns what `UriByTag` says |
| UriParser.GetStreamUri | OnvifDiscoveryKit/src/main/java/com/xaye/onvifdiscoverykit/utils/XmlDecodeUtil.kt:403-427 | `getStreamUri` returns what `UriByTag(evs, "Uri")` says |
| UriParser.GetSnapshotUri | OnvifDiscoveryKit/src/main/java/com/xaye/onvifdiscoverykit/utils/XmlDecodeUtil.kt:433-435 | `getSnapshotUri` is `UriByTag` with `Uri` |
| UriParser.GetUploadUri | OnvifDiscoveryKit/src/main/java/com/xaye/onvifdiscoverykit/utils/XmlDecodeUtil.kt:441-443 | `getUploadUri` is `UriByTag` with `UploadUri` |
| UriParser.RunUriMeaning | OnvifDiscoveryKit/src/main/java/com/xaye/onvifdiscoverykit/utils/XmlDecodeUtil.kt:459-471 | from any position, the loop ends normally exactly when every element of the tag holds only text, and then its result is the text of the last one, or the value it started with |
| UriParser.UriByTagMeaning | OnvifDiscoveryKit/src/main/java/com/xaye/onvifdiscoverykit/utils/XmlDecodeUtil.kt:449-473 | the result is the text of the last element of that name, "" when there is none; it throws exactly when one of them is not plain text or the tokenizer fails |
| Md5Util.Unsigned | OnvifDiscoveryKit/src/main/java/com/xaye/onvifdiscoverykit/utils/MD5Util.kt:31-34 | `n = b`, plus 256 when negative, lies in 0..255 and differs from `b` by 0 or 256 |
| Md5Util.SignedUnsigned | OnvifDiscoveryKit/src/main/java/com/xaye/onvifdiscoverykit/utils/MD5Util.kt:31-34 | the unsigned value determines the byte |
| Md5Util.ByteToHex | OnvifDiscoveryKit/src/main/java/com/xaye/onvifdiscoverykit/utils/MD5Util.kt:30-38 | two lower-case hex digits whose value is the unsigned byte |
| Md5Util.ByteToHexExamples | OnvifDiscoveryKit/src/main/java/com/xaye/onvifdiscoverykit/utils/MD5Util.kt:30-38 | byte -1 gives `ff`, 0 gives `00`, -128 gives `80` |
| Md5Util.HexOf | OnvifDiscoveryKit/src/main/java/com/xaye/onvifdiscoverykit/utils/MD5Util.kt:17-23 | the encoding is lower-case hex of length twice the byte count |
| Md5Util.ByteArrayToHex | OnvifDiscoveryKit/src/main/java/com/xaye/onvifdiscoverykit/utils/MD5Util.kt:17-23 | the loop returns the concatenation `HexOf` describes |
| Md5Util.UnhexHexOf | OnvifDiscoveryKit/src/main/java/com/xaye/onvifdiscoverykit/utils/MD5Util.kt:17-38 | decoding each pair of characters gives back the bytes |
| Md5Util.HexOfInjective | OnvifDiscoveryKit/src/main/java/com/xaye/onvifdiscoverykit/utils/MD5Util.kt:17-38 | different byte arrays never share an encoding |
| Md5Util.Md5Of | OnvifDiscoveryKit/src/main/java/com/xaye/onvifdiscoverykit/utils/MD5Util.kt:45-54 | the input unchanged when MD5 is unavailable, otherwise lower-case hex twice as long as the digest of the UTF-8 bytes, which decodes back to that digest |
| Md5Util.Md5Encode | OnvifDiscoveryKit/src/main/java/com/xaye/onvifdiscoverykit/utils/MD5Util.kt:45-54 | `MD5Encode` returns what `Md5Of` says |
| Nonce.NonceOf | OnvifDiscoveryKit/src/main/java/com/xaye/onvifdiscoverykit/onvif/Gsoap.kt:51-54 | the nonce has 32 characters, the `k`-th being the alphabet entry of the `k`-th random draw |
| Nonce.CharsExamples | OnvifDiscoveryKit/src/main/java/com/xaye/onvifdiscoverykit/onvif/Gsoap.kt:52 | the alphabet is `0-9`, then `a-z`, then `A-Z` |
| Nonce.CharsAreAlphanumeric | OnvifDiscoveryKit/src/main/java/com/xaye/onvifdiscoverykit/onvif/Gsoap.kt:52 | every alphabet entry is a digit or an ASCII letter |
| Nonce.NonceIsAlphanumeric | OnvifDiscoveryKit/src/main/java/com/xaye/onvifdiscoverykit/onvif/Gsoap.kt:52-53 | every nonce character is a digit or an ASCII letter |
| Nonce.EveryNonceReachable | OnvifDiscoveryKit/src/main/java/com/xaye/onvifdiscoverykit/onvif/Gsoap.kt:51-54 | every 32-character alphanumeric string is the nonce of some draws |
| Gsoap.GetNonce | OnvifDiscoveryKit/src/main/java/com/xaye/onvifdiscoverykit/onvif/Gsoap.kt:51-54 | 32 alphanumeric characters |
| Gsoap.Hour12 | OnvifDiscoveryKit/src/main/java/com/xaye/onvifdiscoverykit/onvif/Gsoap.kt:21 | the `hh` field lies in 1..12 |
| Gsoap.PaddedValue | OnvifDiscoveryKit/src/main/java/com/xaye/onvifdiscoverykit/onvif/Gsoap.kt:21 | a zero-padded field reads back as its number and has the pattern width when the number fits |
| Gsoap.CreatedTimeFields | OnvifDiscoveryKit/src/main/java/com/xaye/onvifdiscoverykit/onvif/Gsoap.kt:21 | the creation time is 20 characters `yyyy-MM-ddThh:mm:ssZ` whose fields read back as year, month, day, 12-hour hour, minute and second, with a literal `Z` |
| Gsoap.CreatedTimeTwelveHoursApart | OnvifDiscoveryKit/src/main/java/com/xaye/onvifdiscoverykit/onvif/Gsoap.kt:21 | two times twelve hours apart on the same day have the same creation time |
| Gsoap.MessageDigest.constructor | OnvifDiscoveryKit/src/main/java/com/xaye/onvifdiscoverykit/onvif/Gsoap.kt:24 | a fresh SHA-1 digest has seen no input |
| Gsoap.MessageDigest.Update | OnvifDiscoveryKit/src/main/java/com/xaye/onvifdiscoverykit/onvif/Gsoap.kt:30-32 | `update` appends its bytes to the input |
| Gsoap.MessageDigest.Digest | OnvifDiscoveryKit/src/main/java/com/xaye/onvifdiscoverykit/onvif/Gsoap.kt:35 | `digest()` hashes everything fed so far and resets |
| Gsoap.GetDigest | OnvifDiscoveryKit/src/main/java/com/xaye/onvifdiscoverykit/onvif/Gsoap.kt:19-44 | `getDigest` returns what `DigestOf` says |
| Gsoap.DigestProperties | OnvifDiscoveryKit/src/main/java/com/xaye/onvifdiscoverykit/onvif/Gsoap.kt:19-44 | null exactly when SHA-1 is unavailable or the nonce does not decode; otherwise the raw nonce, the hashed time string, the user name unchanged and the trimmed Base64 of SHA-1 over the decoded nonce, the time and the password, in that order |
| OnvifUtils.Substitute | OnvifDiscoveryKit/src/main/java/com/xaye/onvifdiscoverykit/onvif/OnvifUtils.kt:42 | with a well-formed template, substitution succeeds exactly when there are at least as many arguments as `%s`, and throws MissingFormatArgumentException otherwise |
| OnvifUtils.Format | OnvifDiscoveryKit/src/main/java/com/xaye/onvifdiscoverykit/onvif/OnvifUtils.kt:42-51 | `String.format` succeeds exactly when the template is well formed and has enough arguments; the exception otherwise |
| OnvifUtils.FormatTemplate | OnvifDiscoveryKit/src/main/java/com/xaye/onvifdiscoverykit/onvif/OnvifUtils.kt:42 | a template of `%`-free pieces joined by `%s` comes out as the pieces with the arguments in between, in order |
| OnvifUtils.PostStringArguments | OnvifDiscoveryKit/src/main/java/com/xaye/onvifdiscoverykit/onvif/OnvifUtils.kt:30-52 | with a digest the arguments are user name, password digest, nonce and creation time, then the parameters; with a null digest the template unchanged; without digest the parameters alone; the digest is built from the device's user name and password |
| OnvifUtils.PostStringRendersTemplate | OnvifDiscoveryKit/src/main/java/com/xaye/onvifdiscoverykit/onvif/OnvifUtils.kt:33-42 | a template with five `%s` and one parameter gives the pieces with user name, password digest, nonce, time and parameter in between |
| HttpUtil.MatchAtIff | OnvifDiscoveryKit/src/main/java/com/xaye/onvifdiscoverykit/utils/HttpUtil.kt:134-136 | the pattern `key="(.*?)"` matches at a position with group `v` exactly when `key="`, then `v` free of quotes and line breaks, then `"` start there |
| HttpUtil.FindMeaning | OnvifDiscoveryKit/src/main/java/com/xaye/onvifdiscoverykit/utils/HttpUtil.kt:143-151 | `find()` gives the value of the first position where the pattern matches, or nothing when it matches nowhere |
| HttpUtil.NonceInsideCnonce | OnvifDiscoveryKit/src/main/java/com/xaye/onvifdiscoverykit/utils/HttpUtil.kt:136 | the `nonce` pattern also matches inside `cnonce="..."` |
| HttpUtil.ParseAuthHeaders | OnvifDiscoveryKit/src/main/java/com/xaye/onvifdiscoverykit/utils/HttpUtil.kt:133-155 | the loop returns what `ChallengeOf` says |
| HttpUtil.AuthValueMeaning | OnvifDiscoveryKit/src/main/java/com/xaye/onvifdiscoverykit/utils/HttpUtil.kt:142-154 | each value is the first match in the last header that matches, "" when no header does |
| HttpUtil.Md5DataFields | OnvifDiscoveryKit/src/main/java/com/xaye/onvifdiscoverykit/utils/HttpUtil.kt:203-205 | `createMd5Data` joins its arguments with `:` in order: splitting on `:` gives them back |
| HttpUtil.ResponseComposition | OnvifDiscoveryKit/src/main/java/com/xaye/onvifdiscoverykit/utils/HttpUtil.kt:175-181 | the response digest is MD5 over `HA1:nonce:00000001:cnonce:qop:HA2`, with HA1 the MD5 of `user:realm:psd` and HA2 the MD5 of `method:uri`, all lower-case hex |
| HttpUtil.AuthorizationHeaderParams | OnvifDiscoveryKit/src/main/java/com/xaye/onvifdiscoverykit/utils/HttpUtil.kt:219-224 | the header is `Digest ` then eight `name=value` fields separated by commas, in the order username, realm, nonce, uri, cnonce, nc, response, qop; `nc` is unquoted |
| HttpUtil.GenerateNonce | OnvifDiscoveryKit/src/main/java/com/xaye/onvifdiscoverykit/utils/HttpUtil.kt:230-239 | the loop returns 32 alphanumeric characters, one per draw |
| HttpUtil.DigestAuthorization | OnvifDiscoveryKit/src/main/java/com/xaye/onvifdiscoverykit/utils/HttpUtil.kt:171-182 | `digestHttp` builds the header `AuthorizationOf` gives from a fresh client nonce |
| HttpUtil.UriPathAfterHost | OnvifDiscoveryKit/src/main/java/com/xaye/onvifdiscoverykit/utils/HttpUtil.kt:119 | for an `http://` URL whose host starts with a digit, the digest URI is the URL text after the host, so a port stays in it |
| HttpUtil.UriPathHostInScheme | OnvifDiscoveryKit/src/main/java/com/xaye/onvifdiscoverykit/utils/HttpUtil.kt:119 | a host that also occurs inside `http://` is found there first: `http://tp/a` with host `tp` gives `://tp/a` |
| Client.Get | OnvifDiscoveryKit/src/main/java/com/xaye/onvifdiscoverykit/OnvifClient.kt:29-32 | a key has an entry exactly when it is one of the table's keys |
| Client.FirstMatch | OnvifDiscoveryKit/src/main/java/com/xaye/onvifdiscoverykit/OnvifClient.kt:113-117 | the index of the first key, in insertion order, contained in the lower-cased manufacturer; none exactly when no key is |
| Client.PutGet | OnvifDiscoveryKit/src/main/java/com/xaye/onvifdiscoverykit/OnvifClient.kt:129-131 | after a put the key maps to the new pair and every other key keeps its pair |
| Client.PutKeys | OnvifDiscoveryKit/src/main/java/com/xaye/onvifdiscoverykit/OnvifClient.kt:129-131 | an existing key keeps its place; a new key goes after all others |
| Client.PutDistinct | OnvifDiscoveryKit/src/main/java/com/xaye/onvifdiscoverykit/OnvifClient.kt:129-131 | keys stay distinct |
| Client.PutKeepsKeys | OnvifDiscoveryKit/src/main/java/com/xaye/onvifdiscoverykit/OnvifClient.kt:129-131 | keys stay distinct and lower-case when stored under `lowercase()` |
| Client.LowerTwice | OnvifDiscoveryKit/src/main/java/com/xaye/onvifdiscoverykit/OnvifClient.kt:110-130 | lower-casing twice is lower-casing once |
| Client.OnlyOwnKeyMatches | OnvifDiscoveryKit/src/main/java/com/xaye/onvifdiscoverykit/OnvifClient.kt:113-130 | when no other key occurs in a manufacturer name, after storing it the only key that matches is its own |
| Client.SetThenGet | OnvifDiscoveryKit/src/main/java/com/xaye/onvifdiscoverykit/OnvifClient.kt:109-131 | then `getCredentials` returns the pair just stored |
| Client.LowerHikvisionModel | OnvifDiscoveryKit/src/main/java/com/xaye/onvifdiscoverykit/OnvifClient.kt:110 | `HIKVISION-DS2` lower-cases to `hikvision-ds2` |
| Client.InitialTableLookups | OnvifDiscoveryKit/src/main/java/com/xaye/onvifdiscoverykit/OnvifClient.kt:29-35 | `HIKVISION-DS2` gives (admin, qwer123456); a name matching no key gives the default (admin, 123456) |
| Client.LaterKeyShadowed | OnvifDiscoveryKit/src/main/java/com/xaye/onvifdiscoverykit/OnvifClient.kt:113-130 | a key stored later is shadowed by an earlier key it contains |
| Client.EmptyKeyMatchesEverything | OnvifDiscoveryKit/src/main/java/com/xaye/onvifdiscoverykit/OnvifClient.kt:113-117 | an empty key matches every manufacturer |
| Client.StartGuarded | OnvifDiscoveryKit/src/main/java/com/xaye/onvifdiscoverykit/OnvifClient.kt:44-47 | while the flag is up `startDiscovery` launches nothing and changes nothing |
| Client.StartIgnoresStoredAddress | OnvifDiscoveryKit/src/main/java/com/xaye/onvifdiscoverykit/OnvifClient.kt:49-56 | a start overwrites the stored address with the broadcast address (the standard address when none) and uses the stored timeout; the flag is not raised by the start itself |
| Client.SecondStartBeforeCallback | OnvifDiscoveryKit/src/main/java/com/xaye/onvifdiscoverykit/OnvifClient.kt:43-59 | a second start before `onSearchStarted` launches a second search |
| Client.StopNeedsActiveJob | OnvifDiscoveryKit/src/main/java/com/xaye/onvifdiscoverykit/OnvifClient.kt:93-99 | `stopDiscovery` changes something exactly when the job is active |
| Client.StaleJobEndKeepsCurrent | OnvifDiscoveryKit/src/main/java/com/xaye/onvifdiscoverykit/OnvifClient.kt:79-87 | the end of a job `discoveryJob` no longer refers to leaves the current job as it is; only a throwing job lowers the flag |
| Client.SecondJobOutlivesFirst | OnvifDiscoveryKit/src/main/java/com/xaye/onvifdiscoverykit/OnvifClient.kt:79-96 | after two starts before `onSearchStarted`, the first job's return leaves the second active, so a later stop cancels it and lowers the flag |
| Client.RunningUntilCleared | OnvifDiscoveryKit/src/main/java/com/xaye/onvifdiscoverykit/OnvifClient.kt:58-99 | once up, the flag stays up and every start is refused until a stop, a finished or failed search, or a failing job |
| Client.RaisedOnlyByCallback | OnvifDiscoveryKit/src/main/java/com/xaye/onvifdiscoverykit/OnvifClient.kt:58-59 | only `onSearchStarted` raises the flag |
| Client.OnvifClient.constructor | OnvifDiscoveryKit/src/main/java/com/xaye/onvifdiscoverykit/OnvifClient.kt:21-35 | initial address `192.168.43.255`, port 3702, timeout 5000, no job launched, flag down, and the two-entry table |
| Client.OnvifClient.StartDiscovery | OnvifDiscoveryKit/src/main/java/com/xaye/onvifdiscoverykit/OnvifClient.kt:43-88 | launches the search and updates the fields as `Launched` and `After` say: a launch gives `discoveryJob` a new, active job |
| Client.OnvifClient.StopDiscovery | OnvifDiscoveryKit/src/main/java/com/xaye/onvifdiscoverykit/OnvifClient.kt:93-99 | ends an active job and lowers the flag, otherwise nothing |
| Client.OnvifClient.OnSearchStarted | OnvifDiscoveryKit/src/main/java/com/xaye/onvifdiscoverykit/OnvifClient.kt:58-61 | raises the flag |
| Client.OnvifClient.OnSearchFinished | OnvifDiscoveryKit/src/main/java/com/xaye/onvifdiscoverykit/OnvifClient.kt:67-70 | lowers the flag |
| Client.OnvifClient.OnSearchFailed | OnvifDiscoveryKit/src/main/java/com/xaye/onvifdiscoverykit/OnvifClient.kt:72-75 | lowers the flag |
| Client.OnvifClient.OnJobEnded | OnvifDiscoveryKit/src/main/java/com/xaye/onvifdiscoverykit/OnvifClient.kt:79-87 | job number `id` ends; it changes the job state only when `discoveryJob` still refers to it, and a job that throws lowers the flag whatever its number |
| Client.OnvifClient.SetMulticastAddress | OnvifDiscoveryKit/src/main/java/com/xaye/onvifdiscoverykit/OnvifClient.kt:137-139 | stores the address and nothing else |
| Client.OnvifClient.SetTimeout | OnvifDiscoveryKit/src/main/java/com/xaye/onvifdiscoverykit/OnvifClient.kt:145-147 | stores the timeout and nothing else |
| Client.OnvifClient.GetCredentials | OnvifDiscoveryKit/src/main/java/com/xaye/onvifdiscoverykit/OnvifClient.kt:109-121 | the loop returns the pair of the first matching key, else the default, as `CredentialsFor` says |
| Client.OnvifClient.SetCredentials | OnvifDiscoveryKit/src/main/java/com/xaye/onvifdiscoverykit/OnvifClient.kt:129-131 | stores the pair under the lower-cased manufacturer as `Put` says, keeping the table's keys distinct and lower-case |
| DeviceInfo.FetchOf | OnvifDiscoveryKit/src/main/java/com/xaye/onvifdiscoverykit/utils/GetDeviceInfo.kt:95-115 | a request goes out only when the text could be assembled and a URL exists; it carries the file, digest flag, `urlOverride ?: serviceUrl` and the assembled text; a body comes only from that step's reply |
| DeviceInfo.Parse | OnvifDiscoveryKit/src/main/java/com/xaye/onvifdiscoverykit/utils/GetDeviceInfo.kt:32-70 | a stream step keeps the number of profiles |
| DeviceInfo.Stage | OnvifDiscoveryKit/src/main/java/com/xaye/onvifdiscoverykit/utils/GetDeviceInfo.kt:95-115 | a stream stage keeps the number of profiles |
| DeviceInfo.FailedStays | OnvifDiscoveryKit/src/main/java/com/xaye/onvifdiscoverykit/utils/GetDeviceInfo.kt:78-83 | after an exception no later step runs |
| DeviceInfo.FetchAndParse | OnvifDiscoveryKit/src/main/java/com/xaye/onvifdiscoverykit/utils/GetDeviceInfo.kt:95-115 | sends, parses and writes the device exactly as `Stage` says |
| DeviceInfo.ApplyParser | OnvifDiscoveryKit/src/main/java/com/xaye/onvifdiscoverykit/utils/GetDeviceInfo.kt:32-70 | each step's parser lambda writes the device and reports its exception exactly as `Parse` says; the profile step replaces the list only when parsing succeeds, the stream step sets the `Uri` of its own profile |
| DeviceInfo.RunFixed | OnvifDiscoveryKit/src/main/java/com/xaye/onvifdiscoverykit/utils/GetDeviceInfo.kt:29-59 | the four fixed requests in order, stopping at the first exception, give the device, outcome and requests of `Head` |
| DeviceInfo.RunStreams | OnvifDiscoveryKit/src/main/java/com/xaye/onvifdiscoverykit/utils/GetDeviceInfo.kt:62-71 | one stream request per profile in list order, stopping at the first exception, give what `Streams` says |
| DeviceInfo.RunChain | OnvifDiscoveryKit/src/main/java/com/xaye/onvifdiscoverykit/utils/GetDeviceInfo.kt:26-84 | the device, outcome and requests sent are those `RunOf` gives |
| DeviceInfo.ParseFrame | OnvifDiscoveryKit/src/main/java/com/xaye/onvifdiscoverykit/utils/GetDeviceInfo.kt:32-70 | no parser touches the service address or the credentials; only the capabilities step changes the five service addresses, only the profile and stream steps the profile list, and a stream step keeps every token |
| DeviceInfo.RequestsFollowPlan | OnvifDiscoveryKit/src/main/java/com/xaye/onvifdiscoverykit/utils/GetDeviceInfo.kt:29-71 | request `j` uses the `j`-th file, a digest on all but the first, the service address for the first three and the media address (else the service address) for the rest, and the token of profile `j - 4` (or "") as parameter, with text built from the device's credentials; success means one request per step |
| DeviceInfo.StreamStage | OnvifDiscoveryKit/src/main/java/com/xaye/onvifdiscoverykit/utils/GetDeviceInfo.kt:62-70 | a successful stream step stores the `Uri` of its reply in its own profile only |
| DeviceInfo.HeadProfiles | OnvifDiscoveryKit/src/main/java/com/xaye/onvifdiscoverykit/utils/GetDeviceInfo.kt:53-59 | after the profile step the device holds exactly the parsed profiles |
| DeviceInfo.SuccessCompletes | OnvifDiscoveryKit/src/main/java/com/xaye/onvifdiscoverykit/utils/GetDeviceInfo.kt:62-76 | success means four requests plus one per profile, and profiles equal to the parsed ones, in order, each with its own stream `Uri` |
| DeviceInfo.CapsWritesKept | OnvifDiscoveryKit/src/main/java/com/xaye/onvifdiscoverykit/utils/GetDeviceInfo.kt:33-83 | once the capabilities reply is parsed, its addresses stay on the device whatever later steps do: nothing is rolled back |
| DeviceInfo.LaterStepsIgnored | OnvifDiscoveryKit/src/main/java/com/xaye/onvifdiscoverykit/utils/GetDeviceInfo.kt:26-114 | replies to steps after the one that threw are never consulted |

## Left out

- `getImageSetting` and the image-setting record are not modelled: they work on floating-point values. The device record has no `imageSetting` field.
- The XML tokenizer is not modelled. A document is a given event sequence; `Broken` stands for any tokenizer exception, at the point where it is raised.
- The model works on values where the source shares objects. `getMediaProfiles` keeps the profile objects it created plus the list of which ones were appended. So a profile appended twice by two `Profiles` end tags is two equal values, not one shared object. In the chain, the stream step writes `rtspUrl` into the profile at its index of the device's list, not into a shared object.
- Asset reading, `postRequest`, `getByteArray`, `upload` and the OkHttp exchanges of `getImageWithDigestAuth` and `digestHttp` are left out; they are I/O. A request's reply is a parameter, and the digest helpers stop at the header text.
- `FindDevices`, `DeviceUtil.getBroadcastIp` and the coroutine scope are left out.
  - The broadcast address is a parameter of `StartDiscovery`.
  - The callbacks and the end of a launched job are separate methods that can be called in any order. Jobs are numbered by launch, and the end of a job names its number.
  - The search itself, and `onDeviceFound` (which changes no client state), are not modelled.
- SHA-1, MD5, Base64, UTF-8 and the random generators are uninterpreted functions; their internals are not modelled.
- Time zones and locale are left out: the clock gives local fields directly.
- `lowercase()` is modelled on ASCII letters only; Unicode case mapping is not modelled.
- Base.ToInt: the decimal digits are those of Unicode 15.0 in the Basic Multilingual Plane. A platform with another Unicode version may accept a slightly different set.
- HttpUtil.UriPathAfterHost: the lemma covers hosts that start with a digit. For other hosts, `substringAfter(host)` cuts at the first occurrence of the host, which may lie inside `http://`, as `UriPathHostInScheme` shows.
- `String.format` is modelled for `%s`, `%%` and `%n` only; any other conversion is reported as an unknown-format error.
- DeviceInfo.FetchOf: a URL string is treated as malformed only when it is null. Any other failure of `postRequest`, including a malformed non-null URL, is part of the scripted reply.
- DeviceInfo.LaterStepsIgnored: only the replies vary. The digest inputs hold function values, which Dafny cannot compare, so the lemma does not state that later clocks and draws are ignored too.
- Client.OnvifClient.StartDiscovery: the race between two starts before the first `onSearchStarted` is stated as a lemma. Thread interleavings and the atomicity of the flag are not modelled.
- Logging and the callback's thread switch are left out. A callback that itself throws, which would be reported a second time as a failure, is not modelled.
