/** The pull-parser interface the response parsers are written against.

    A document is the sequence of events XmlPullParser.next() reports (with namespace
    processing on, so tag names are local names). The cursor is an index into that
    sequence; index |evs| is END_DOCUMENT. The tokenizer itself is not modelled: a
    `Broken` event marks the point at which it throws, so whatever a parser wrote
    before reaching it stays written. */
module XmlPull {
  import opened Base

  datatype Attribute = Attribute(name: string, value: string)

  datatype Event =
    | StartTag(name: string, attributes: seq<Attribute>)
    | EndTag(name: string)
    | Text(text: string)
    | Broken

  /** What a parse loop leaves behind: the state it reached and the exception that stopped
      it, if one did. Writes made before the exception stay in the state. */
  datatype Parsed<S> = Parsed(state: S, failure: Option<Error>)

  /** The handling of the event under the cursor: carry on with the event at `next`, or stop
      with an exception. */
  datatype Step<S> = Next(state: S, next: nat) | Fail(state: S, error: Error)

  /** `getAttributeValue(null, name)`: the parser scans the attributes from the last one back
      and, with a null namespace, matches the local name in any namespace; so the value is that
      of the last attribute called `name`, or null. */
  function AttributeValue(attrs: seq<Attribute>, name: string): (r: Option<string>)
    ensures |attrs| > 0 && attrs[|attrs| - 1].name == name ==> r == Some(attrs[|attrs| - 1].value)
  {
    if |attrs| == 0 then None
    else if attrs[|attrs| - 1].name == name then Some(attrs[|attrs| - 1].value)
    else AttributeValue(attrs[..|attrs| - 1], name)
  }

  /** The value is null exactly when no attribute has the name, and otherwise it belongs to an
      attribute with that name after which none has it. */
  lemma {:induction false} AttributeValueLast(attrs: seq<Attribute>, name: string)
    ensures AttributeValue(attrs, name).None? <==> forall k :: 0 <= k < |attrs| ==> attrs[k].name != name
    ensures AttributeValue(attrs, name).Some? ==>
              exists k :: 0 <= k < |attrs| && attrs[k] == Attribute(name, AttributeValue(attrs, name).value) &&
                          forall m :: k < m < |attrs| ==> attrs[m].name != name
  {
    if |attrs| > 0 && attrs[|attrs| - 1].name != name {
      var init := attrs[..|attrs| - 1];
      AttributeValueLast(init, name);
      assert forall k :: 0 <= k < |init| ==> attrs[k] == init[k];
    }
  }

  /** `getAttributeValue(0)`: the first attribute's value, whatever its name; an element
      without attributes makes the parser throw IndexOutOfBoundsException. */
  function FirstAttributeValue(attrs: seq<Attribute>): (r: Result<string>)
    ensures r.Ok? <==> |attrs| > 0
    ensures r.Ok? ==> r.value == attrs[0].value
    ensures r.Err? ==> r.error == AttributeIndex
  {
    if |attrs| == 0 then Err(AttributeIndex) else Ok(attrs[0].value)
  }

  /** `parser.name` with the cursor at `j`: the tag name on START_TAG and END_TAG, null elsewhere. */
  function NameAt(evs: seq<Event>, j: nat): Option<string> {
    if j < |evs| && (evs[j].StartTag? || evs[j].EndTag?) then Some(evs[j].name) else None
  }

  predicate StartAt(evs: seq<Event>, j: int, name: string) {
    0 <= j < |evs| && evs[j].StartTag? && evs[j].name == name
  }

  /** `nextText()` with the cursor at `i`: on a START_TAG followed by TEXT and END_TAG it returns
      the text, on a START_TAG directly followed by END_TAG it returns "", and in both cases the
      cursor is left on that END_TAG; every other situation throws. */
  function NextText(evs: seq<Event>, i: nat): (r: Result<(string, nat)>)
    requires i < |evs|
    ensures r.Ok? <==> evs[i].StartTag? && i + 1 < |evs| &&
                       (evs[i + 1].EndTag? || (evs[i + 1].Text? && i + 2 < |evs| && evs[i + 2].EndTag?))
    ensures r.Ok? ==> r.value.1 < |evs| && evs[r.value.1].EndTag?
    ensures r.Ok? && evs[i + 1].EndTag? ==> r.value == ("", i + 1)
    ensures r.Ok? && evs[i + 1].Text? ==> r.value == (evs[i + 1].text, i + 2)
    ensures r.Err? ==> r.error == XmlPull
  {
    if !evs[i].StartTag? then Err(XmlPull)
    else if i + 1 < |evs| && evs[i + 1].EndTag? then Ok(("", i + 1))
    else if i + 2 < |evs| && evs[i + 1].Text? && evs[i + 2].EndTag? then Ok((evs[i + 1].text, i + 2))
    else Err(XmlPull)
  }

  /** The text `nextText()` returns at a START_TAG, when it succeeds there. */
  function TextOf(evs: seq<Event>, j: nat): string {
    if j + 1 < |evs| && evs[j + 1].Text? then evs[j + 1].text else ""
  }

  predicate IsWhitespace(s: string) {
    forall k :: 0 <= k < |s| ==> s[k] in {' ', '\t', '\n', '\r'}
  }

  /** `nextTag()` with the cursor at `i`: advances, skipping one whitespace-only TEXT, and must
      then be on a START_TAG or END_TAG, otherwise it throws. */
  function NextTag(evs: seq<Event>, i: nat): (r: Result<nat>)
    requires i < |evs|
    ensures r.Ok? ==> i < r.value <= i + 2 && r.value < |evs| && (evs[r.value].StartTag? || evs[r.value].EndTag?)
    ensures r.Ok? && r.value == i + 2 ==> evs[i + 1].Text? && IsWhitespace(evs[i + 1].text)
    ensures i + 1 < |evs| && (evs[i + 1].StartTag? || evs[i + 1].EndTag?) ==> r == Ok(i + 1)
    ensures r.Err? ==> r.error == XmlPull
  {
    var j := if i + 1 < |evs| && evs[i + 1].Text? && IsWhitespace(evs[i + 1].text) then i + 2 else i + 1;
    if j < |evs| && (evs[j].StartTag? || evs[j].EndTag?) then Ok(j) else Err(XmlPull)
  }

  /** Index of the last START_TAG called `name` at or after `from`, or -1. */
  function LastStart(evs: seq<Event>, name: string, from: nat): (r: int)
    ensures r == -1 || (from <= r && StartAt(evs, r, name))
    ensures r == -1 ==> forall k :: from <= k ==> !StartAt(evs, k, name)
    ensures r != -1 ==> forall k :: r < k ==> !StartAt(evs, k, name)
    decreases |evs| - from
  {
    if from >= |evs| then -1
    else
      var later := LastStart(evs, name, from + 1);
      if later != -1 then later else if StartAt(evs, from, name) then from else -1
  }

  /** Stepping over events that are not START_TAGs does not change which START_TAG comes last. */
  lemma {:induction false} LastStartSkip(evs: seq<Event>, name: string, a: nat, b: nat)
    requires a <= b
    requires forall k :: a <= k < b ==> !StartAt(evs, k, name)
    ensures LastStart(evs, name, a) == LastStart(evs, name, b)
    decreases b - a
  {
    if a < b && a < |evs| {
      LastStartSkip(evs, name, a + 1, b);
    } else if a < b {
      assert LastStart(evs, name, a) == -1 && LastStart(evs, name, b) == -1;
    }
  }

  /** After a successful `nextText()` at `i`, the next event the loop looks at is at `j + 1`;
      nothing in between is a START_TAG, so the last START_TAG from `i + 1` on is unchanged. */
  lemma NextTextSkip(evs: seq<Event>, i: nat, name: string)
    requires i < |evs| && NextText(evs, i).Ok?
    ensures var j := NextText(evs, i).value.1;
      LastStart(evs, name, i + 1) == LastStart(evs, name, j + 1)
  {
    var j := NextText(evs, i).value.1;
    LastStartSkip(evs, name, i + 1, j + 1);
  }

  /** One event of a START_TAG named `name` in the document. */
  predicate HasStart(evs: seq<Event>, name: string) {
    exists k :: 0 <= k < |evs| && StartAt(evs, k, name)
  }

  /** Number of END_TAGs called `name` at or after `from`. */
  function CountEnd(evs: seq<Event>, name: string, from: nat): nat
    decreases |evs| - from
  {
    if from >= |evs| then 0
    else (if evs[from] == EndTag(name) then 1 else 0) + CountEnd(evs, name, from + 1)
  }

  lemma {:induction false} CountEndMonotone(evs: seq<Event>, name: string, a: nat, b: nat)
    requires a <= b
    ensures CountEnd(evs, name, b) <= CountEnd(evs, name, a)
    decreases b - a
  {
    if a < b && a < |evs| {
      CountEndMonotone(evs, name, a + 1, b);
    }
  }

  /** From `from` on, the tokenizer never fails and every START_TAG named in `names` is
      followed by text and an END_TAG, so `nextText()` succeeds on it. */
  predicate TextsReadable(evs: seq<Event>, from: nat, names: set<string>) {
    forall k :: from <= k < |evs| ==>
      evs[k] != Broken && (evs[k].StartTag? && evs[k].name in names ==> NextText(evs, k).Ok?)
  }

  /** The events a successful `nextText()` at `i` steps over are neither broken nor START_TAGs,
      so they never decide whether the rest of the document is readable. */
  lemma TextsReadableSkip(evs: seq<Event>, i: nat, names: set<string>)
    requires i < |evs| && NextText(evs, i).Ok?
    ensures var j := NextText(evs, i).value.1;
      TextsReadable(evs, i + 1, names) <==> TextsReadable(evs, j + 1, names)
  {
  }
}
