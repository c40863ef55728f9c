/**
 * The XML collaborators of the score-order reader and writer.
 *
 * The reader is a cursor over a stream of tokens, with the operations of a
 * Qt stream reader that the score-order code uses: `readNextStartElement`,
 * `skipCurrentElement`, `readElementText`, `name` and `attribute`. Modelling
 * the cursor (rather than a tree) keeps what the callers see after an early
 * return: the reader stays wherever the callee left it.
 *
 * The writer records the calls made on it (`startObject`, `tag`, `tagE`,
 * `endObject`) as a sequence of events.
 */
module Xml {
  import opened Wrappers

  datatype Token =
    | StartElement(name: string, attributes: map<string, string>)
    | Characters(text: string)
    | EndElement

  /** The name of the start tag at `p` ("" on any other token and past the end). */
  function NameAt(tokens: seq<Token>, p: nat): string
  {
    if p < |tokens| && tokens[p].StartElement? then tokens[p].name else ""
  }

  /** The value of an attribute of the start tag at `p`, if it has one. */
  function AttrAt(tokens: seq<Token>, p: nat, attr: string): Option<string>
  {
    if p < |tokens| && tokens[p].StartElement? && attr in tokens[p].attributes then Some(tokens[p].attributes[attr])
    else None
  }

  /** The first tag (start or end) at or after `q`, or the end of the stream. */
  function TagFrom(tokens: seq<Token>, q: nat): (r: nat)
    requires q <= |tokens|
    ensures q <= r <= |tokens|
    ensures r < |tokens| ==> !tokens[r].Characters?
    ensures forall k :: q <= k < r ==> tokens[k].Characters?
    decreases |tokens| - q
  {
    if q == |tokens| || !tokens[q].Characters? then q else TagFrom(tokens, q + 1)
  }

  /** Where `readNextStartElement` leaves the cursor when called at `p`: the next tag after it. */
  function NextTag(tokens: seq<Token>, p: nat): (r: nat)
    requires p <= |tokens|
    ensures p <= r <= |tokens|
    ensures p < |tokens| ==> p < r
    ensures r < |tokens| ==> !tokens[r].Characters?
  {
    if p == |tokens| then p else TagFrom(tokens, p + 1)
  }

  /**
   * The end tag that closes an element whose content, from `q` on, is at
   * nesting `depth` (1 directly inside it); the end of the stream if there is
   * none.
   */
  function MatchingEnd(tokens: seq<Token>, q: nat, depth: nat): (r: nat)
    requires q <= |tokens|
    ensures q <= r <= |tokens|
    ensures r < |tokens| ==> tokens[r].EndElement?
    decreases |tokens| - q
  {
    if q == |tokens| then q
    else match tokens[q]
      case EndElement => if depth <= 1 then q else MatchingEnd(tokens, q + 1, depth - 1)
      case StartElement(_, _) => MatchingEnd(tokens, q + 1, depth + 1)
      case Characters(_) => MatchingEnd(tokens, q + 1, depth)
  }

  /** The end tag of the element that starts at `p`. */
  function ElementEnd(tokens: seq<Token>, p: nat): (r: nat)
    requires p < |tokens|
    ensures p < r <= |tokens|
    ensures r < |tokens| ==> tokens[r].EndElement?
  {
    MatchingEnd(tokens, p + 1, 1)
  }

  /** The character data at nesting `depth` 1 from `q` up to the matching end tag. */
  function TextUntilEnd(tokens: seq<Token>, q: nat, depth: nat): string
    requires q <= |tokens|
    decreases |tokens| - q
  {
    if q == |tokens| then ""
    else match tokens[q]
      case EndElement => if depth <= 1 then "" else TextUntilEnd(tokens, q + 1, depth - 1)
      case StartElement(_, _) => TextUntilEnd(tokens, q + 1, depth + 1)
      case Characters(t) => (if depth == 1 then t else "") + TextUntilEnd(tokens, q + 1, depth)
  }

  /** The text of the element that starts at `p`, without that of nested elements. */
  function ElementText(tokens: seq<Token>, p: nat): string
  {
    if p < |tokens| then TextUntilEnd(tokens, p + 1, 1) else ""
  }

  /**
   * The start tags of a run of sibling elements beginning at `q`: each next
   * sibling is the next tag after the end of the previous one, and the run
   * stops at the first tag that is not a start tag.
   */
  function SiblingsFrom(tokens: seq<Token>, q: nat): (cs: seq<nat>)
    requires q <= |tokens|
    ensures forall i :: 0 <= i < |cs| ==> q <= cs[i] < |tokens| && tokens[cs[i]].StartElement?
    decreases |tokens| - q
  {
    if q < |tokens| && tokens[q].StartElement? then [q] + SiblingsFrom(tokens, NextTag(tokens, ElementEnd(tokens, q)))
    else []
  }

  /** Where that run of siblings stops: an end tag, or the end of the stream. */
  function SiblingsEnd(tokens: seq<Token>, q: nat): (r: nat)
    requires q <= |tokens|
    ensures q <= r <= |tokens|
    ensures r < |tokens| ==> tokens[r].EndElement? || tokens[r].Characters?
    decreases |tokens| - q
  {
    if q < |tokens| && tokens[q].StartElement? then SiblingsEnd(tokens, NextTag(tokens, ElementEnd(tokens, q)))
    else q
  }

  /** The child elements of the element that starts at `p`. */
  function Children(tokens: seq<Token>, p: nat): (cs: seq<nat>)
    requires p < |tokens|
    ensures forall i :: 0 <= i < |cs| ==> p < cs[i] < |tokens| && tokens[cs[i]].StartElement?
  {
    SiblingsFrom(tokens, NextTag(tokens, p))
  }

  /** Where a loop over the children of the element at `p` stops. */
  function ChildrenEnd(tokens: seq<Token>, p: nat): (r: nat)
    requires p < |tokens|
    ensures p < r <= |tokens|
  {
    SiblingsEnd(tokens, NextTag(tokens, p))
  }

  class XmlReader {
    const tokens: seq<Token>
    /** Index of the current token; `|tokens|` once the stream is exhausted. */
    var pos: nat

    ghost predicate Valid()
      reads this
    {
      pos <= |tokens|
    }

    constructor (tokens: seq<Token>)
      ensures Valid() && this.tokens == tokens && pos == 0
    {
      this.tokens := tokens;
      pos := 0;
    }

    /** The current token is a start tag. */
    predicate AtStart()
      reads this
    {
      pos < |tokens| && tokens[pos].StartElement?
    }

    /** The name of the current start tag ("" on any other token). */
    function Name(): string
      reads this
    {
      NameAt(tokens, pos)
    }

    /** The value of an attribute of the current start tag, if it has one. */
    function AttributeValue(attr: string): Option<string>
      reads this
    {
      AttrAt(tokens, pos, attr)
    }

    predicate HasAttribute(attr: string)
      reads this
    {
      AttributeValue(attr).Some?
    }

    /** `attribute(name)`: the empty string when the attribute is absent. */
    function Attribute(attr: string): string
      reads this
    {
      AttributeValue(attr).GetOr("")
    }

    /** `attribute(name, def)`: `def` when the attribute is absent. */
    function AttributeOr(attr: string, def: string): string
      reads this
    {
      AttributeValue(attr).GetOr(def)
    }

    /**
     * Advances to the next start or end tag, passing over character data.
     * Answers whether a start tag was reached; at an end tag or at the end of
     * the stream it answers false.
     */
    method ReadNextStartElement() returns (found: bool)
      requires Valid()
      modifies this
      ensures Valid()
      ensures pos == NextTag(tokens, old(pos))
      ensures found <==> AtStart()
    {
      if pos == |tokens| {
        return false;
      }
      pos := pos + 1;
      while pos < |tokens| && tokens[pos].Characters?
        invariant old(pos) < pos <= |tokens|
        invariant TagFrom(tokens, pos) == NextTag(tokens, old(pos))
        decreases |tokens| - pos
      {
        pos := pos + 1;
      }
      found := pos < |tokens| && tokens[pos].StartElement?;
    }

    /** Moves to the end tag that closes the current element. */
    method SkipCurrentElement()
      requires Valid() && AtStart()
      modifies this
      ensures Valid() && pos == ElementEnd(tokens, old(pos))
    {
      var depth := 1;
      pos := pos + 1;
      while pos < |tokens|
        invariant old(pos) < pos <= |tokens|
        invariant depth >= 1
        invariant MatchingEnd(tokens, pos, depth) == ElementEnd(tokens, old(pos))
        decreases |tokens| - pos
      {
        if tokens[pos].EndElement? {
          depth := depth - 1;
          if depth == 0 {
            return;
          }
        } else if tokens[pos].StartElement? {
          depth := depth + 1;
        }
        pos := pos + 1;
      }
    }

    /**
     * Reads the character data of the current element and moves to its end
     * tag. Character data inside nested elements is passed over.
     */
    method ReadElementText() returns (text: string)
      requires Valid() && AtStart()
      modifies this
      ensures Valid() && pos == ElementEnd(tokens, old(pos))
      ensures text == ElementText(tokens, old(pos))
    {
      text := "";
      var depth := 1;
      pos := pos + 1;
      while pos < |tokens|
        invariant old(pos) < pos <= |tokens|
        invariant depth >= 1
        invariant MatchingEnd(tokens, pos, depth) == ElementEnd(tokens, old(pos))
        invariant text + TextUntilEnd(tokens, pos, depth) == ElementText(tokens, old(pos))
        decreases |tokens| - pos
      {
        match tokens[pos] {
          case EndElement =>
            if depth == 1 {
              assert text + "" == text;
              return;
            }
            depth := depth - 1;
          case StartElement(_, _) =>
            depth := depth + 1;
          case Characters(t) =>
            var rest := TextUntilEnd(tokens, pos + 1, depth);
            if depth == 1 {
              assert text + (t + rest) == (text + t) + rest;
              text := text + t;
            } else {
              assert "" + rest == rest;
            }
        }
        pos := pos + 1;
      }
      assert text + "" == text;
    }
  }

  /** One call made on the writer. */
  datatype XmlEvent =
    | Open(header: string)                 // startObject(header)
    | Element(tag: string, value: string)  // tag(tag, value)
    | Empty(header: string)                // tagE(header)
    | Close                                // endObject()

  class XmlWriter {
    var events: seq<XmlEvent>

    constructor ()
      ensures events == []
    {
      events := [];
    }

    method StartObject(header: string)
      modifies this
      ensures events == old(events) + [Open(header)]
    {
      events := events + [Open(header)];
    }

    method Tag(tag: string, value: string)
      modifies this
      ensures events == old(events) + [Element(tag, value)]
    {
      events := events + [Element(tag, value)];
    }

    method TagE(header: string)
      modifies this
      ensures events == old(events) + [Empty(header)]
    {
      events := events + [Empty(header)];
    }

    method EndObject()
      modifies this
      ensures events == old(events) + [Close]
    {
      events := events + [Close];
    }
  }
}
