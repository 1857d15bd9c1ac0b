/**
  The folder payload stored in a folder tag: the JSON text
  `{"folder":<name>,"color":<color>}`. The source also wraps this text in
  base64, a bijection that changes none of the properties below, so the
  model stores the JSON text directly. String escaping covers the two
  characters that must be escaped for the text to be read back (`"` and `\`).
 */
module FolderPayload {
  import opened Common

  datatype Payload = Payload(folder: string, color: string)

  const Opening := "{\"folder\":\""
  const Between := ",\"color\":\""
  const Closing := "}"

  /** JSON string escaping of quote and backslash. */
  function Escape(s: string): (r: string)
    ensures |r| >= |s|
  {
    if |s| == 0 then ""
    else if s[0] == '"' || s[0] == '\\' then ['\\', s[0]] + Escape(s[1..])
    else [s[0]] + Escape(s[1..])
  }

  /**
    Reads the body of a JSON string up to its closing quote. Returns the
    unescaped text and what follows the closing quote.
   */
  function ReadString(s: string): Option<(string, string)>
    decreases |s|
  {
    if |s| == 0 then None
    else if s[0] == '"' then Some(("", s[1..]))
    else if s[0] == '\\' then
      if |s| < 2 then None
      else match ReadString(s[2..])
        case Some((v, rest)) => Some(([s[1]] + v, rest))
        case None => None
    else match ReadString(s[1..])
      case Some((v, rest)) => Some(([s[0]] + v, rest))
      case None => None
  }

  /** `JSON.stringify({"folder": name, "color": color})`. */
  function Encode(p: Payload): string {
    Opening + Escape(p.folder) + "\"" + Between + Escape(p.color) + "\"" + Closing
  }

  /**
    Reads back the text `Encode` writes. It is not a general `JSON.parse`:
    it expects the fields in `Encode`'s order and layout, and it reads an
    escape `\X` as the character `X`.
   */
  function Decode(s: string): Option<Payload> {
    if !(Opening <= s) then None
    else match ReadString(s[|Opening|..])
      case None => None
      case Some((folder, rest)) =>
        if !(Between <= rest) then None
        else match ReadString(rest[|Between|..])
          case None => None
          case Some((color, tail)) =>
            if tail == Closing then Some(Payload(folder, color)) else None
  }

  /** Reading an escaped string stops exactly at its closing quote. */
  lemma {:induction false} ReadEscaped(x: string, rest: string)
    ensures ReadString(Escape(x) + "\"" + rest) == Some((x, rest))
    decreases |x|
  {
    var s := Escape(x) + "\"" + rest;
    if |x| == 0 {
      assert s == "\"" + rest;
      assert s[1..] == rest;
    } else {
      ReadEscaped(x[1..], rest);
      var tail := Escape(x[1..]) + "\"" + rest;
      if x[0] == '"' || x[0] == '\\' {
        assert s == ['\\', x[0]] + tail;
        assert s[2..] == tail;
      } else {
        assert s == [x[0]] + tail;
        assert s[1..] == tail;
      }
      assert [x[0]] + x[1..] == x;
    }
  }

  /** Dropping a prefix of `a + b` that is `a` leaves `b`. */
  lemma DropPrefix(a: string, b: string)
    ensures a <= a + b && (a + b)[|a|..] == b
  {
  }

  /** Decoding what was encoded gives back the same name and color. */
  lemma DecodeEncode(p: Payload)
    ensures Decode(Encode(p)) == Some(p)
  {
    var colorText := Escape(p.color) + "\"" + Closing;
    var rest := Between + colorText;
    var afterOpening := Escape(p.folder) + "\"" + rest;
    assert Encode(p) == Opening + afterOpening;
    DropPrefix(Opening, afterOpening);
    ReadEscaped(p.folder, rest);
    DropPrefix(Between, colorText);
    ReadEscaped(p.color, Closing);
  }

  /** Distinct payloads are stored as distinct text. */
  lemma EncodeInjective(p: Payload, q: Payload)
    requires Encode(p) == Encode(q)
    ensures p == q
  {
    DecodeEncode(p);
    DecodeEncode(q);
  }
}
