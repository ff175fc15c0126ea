// Images supplied as base64 text (optionally a data URI). Decoding and the
// Pillow re-encoding are library code, given here as functions; what the
// generator itself decides is modelled: the presence test, the data-URI
// payload rule, the fallback to the raw bytes, and which runs a picture
// attempt leaves behind.
module Images {
  import opened Wrappers
  import opened Document

  /**
   * The library calls an image goes through: base64 decoding (None where it
   * raises), conversion to PNG (None where Pillow raises; the generator then
   * keeps the raw bytes), and whether the word-processing library accepts the
   * bytes as a picture.
   */
  datatype Imaging = Imaging(
    b64decode: string -> Option<seq<bv8>>,
    toPng: seq<bv8> -> Option<seq<bv8>>,
    accepts: seq<bv8> -> bool)

  /** `logo and len(logo) > 100`: present, non-empty and longer than 100 characters. */
  predicate HasImage(o: Option<string>)
  {
    o.Some? && |o.value| > 100
  }

  /** The text after the first ',' up to the next ',' or the end: `s.split(',')[1]`. */
  function AfterFirstComma(s: string): (r: string)
    requires ',' in s
    ensures ',' !in r
    decreases |s|
  {
    if s[0] == ',' then UpToComma(s[1..]) else AfterFirstComma(s[1..])
  }

  function UpToComma(s: string): (r: string)
    ensures |r| <= |s| && r == s[..|r|] && ',' !in r
    ensures |r| < |s| ==> s[|r|] == ','
    decreases |s|
  {
    if s == [] || s[0] == ',' then [] else
      var t := UpToComma(s[1..]);
      assert s[1..][..|t|] == s[1..|t| + 1];
      [s[0]] + t
  }

  /** The base64 text actually decoded: the second comma-separated field of a data URI. */
  function Payload(s: string): string
  {
    if ',' in s then AfterFirstComma(s) else s
  }

  /**
   * `decode_base64_image`: None where it raises (empty text, undecodable
   * base64); otherwise the PNG re-encoding, or the decoded bytes themselves
   * when Pillow cannot read them.
   */
  function DecodeBase64Image(im: Imaging, s: string): (r: Option<seq<bv8>>)
    ensures s == "" ==> r.None?
    ensures s != "" && im.b64decode(Payload(s)).None? ==> r.None?
    ensures r.Some? ==> s != "" && im.b64decode(Payload(s)).Some?
  {
    if s == "" then None
    else
      match im.b64decode(Payload(s))
      case None => None
      case Some(bytes) =>
        match im.toPng(bytes)
        case Some(png) => Some(png)
        case None => Some(bytes)
  }

  /**
   * The runs an `add_run().add_picture(decode_base64_image(s), height=h)`
   * inside a `try` leaves: none when decoding raised (the run is never
   * created), an empty run when the picture is rejected after `add_run()`,
   * and the picture otherwise.
   */
  function PictureRuns(im: Imaging, s: string, heightCm: real): (rs: seq<Run>)
    ensures |rs| <= 1
    ensures DecodeBase64Image(im, s).None? <==> rs == []
    ensures rs != [] ==> rs == [BareRun] || rs[0].Picture?
  {
    match DecodeBase64Image(im, s)
    case None => []
    case Some(bytes) => if im.accepts(bytes) then [Picture(bytes, heightCm)] else [BareRun]
  }

  /** The picture runs of an optional image field that passed the presence test. */
  function OptionalPictureRuns(im: Imaging, o: Option<string>, heightCm: real): seq<Run>
  {
    if HasImage(o) then PictureRuns(im, o.value, heightCm) else []
  }

  lemma {:induction false} AfterCommaOfDataUri(prefix: string, payload: string, rest: string)
    requires ',' !in prefix && ',' !in payload && (rest == [] || rest[0] == ',')
    ensures ',' in prefix + "," + payload + rest
    ensures AfterFirstComma(prefix + "," + payload + rest) == payload
    decreases |prefix|
  {
    var s := prefix + "," + payload + rest;
    assert s[|prefix|] == ',';
    if prefix == [] {
      assert s[1..] == payload + rest;
      UpToCommaPrefix(payload, rest);
    } else {
      assert s[1..] == prefix[1..] + "," + payload + rest;
      AfterCommaOfDataUri(prefix[1..], payload, rest);
    }
  }

  lemma {:induction false} UpToCommaPrefix(payload: string, rest: string)
    requires ',' !in payload && (rest == [] || rest[0] == ',')
    ensures UpToComma(payload + rest) == payload
    decreases |payload|
  {
    if payload != [] {
      assert (payload + rest)[1..] == payload[1..] + rest;
      UpToCommaPrefix(payload[1..], rest);
    }
  }

  /**
   * A data URI `data:image/png;base64,<payload>` decodes its payload; anything
   * after a second comma is dropped.
   */
  lemma {:induction false} DataUriPayload(header: string, payload: string, rest: string)
    requires ',' !in header && ',' !in payload && (rest == [] || rest[0] == ',')
    ensures Payload(header + "," + payload + rest) == payload
  {
    AfterCommaOfDataUri(header, payload, rest);
  }

  /** Text with no comma is decoded as it is. */
  lemma {:induction false} PlainPayload(s: string)
    requires ',' !in s
    ensures Payload(s) == s
  {
  }

  /** An image field that fails the presence test leaves no trace at all. */
  lemma {:induction false} ShortImageIgnored(im: Imaging, o: Option<string>, heightCm: real)
    requires o.None? || |o.value| <= 100
    ensures !HasImage(o)
    ensures OptionalPictureRuns(im, o, heightCm) == []
  {
  }

  /** When Pillow cannot read the bytes, the decoded bytes are embedded unchanged. */
  lemma {:induction false} RawBytesFallback(im: Imaging, s: string, bytes: seq<bv8>)
    requires s != "" && im.b64decode(Payload(s)) == Some(bytes) && im.toPng(bytes).None?
    ensures DecodeBase64Image(im, s) == Some(bytes)
    ensures im.accepts(bytes) ==> PictureRuns(im, s, 2.0) == [Picture(bytes, 2.0)]
  {
  }
}
