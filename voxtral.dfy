/**
 * Speech transcription through the Voxtral HTTP API
 * (VoxtralTranscriptionService.swift): the speaker-labelled transcript,
 * the multipart/form-data request body (section 4.2 of RFC 7578, with the
 * delimiter syntax of section 5.1.1 of RFC 2046), the status check and the
 * service's flags.
 */
module Voxtral {
  import opened Wrappers
  import opened Binary64
  import opened DynamicValue
  import Utf8
  import Text

  type Bytes = Utf8.Bytes

  datatype TranscriptionSegment = TranscriptionSegment(start: Double, end: Double, text: string, speaker: Option<string>)

  datatype TranscriptionResponse = TranscriptionResponse(text: string, segments: Option<seq<TranscriptionSegment>>)

  // ---------------------------------------------------------------- transcript

  /** `CharacterSet.whitespacesAndNewlines`: general category Z*, tab, U+000A to U+000D and U+0085. */
  predicate IsWhitespaceOrNewline(c: char) {
    var n := c as int;
    (0x09 <= n <= 0x0D) || n == 0x20 || n == 0x85 || n == 0xA0 || n == 0x1680 ||
    (0x2000 <= n <= 0x200A) || n == 0x2028 || n == 0x2029 || n == 0x202F || n == 0x205F || n == 0x3000
  }

  /** `trimmingCharacters(in: .whitespacesAndNewlines)`. */
  function Trim(s: string): string {
    Text.TrimWhere(s, IsWhitespaceOrNewline)
  }

  /** The last speaker label among the segments; unlabelled segments leave it as it was. */
  function CurrentSpeaker(segments: seq<TranscriptionSegment>): Option<string> {
    if segments == [] then None
    else if segments[|segments| - 1].speaker.Some? then segments[|segments| - 1].speaker
    else CurrentSpeaker(segments[..|segments| - 1])
  }

  /** The header before a segment: only for a label that differs from the current speaker. */
  function Header(current: Option<string>, segment: TranscriptionSegment): string {
    if segment.speaker.Some? && segment.speaker != current then "\n[" + segment.speaker.value + "]\n" else ""
  }

  /** The untrimmed output: each segment's text, preceded by its header. */
  function Labelled(segments: seq<TranscriptionSegment>): string {
    if segments == [] then ""
    else
      var init := segments[..|segments| - 1];
      Labelled(init) + Header(CurrentSpeaker(init), segments[|segments| - 1]) + segments[|segments| - 1].text
  }

  /** The segment texts concatenated in order. */
  function Texts(segments: seq<TranscriptionSegment>): string {
    if segments == [] then "" else Texts(segments[..|segments| - 1]) + segments[|segments| - 1].text
  }

  /** `formattedWithSpeakers`, as a specification. */
  function Formatted(r: TranscriptionResponse): string {
    if r.segments.None? || r.segments.value == [] then r.text else Trim(Labelled(r.segments.value))
  }

  /** The loop of `formattedWithSpeakers`. */
  method FormattedWithSpeakers(r: TranscriptionResponse) returns (formatted: string)
    ensures formatted == Formatted(r)
    ensures r.segments.None? || r.segments == Some([]) ==> formatted == r.text
  {
    if r.segments.None? || r.segments.value == [] {
      return r.text;
    }
    var segments := r.segments.value;
    var output := "";
    var currentSpeaker: Option<string> := None;
    for i := 0 to |segments|
      invariant output == Labelled(segments[..i])
      invariant currentSpeaker == CurrentSpeaker(segments[..i])
    {
      var segment := segments[i];
      assert segments[..i + 1] == segments[..i] + [segment];
      if segment.speaker.Some? {
        HeaderOnChange(segments[..i], segment);
      } else {
        UnlabelledKeepsSpeaker(segments[..i], segment);
      }
      if segment.speaker.Some? && segment.speaker != currentSpeaker {
        currentSpeaker := segment.speaker;
        output := output + "\n[" + segment.speaker.value + "]\n";
      }
      output := output + segment.text;
    }
    assert segments[..|segments|] == segments;
    formatted := Trim(output);
  }

  /** Without speaker labels the output is the segment texts in order, with no header. */
  lemma {:induction false} UnlabelledIsPlainText(segments: seq<TranscriptionSegment>)
    requires forall i :: 0 <= i < |segments| ==> segments[i].speaker.None?
    ensures Labelled(segments) == Texts(segments)
  {
    if segments != [] {
      UnlabelledIsPlainText(segments[..|segments| - 1]);
    }
  }

  /** Segments without a label neither emit a header nor reset the current speaker. */
  lemma UnlabelledKeepsSpeaker(segments: seq<TranscriptionSegment>, s: TranscriptionSegment)
    requires s.speaker.None?
    ensures CurrentSpeaker(segments + [s]) == CurrentSpeaker(segments)
    ensures Labelled(segments + [s]) == Labelled(segments) + s.text
  {
    assert (segments + [s])[..|segments|] == segments;
  }

  /** A repeated label emits no second header; a changed one emits exactly "\n[label]\n". */
  lemma HeaderOnChange(segments: seq<TranscriptionSegment>, s: TranscriptionSegment)
    requires s.speaker.Some?
    ensures CurrentSpeaker(segments + [s]) == s.speaker
    ensures s.speaker == CurrentSpeaker(segments) ==> Labelled(segments + [s]) == Labelled(segments) + s.text
    ensures s.speaker != CurrentSpeaker(segments) ==>
      Labelled(segments + [s]) == Labelled(segments) + "\n[" + s.speaker.value + "]\n" + s.text
  {
    assert (segments + [s])[..|segments|] == segments;
  }

  /**
   * With segments, the output neither starts nor ends with whitespace or a
   * newline, and is a slice of the labelled text.
   */
  lemma FormattedIsTrimmed(r: TranscriptionResponse)
    requires r.segments.Some? && r.segments.value != []
    ensures var f := Formatted(r);
      f != [] ==> !IsWhitespaceOrNewline(f[0]) && !IsWhitespaceOrNewline(f[|f| - 1])
    ensures Formatted(r) == [] <==> AllWhitespace(Labelled(r.segments.value))
  {
    var l := Labelled(r.segments.value);
    assert Formatted(r) == Trim(l);
    TrimEnds(l);
  }

  /** Every character is whitespace or a newline. */
  predicate AllWhitespace(s: string) {
    forall k :: 0 <= k < |s| ==> IsWhitespaceOrNewline(s[k])
  }

  /** A trimmed string neither starts nor ends with whitespace, and is empty exactly for all-whitespace input. */
  lemma TrimEnds(s: string)
    ensures var t := Trim(s); t != [] ==> !IsWhitespaceOrNewline(t[0]) && !IsWhitespaceOrNewline(t[|t| - 1])
    ensures Trim(s) == [] <==> AllWhitespace(s)
  {
    var t := Text.TrimWhere(s, IsWhitespaceOrNewline);
    assert Trim(s) == t;
  }

  // ------------------------------------------------------------- multipart body

  /** The dash-boundary line that opens every part. */
  function DelimiterLine(boundary: string): string {
    "--" + boundary + "\r\n"
  }

  /** The close-delimiter line that ends the body. */
  function CloseDelimiter(boundary: string): string {
    "--" + boundary + "--\r\n"
  }

  /** The Content-Disposition line of a file part. */
  function FileDisposition(name: string, filename: string): string {
    "Content-Disposition: form-data; name=\"" + name + "\"; filename=\"" + filename + "\"\r\n"
  }

  /** The Content-Type line of a file part, and the blank line that ends its headers. */
  function ContentTypeLines(contentType: string): string {
    "Content-Type: " + contentType + "\r\n\r\n"
  }

  /** The Content-Disposition line of a field, and the blank line that ends its headers. */
  function FieldDisposition(name: string): string {
    "Content-Disposition: form-data; name=\"" + name + "\"\r\n\r\n"
  }

  const Crlf: string := "\r\n"

  /** A whole text field as text. */
  function FieldText(boundary: string, name: string, value: string): string {
    DelimiterLine(boundary) + FieldDisposition(name) + value + Crlf
  }

  datatype Part = FilePart(name: string, filename: string, contentType: string, data: Bytes) | FieldPart(name: string, value: string)

  /** A part's bytes, piece by piece as each piece is appended. */
  function EncodePart(boundary: string, p: Part): Bytes {
    match p
    case FilePart(name, filename, contentType, data) =>
      Utf8.Encode(DelimiterLine(boundary)) + Utf8.Encode(FileDisposition(name, filename)) +
      Utf8.Encode(ContentTypeLines(contentType)) + data + Utf8.Encode(Crlf)
    case FieldPart(name, value) =>
      Utf8.Encode(DelimiterLine(boundary)) + Utf8.Encode(FieldDisposition(name)) + Utf8.Encode(value) + Utf8.Encode(Crlf)
  }

  /** A field's bytes are the UTF-8 encoding of its text. */
  lemma FieldIsText(boundary: string, name: string, value: string)
    ensures EncodePart(boundary, FieldPart(name, value)) == Utf8.Encode(FieldText(boundary, name, value))
  {
    var a, b := DelimiterLine(boundary), FieldDisposition(name);
    Utf8.EncodeAppend(a, b);
    Utf8.EncodeAppend(a + b, value);
    Utf8.EncodeAppend(a + b + value, Crlf);
  }

  /** The body: each part in turn, then the close delimiter. */
  function EncodeBody(boundary: string, parts: seq<Part>): Bytes {
    if parts == [] then Utf8.Encode(CloseDelimiter(boundary))
    else EncodePart(boundary, parts[0]) + EncodeBody(boundary, parts[1..])
  }

  /** The parts of a transcription request: the audio file, the model, then the optional fields. */
  function RequestParts(filename: string, audio: Bytes, model: string, language: Option<string>, diarization: bool): seq<Part> {
    [FilePart("file", filename, "audio/mp4", audio), FieldPart("model", model)] +
    (if language.Some? then [FieldPart("language", language.value)] else []) +
    (if diarization then [FieldPart("diarization", "true")] else [])
  }

  function PartName(p: Part): string {
    p.name
  }

  /** The parts are named file, model, language (only if given) and diarization (only if enabled), in that order. */
  lemma RequestPartsOrder(filename: string, audio: Bytes, model: string, language: Option<string>, diarization: bool)
    ensures var ps := RequestParts(filename, audio, model, language, diarization);
      var names := seq(|ps|, i requires 0 <= i < |ps| => ps[i].name);
      names == ["file", "model"] + (if language.Some? then ["language"] else []) + (if diarization then ["diarization"] else [])
    ensures RequestParts(filename, audio, model, language, diarization)[0] == FilePart("file", filename, "audio/mp4", audio)
    ensures RequestParts(filename, audio, model, language, diarization)[1] == FieldPart("model", model)
  {
  }

  /** Every body opens with the dash-boundary line of its first part and ends with the close delimiter. */
  lemma BodyFraming(boundary: string, parts: seq<Part>)
    ensures var b := EncodeBody(boundary, parts);
      var close := Utf8.Encode(CloseDelimiter(boundary));
      |b| >= |close| && b[|b| - |close|..] == close
    ensures parts != [] ==>
      var b := EncodeBody(boundary, parts);
      var open := Utf8.Encode(DelimiterLine(boundary));
      |b| >= |open| && b[..|open|] == open
  {
    BodyEndsWithClose(boundary, parts);
    if parts != [] {
      var open := Utf8.Encode(DelimiterLine(boundary));
      var rest := PartOpens(boundary, parts[0]);
      PrefixOfAppend(open, rest, EncodeBody(boundary, parts[1..]));
    }
  }

  /** Every part starts with the dash-boundary line. */
  lemma PartOpens(boundary: string, p: Part) returns (rest: Bytes)
    ensures EncodePart(boundary, p) == Utf8.Encode(DelimiterLine(boundary)) + rest
  {
    var open := Utf8.Encode(DelimiterLine(boundary));
    match p
    case FilePart(name, filename, contentType, data) =>
      rest := Utf8.Encode(FileDisposition(name, filename)) + Utf8.Encode(ContentTypeLines(contentType)) + data + Utf8.Encode(Crlf);
    case FieldPart(name, value) =>
      rest := Utf8.Encode(FieldDisposition(name)) + Utf8.Encode(value) + Utf8.Encode(Crlf);
  }

  lemma PrefixOfAppend(a: Bytes, b: Bytes, c: Bytes)
    ensures |a + b + c| >= |a| && (a + b + c)[..|a|] == a
  {
    assert (a + b + c)[..|a|] == a;
  }

  lemma SuffixOfAppend(a: Bytes, b: Bytes, close: Bytes)
    requires |b| >= |close| && b[|b| - |close|..] == close
    ensures |a + b| >= |close| && (a + b)[|a + b| - |close|..] == close
  {
    assert (a + b)[|a + b| - |close|..] == b[|b| - |close|..];
  }

  lemma {:induction false} BodyEndsWithClose(boundary: string, parts: seq<Part>)
    ensures var b := EncodeBody(boundary, parts);
      var close := Utf8.Encode(CloseDelimiter(boundary));
      |b| >= |close| && b[|b| - |close|..] == close
  {
    var close := Utf8.Encode(CloseDelimiter(boundary));
    if parts == [] {
      assert EncodeBody(boundary, parts) == close;
      assert close[|close| - |close|..] == close;
    } else {
      BodyEndsWithClose(boundary, parts[1..]);
      SuffixOfAppend(EncodePart(boundary, parts[0]), EncodeBody(boundary, parts[1..]), close);
    }
  }

  /** `appendField`: the four pieces appended in turn form one field. */
  method AppendField(body: Bytes, boundary: string, name: string, value: string) returns (out: Bytes)
    ensures out == body + EncodePart(boundary, FieldPart(name, value))
  {
    out := body + Utf8.Encode(DelimiterLine(boundary));
    out := out + Utf8.Encode(FieldDisposition(name));
    out := out + Utf8.Encode(value);
    out := out + Utf8.Encode(Crlf);
  }

  /** `appendPart`: the headers, the raw data, then CRLF. */
  method AppendPart(body: Bytes, boundary: string, name: string, filename: string, contentType: string, data: Bytes)
    returns (out: Bytes)
    ensures out == body + EncodePart(boundary, FilePart(name, filename, contentType, data))
  {
    out := body + Utf8.Encode(DelimiterLine(boundary));
    out := out + Utf8.Encode(FileDisposition(name, filename));
    out := out + Utf8.Encode(ContentTypeLines(contentType));
    out := out + data;
    out := out + Utf8.Encode(Crlf);
  }

  /** The parts without the close delimiter. */
  function PartsBytes(boundary: string, parts: seq<Part>): Bytes {
    if parts == [] then [] else EncodePart(boundary, parts[0]) + PartsBytes(boundary, parts[1..])
  }

  lemma {:induction false} EncodeBodySplit(boundary: string, parts: seq<Part>)
    ensures EncodeBody(boundary, parts) == PartsBytes(boundary, parts) + Utf8.Encode(CloseDelimiter(boundary))
  {
    if parts != [] {
      EncodeBodySplit(boundary, parts[1..]);
    }
  }

  lemma {:induction false} PartsBytesConcat(boundary: string, a: seq<Part>, b: seq<Part>)
    ensures PartsBytes(boundary, a + b) == PartsBytes(boundary, a) + PartsBytes(boundary, b)
  {
    if a != [] {
      assert (a + b)[1..] == a[1..] + b;
      PartsBytesConcat(boundary, a[1..], b);
    } else {
      assert a + b == b;
    }
  }

  /** Optional parts contribute their bytes when present and nothing otherwise. */
  function OptionalBytes(boundary: string, present: bool, p: Part): Bytes {
    if present then EncodePart(boundary, p) else []
  }

  lemma OptionalPartBytes(boundary: string, present: bool, p: Part)
    ensures PartsBytes(boundary, if present then [p] else []) == OptionalBytes(boundary, present, p)
  {
    if present {
      assert [p][1..] == [];
    }
  }

  /** The request body laid out part by part. */
  lemma RequestBodyLayout(boundary: string, filename: string, audio: Bytes, model: string, language: Option<string>, diarization: bool)
    ensures EncodeBody(boundary, RequestParts(filename, audio, model, language, diarization)) ==
      EncodePart(boundary, FilePart("file", filename, "audio/mp4", audio)) + EncodePart(boundary, FieldPart("model", model)) +
      OptionalBytes(boundary, language.Some?, FieldPart("language", language.GetOr(""))) +
      OptionalBytes(boundary, diarization, FieldPart("diarization", "true")) +
      Utf8.Encode(CloseDelimiter(boundary))
  {
    var head := [FilePart("file", filename, "audio/mp4", audio), FieldPart("model", model)];
    var lang := if language.Some? then [FieldPart("language", language.GetOr(""))] else [];
    var dia := if diarization then [FieldPart("diarization", "true")] else [];
    assert RequestParts(filename, audio, model, language, diarization) == head + lang + dia;
    EncodeBodySplit(boundary, head + lang + dia);
    PartsBytesConcat(boundary, head + lang, dia);
    PartsBytesConcat(boundary, head, lang);
    OptionalPartBytes(boundary, language.Some?, FieldPart("language", language.GetOr("")));
    OptionalPartBytes(boundary, diarization, FieldPart("diarization", "true"));
    PairBytes(boundary, head[0], head[1]);
  }

  lemma PairBytes(boundary: string, a: Part, b: Part)
    ensures PartsBytes(boundary, [a, b]) == EncodePart(boundary, a) + EncodePart(boundary, b)
  {
    assert [a, b][1..] == [b];
    assert [b][1..] == [];
    assert PartsBytes(boundary, [b]) == EncodePart(boundary, b) + [];
    assert EncodePart(boundary, b) + [] == EncodePart(boundary, b);
  }

  /** The body `performRequest` assembles. */
  method BuildBody(boundary: string, filename: string, audio: Bytes, model: string, language: Option<string>, diarization: bool)
    returns (body: Bytes)
    ensures body == EncodeBody(boundary, RequestParts(filename, audio, model, language, diarization))
  {
    body := AppendPart([], boundary, "file", filename, "audio/mp4", audio);
    assert body == EncodePart(boundary, FilePart("file", filename, "audio/mp4", audio));
    body := AppendField(body, boundary, "model", model);
    ghost var head := body;
    if language.Some? {
      body := AppendField(body, boundary, "language", language.value);
    }
    assert body == head + OptionalBytes(boundary, language.Some?, FieldPart("language", language.GetOr("")));
    ghost var withLanguage := body;
    if diarization {
      body := AppendField(body, boundary, "diarization", "true");
    }
    assert body == withLanguage + OptionalBytes(boundary, diarization, FieldPart("diarization", "true"));
    body := body + Utf8.Encode(CloseDelimiter(boundary));
    RequestBodyLayout(boundary, filename, audio, model, language, diarization);
  }

  /** The boundary: a fixed prefix and the UUID with its dashes removed. */
  function Boundary(uuid: string): (b: string)
    ensures |b| >= 19 && b[..19] == "----VoxtralBoundary"
    ensures forall k :: 19 <= k < |b| ==> b[k] != '-'
  {
    "----VoxtralBoundary" + RemoveDashes(uuid)
  }

  /** `replacingOccurrences(of: "-", with: "")`: every other character is kept, in order. */
  function RemoveDashes(s: string): (r: string)
    ensures |r| <= |s|
    ensures forall k :: 0 <= k < |r| ==> r[k] != '-'
    ensures (forall k :: 0 <= k < |s| ==> s[k] != '-') ==> r == s
    ensures s != [] && s[0] != '-' ==> r != [] && r[0] == s[0]
    ensures s != [] && s[0] == '-' ==> r == RemoveDashes(s[1..])
  {
    if s == [] then [] else (if s[0] == '-' then [] else [s[0]]) + RemoveDashes(s[1..])
  }

  /** Removing dashes works piece by piece, so what is left of each part stays in its place. */
  lemma {:induction false} RemoveDashesConcat(a: string, b: string)
    ensures RemoveDashes(a + b) == RemoveDashes(a) + RemoveDashes(b)
  {
    if a == [] {
      assert a + b == b;
    } else {
      assert (a + b)[1..] == a[1..] + b;
      RemoveDashesConcat(a[1..], b);
    }
  }

  // -------------------------------------------------------------- the request

  const TranscriptionURL: string := "https://api.mistral.ai/v1/audio/transcriptions"
  const DefaultModel: string := "voxtral-mini-latest"
  const NoDetails: string := "Keine Details"

  datatype HttpRequest = HttpRequest(url: string, httpMethod: string, authorization: string, contentType: string, body: Bytes)

  /** What the HTTP exchange gives: a status code (0 for a non-HTTP response) and data, or a failure. */
  datatype HttpOutcome = Responded(statusCode: int, data: Bytes) | ExchangeFailed(description: string)

  datatype VoxtralError = ApiKeyMissing | FileReadFailed(filename: string) | ApiError(code: int, detail: string)

  /** Why a transcription failed: a `VoxtralError`, a failed exchange, or a response that did not decode. */
  datatype TranscribeError = Voxtral(error: VoxtralError) | Exchange(description: string) | ResponseNotDecodable

  /** The number a string of decimal digits reads as. */
  function DigitsValue(s: string): (n: nat)
    requires forall k :: 0 <= k < |s| ==> '0' <= s[k] <= '9'
  {
    if s == [] then 0 else 10 * DigitsValue(s[..|s| - 1]) + (s[|s| - 1] as int - '0' as int)
  }

  /** `"\(n)"` for a nonnegative integer: its decimal digits, without leading zeros, reading back as `n`. */
  function NatToString(n: nat): (s: string)
    ensures |s| >= 1
    ensures forall k :: 0 <= k < |s| ==> '0' <= s[k] <= '9'
    ensures DigitsValue(s) == n
    ensures s[0] == '0' ==> s == "0"
  {
    if n < 10 then [('0' as int + n) as char]
    else
      var s := NatToString(n / 10) + [('0' as int + n % 10) as char];
      assert s[..|s| - 1] == NatToString(n / 10);
      s
  }

  function IntToString(i: int): string {
    if i < 0 then "-" + NatToString(-i) else NatToString(i)
  }

  /** `errorDescription`. */
  function ErrorDescription(e: VoxtralError): string {
    match e
    case ApiKeyMissing => "Mistral API-Key nicht konfiguriert. Bitte in Einstellungen eingeben."
    case FileReadFailed(filename) => "Audio-Datei \"" + filename + "\" konnte nicht gelesen werden."
    case ApiError(code, detail) => "Voxtral API-Fehler (" + IntToString(code) + "): " + detail
  }

  /** An API error's description names the status code and ends with the server's detail. */
  lemma ApiErrorDescription(code: nat, detail: string)
    ensures var d := ErrorDescription(ApiError(code, detail));
      d == "Voxtral API-Fehler (" + NatToString(code) + "): " + detail &&
      d[|d| - |detail|..] == detail
  {
  }

  /** The status check: anything but 200 is an API error carrying the body as UTF-8 text, or "Keine Details". */
  function CheckResponse(o: HttpOutcome, decode: Bytes -> Option<TranscriptionResponse>): (r: Result<TranscriptionResponse, TranscribeError>)
    ensures o.Responded? && o.statusCode != 200 ==>
      r == Failure(Voxtral(ApiError(o.statusCode, Utf8.Decode(o.data).GetOr(NoDetails))))
    ensures r.Success? <==> o.Responded? && o.statusCode == 200 && decode(o.data).Some?
    ensures r.Success? ==> r.value == decode(o.data).value
    ensures o.ExchangeFailed? ==> r == Failure(Exchange(o.description))
    ensures o.Responded? && o.statusCode == 200 && decode(o.data).None? ==> r == Failure(ResponseNotDecodable)
  {
    match o
    case ExchangeFailed(d) => Failure(Exchange(d))
    case Responded(code, data) =>
      if code != 200 then Failure(Voxtral(ApiError(code, Utf8.Decode(data).GetOr(NoDetails))))
      else match decode(data)
        case Some(resp) => Success(resp)
        case None => Failure(ResponseNotDecodable)
  }

  class VoxtralTranscriptionService {
    var isTranscribing: bool
    var lastTranscription: Option<TranscriptionResponse>
    var lastError: Option<TranscribeError>
    var model: string
    /** Requests handed to the HTTP exchange. */
    var requests: seq<HttpRequest>

    constructor ()
      ensures !isTranscribing && lastTranscription == None && lastError == None
      ensures model == DefaultModel && requests == []
    {
      isTranscribing := false;
      lastTranscription := None;
      lastError := None;
      model := DefaultModel;
      requests := [];
    }

    /**
     * `performRequest`: read the audio (`None` when the file cannot be
     * read), build and send the request, check the status, decode.
     */
    method PerformRequest(filename: string, audio: Option<Bytes>, apiKey: string, language: Option<string>,
                          diarization: bool, uuid: string,
                          exchange: HttpRequest -> HttpOutcome, decode: Bytes -> Option<TranscriptionResponse>)
      returns (r: Result<TranscriptionResponse, TranscribeError>)
      modifies this`requests
      ensures audio.None? ==> r == Failure(Voxtral(FileReadFailed(filename))) && requests == old(requests)
      ensures audio.Some? ==>
        var boundary := Boundary(uuid);
        var request := HttpRequest(TranscriptionURL, "POST", "Bearer " + apiKey,
                                   "multipart/form-data; boundary=" + boundary,
                                   EncodeBody(boundary, RequestParts(filename, audio.value, model, language, diarization)));
        requests == old(requests) + [request] && r == CheckResponse(exchange(request), decode)
    {
      if audio.None? {
        return Failure(Voxtral(FileReadFailed(filename)));
      }
      var boundary := Boundary(uuid);
      var body := BuildBody(boundary, filename, audio.value, model, language, diarization);
      var request := HttpRequest(TranscriptionURL, "POST", "Bearer " + apiKey,
                                 "multipart/form-data; boundary=" + boundary, body);
      requests := requests + [request];
      r := CheckResponse(exchange(request), decode);
    }

    /**
     * `transcribe`: a missing or empty key fails before any flag changes;
     * otherwise the outcome is recorded and isTranscribing ends false.
     */
    method Transcribe(apiKey: Option<string>, filename: string, audio: Option<Bytes>, language: Option<string>,
                      diarization: bool, uuid: string,
                      exchange: HttpRequest -> HttpOutcome, decode: Bytes -> Option<TranscriptionResponse>)
      returns (r: Result<TranscriptionResponse, TranscribeError>)
      modifies this`isTranscribing, this`lastTranscription, this`lastError, this`requests
      ensures apiKey.None? || apiKey == Some("") ==>
        r == Failure(Voxtral(ApiKeyMissing)) &&
        isTranscribing == old(isTranscribing) && lastError == old(lastError) &&
        lastTranscription == old(lastTranscription) && requests == old(requests)
      ensures apiKey.Some? && apiKey != Some("") ==>
        !isTranscribing &&
        (r.Success? ==> lastTranscription == Some(r.value) && lastError == None) &&
        (r.Failure? ==> lastTranscription == old(lastTranscription) && lastError == Some(r.error))
      ensures apiKey.Some? && apiKey != Some("") && audio.None? ==>
        r == Failure(Voxtral(FileReadFailed(filename))) && requests == old(requests)
      ensures apiKey.Some? && apiKey != Some("") && audio.Some? ==>
        |requests| == |old(requests)| + 1 && requests[..|old(requests)|] == old(requests) &&
        requests[|old(requests)|].authorization == "Bearer " + apiKey.value &&
        r == CheckResponse(exchange(requests[|old(requests)|]), decode)
    {
      if apiKey.None? || apiKey.value == "" {
        return Failure(Voxtral(ApiKeyMissing));
      }
      isTranscribing := true;
      lastError := None;
      r := PerformRequest(filename, audio, apiKey.value, language, diarization, uuid, exchange, decode);
      if r.Success? {
        lastTranscription := Some(r.value);
      } else {
        lastError := Some(r.error);
      }
      isTranscribing := false;
    }
  }
}
