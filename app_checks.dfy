/**
 * The request checks of the Flask back end (`backend/app.py`) that are
 * plain computations on the request: the bearer-token header, the upload's
 * file name and extension, the blank-text test on extracted text, the
 * chat-preview truncation and the study-tool type.
 */
module AppChecks {
  import opened Wrappers
  import opened Json

  /** A JSON error reply: HTTP status and the `message` field. */
  datatype Response = Response(status: int, message: string)

  // ---------------------------------------------------------------- tokens

  const BearerPrefix: string := "Bearer "

  /** What `token_required` makes of the `Authorization` header before decoding it. */
  datatype TokenCheck = Token(token: string) | Unauthorized(response: Response)

  /**
   * A missing or empty header is refused with 401 "Token is missing!"; a
   * leading "Bearer " (seven characters) is dropped once; any other header
   * is taken as the token unchanged.
   */
  function TokenFromHeader(header: Option<string>): (r: TokenCheck)
    ensures r.Unauthorized? <==> header.None? || header.value == ""
    ensures r.Unauthorized? ==> r.response == Response(401, "Token is missing!")
    ensures r.Token? ==>
      (BearerPrefix <= header.value && header.value == BearerPrefix + r.token) ||
      (!(BearerPrefix <= header.value) && header.value == r.token)
  {
    if header.None? || header.value == "" then Unauthorized(Response(401, "Token is missing!"))
    else if BearerPrefix <= header.value then Token(header.value[|BearerPrefix|..])
    else Token(header.value)
  }

  /** "Bearer " followed by a token gives back that token, whatever it is. */
  lemma BearerRoundTrip(token: string)
    ensures TokenFromHeader(Some(BearerPrefix + token)) == Token(token)
  {
    assert BearerPrefix <= BearerPrefix + token;
    assert (BearerPrefix + token)[|BearerPrefix|..] == token;
  }

  // ------------------------------------------------------------- file names

  /** `s.rsplit('.', 1)[1]` when `s` has a dot: the text after the last dot; all of `s` otherwise. */
  function AfterLastDot(s: string): (r: string)
    ensures |r| <= |s| && r == s[|s| - |r|..]
    ensures '.' !in r
    ensures |r| < |s| ==> s[|s| - |r| - 1] == '.'
  {
    if s == [] then ""
    else if s[|s| - 1] == '.' then ""
    else
      var r' := AfterLastDot(s[..|s| - 1]);
      assert s[..|s| - 1][|s| - 1 - |r'|..] + [s[|s| - 1]] == s[|s| - 1 - |r'|..];
      r' + [s[|s| - 1]]
  }

  /** Splitting at the last dot takes back exactly the part after the dot. */
  lemma {:induction false} AfterLastDotRoundTrip(stem: string, ext: string)
    requires '.' !in ext
    ensures AfterLastDot(stem + "." + ext) == ext
  {
    if ext != [] {
      var s := stem + "." + ext;
      assert s[..|s| - 1] == stem + "." + ext[..|ext| - 1];
      assert ext[|ext| - 1] in ext;
      assert forall c :: c in ext[..|ext| - 1] ==> c in ext;
      AfterLastDotRoundTrip(stem, ext[..|ext| - 1]);
      assert ext[..|ext| - 1] + [ext[|ext| - 1]] == ext;
    } else {
      assert (stem + "." + ext)[|stem + "." + ext| - 1] == '.';
    }
  }

  /** ASCII lower case. */
  function LowerChar(c: char): char {
    if 'A' <= c <= 'Z' then (c as int + 32) as char else c
  }

  function Lower(s: string): (r: string)
    ensures |r| == |s| && forall k :: 0 <= k < |s| ==> r[k] == LowerChar(s[k])
  {
    if s == [] then "" else [LowerChar(s[0])] + Lower(s[1..])
  }

  /** `file_ext` in `upload_document`: after the last dot, lower-cased, or "" without a dot. */
  function Extension(filename: string): (r: string)
    ensures '.' !in filename ==> r == ""
    ensures '.' in filename ==> r == Lower(AfterLastDot(filename))
  {
    if '.' in filename then Lower(AfterLastDot(filename)) else ""
  }

  /** The extensions `upload_document` accepts. */
  predicate AllowedExtension(ext: string) {
    ext == "pdf" || ext == "docx" || ext == "pptx" || ext == "txt"
  }

  /**
   * The checks `upload_document` makes before extracting any text: a
   * `file` part must be present, its name non-empty, its extension allowed;
   * `filename` is `None` when the request has no `file` part.
   */
  function CheckUpload(filename: Option<string>): (r: Option<Response>)
    ensures filename.None? ==> r == Some(Response(400, "No file provided!"))
    ensures filename == Some("") ==> r == Some(Response(400, "No file selected!"))
    ensures filename.Some? && filename.value != "" && !AllowedExtension(Extension(filename.value)) ==>
      r == Some(Response(400, "File type not supported!"))
    ensures r.None? <==> filename.Some? && filename.value != "" && AllowedExtension(Extension(filename.value))
    ensures r.Some? ==> r.value.status == 400
  {
    if filename.None? then Some(Response(400, "No file provided!"))
    else if filename.value == "" then Some(Response(400, "No file selected!"))
    else if !AllowedExtension(Extension(filename.value)) then Some(Response(400, "File type not supported!"))
    else None
  }

  // ---------------------------------------------------------- extracted text

  /** The characters Python's `str.isspace` (and so `str.strip`) treats as white space. */
  predicate IsSpace(c: char) {
    || ('\t' <= c <= '\r')              // tab, line feed, vertical tab, form feed, carriage return
    || ('\U{1c}' <= c <= ' ')            // the four separators and the space
    || c == '\U{85}' || c == '\U{a0}' || c == '\U{1680}'
    || ('\U{2000}' <= c <= '\U{200a}')
    || c == '\U{2028}' || c == '\U{2029}' || c == '\U{202f}' || c == '\U{205f}' || c == '\U{3000}'
  }

  /** `s.lstrip()`. */
  function StripLeading(s: string): (r: string)
    ensures |r| <= |s| && r == s[|s| - |r|..]
    ensures r != "" ==> !IsSpace(r[0])
  {
    if s == [] || !IsSpace(s[0]) then s else StripLeading(s[1..])
  }

  /** `s.rstrip()`. */
  function StripTrailing(s: string): (r: string)
    ensures |r| <= |s| && r == s[..|r|]
    ensures r != "" ==> !IsSpace(r[|r| - 1])
  {
    if s == [] || !IsSpace(s[|s| - 1]) then s else StripTrailing(s[..|s| - 1])
  }

  /** `s.strip()`. */
  function StripSpace(s: string): string {
    StripTrailing(StripLeading(s))
  }

  /** `not extracted_text.strip()` holds exactly of text made only of white space. */
  lemma {:induction false} StripEmptyIffBlank(s: string)
    ensures StripSpace(s) == "" <==> forall k :: 0 <= k < |s| ==> IsSpace(s[k])
  {
    if s != [] {
      if IsSpace(s[0]) {
        StripEmptyIffBlank(s[1..]);
        assert forall k :: 0 < k < |s| ==> s[k] == s[1..][k - 1];
      } else {
        assert StripLeading(s) == s;
        assert StripTrailing(s) != "" by {
          if StripTrailing(s) == "" {
            TrailingEmptyAllSpace(s);
          }
        }
      }
    }
  }

  lemma {:induction false} TrailingEmptyAllSpace(s: string)
    requires StripTrailing(s) == ""
    ensures forall k :: 0 <= k < |s| ==> IsSpace(s[k])
  {
    if s != [] {
      TrailingEmptyAllSpace(s[..|s| - 1]);
      assert forall k :: 0 <= k < |s| - 1 ==> s[k] == s[..|s| - 1][k];
    }
  }

  /** What the text extractor did with the upload (its internals are outside this model). */
  datatype Extraction = Extracted(text: string) | ExtractorFailed(error: string)

  /**
   * The reply of `upload_document` for a file name and what extraction
   * gave: the checks first, then 500 when the extractor raised, 400 on
   * blank text, and 201 when a Document is stored.
   */
  function UploadReply(filename: Option<string>, extraction: Extraction): (r: Response)
    ensures CheckUpload(filename).Some? ==> r == CheckUpload(filename).value
    ensures r.status == 201 ==> filename.Some? && extraction.Extracted?
    ensures r.status == 201 <==>
      CheckUpload(filename).None? && extraction.Extracted? && StripSpace(extraction.text) != ""
    ensures CheckUpload(filename).None? && extraction.ExtractorFailed? ==>
      r == Response(500, "Error processing document!")
    ensures CheckUpload(filename).None? && extraction.Extracted? && StripSpace(extraction.text) == "" ==>
      r == Response(400, "No text could be extracted from the document!")
  {
    match CheckUpload(filename)
    case Some(refusal) => refusal
    case None =>
      match extraction
      case ExtractorFailed(_) => Response(500, "Error processing document!")
      case Extracted(text) =>
        if StripSpace(text) == "" then Response(400, "No text could be extracted from the document!")
        else Response(201, "Document uploaded successfully!")
  }

  // ------------------------------------------------------------ chat preview

  /** `msg.message[:50] + ('...' if len(msg.message) > 50 else '')`. */
  function Truncate(text: string): (r: string)
    ensures |r| <= 53
    ensures |text| <= 50 ==> r == text
    ensures |text| > 50 ==> |r| == 53 && r == text[..50] + "..."
  {
    if |text| > 50 then text[..50] + "..." else text
  }

  // -------------------------------------------------------------- study tools

  /** The tool types `get_study_tools` accepts. */
  predicate ValidToolType(v: Value) {
    v == Str("flashcards") || v == Str("quiz") || v == Str("mindmap")
  }
}
