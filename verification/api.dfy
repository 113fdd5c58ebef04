/** The three upload endpoints (app/main.py): the extension gate, the
    text-extraction error mapping, the four entity extractions, and the
    response with its preview and metadata. File storage, timing and token
    counting are foreign and enter as parameters (`Telemetry`). */
module Api {
  import opened Values
  import Llm
  import Parser

  const UnsupportedDetail := "Only PDF and DOCX files are supported."

  /** How many leading characters of the text the response previews. */
  const PreviewLimit := 1000

  // ================================================================ extension

  /** `str.lower()` on one character, for the ASCII letters. */
  function LowerChar(c: char): char {
    if 'A' <= c <= 'Z' then (c as int + 32) as char else c
  }

  /** `str.lower()`, character by character. It keeps every position, makes
      and removes no dot, and leaves no ASCII capital behind. */
  function Lower(s: string): (r: string)
    ensures |r| == |s|
    ensures forall i :: 0 <= i < |s| ==> (r[i] == '.' <==> s[i] == '.')
    ensures forall i :: 0 <= i < |r| ==> !('A' <= r[i] <= 'Z')
  {
    seq(|s|, i requires 0 <= i < |s| => LowerChar(s[i]))
  }

  /** A text without capitals is its own lowered form. */
  lemma LowerKeepsSmall(s: string)
    requires forall i :: 0 <= i < |s| ==> !('A' <= s[i] <= 'Z')
    ensures Lower(s) == s
  {
  }

  /** Lowering twice is lowering once. */
  lemma LowerIdempotent(s: string)
    ensures Lower(Lower(s)) == Lower(s)
  {
    LowerKeepsSmall(Lower(s));
  }

  /** Lowering a suffix is the suffix of the lowered text. */
  lemma LowerSuffix(s: string, k: nat)
    requires k <= |s|
    ensures Lower(s[k..]) == Lower(s)[k..]
  {
  }

  /** `s.split(".")[-1]`: the text after the last dot, or all of `s` when it
      has no dot. It is the longest suffix of `s` without a dot. */
  function AfterLastDot(s: string): (r: string)
    ensures '.' !in r
    ensures |r| <= |s| && r == s[|s| - |r|..]
    ensures |r| < |s| ==> s[|s| - |r| - 1] == '.'
  {
    s[LastDotBefore(s, |s|) + 1..]
  }

  /** The position of the last dot among the first `k` characters of `s`,
      or -1 when there is none. */
  function LastDotBefore(s: string, k: nat): (i: int)
    requires k <= |s|
    ensures -1 <= i < k
    ensures i >= 0 ==> s[i] == '.'
    ensures forall j :: i < j < k ==> s[j] != '.'
  {
    if k == 0 then -1
    else if s[k - 1] == '.' then k - 1
    else LastDotBefore(s, k - 1)
  }

  /** A character of `s` at or after the start of its suffix `r` is a
      character of `r`. */
  lemma CharInSuffix(s: string, r: string, p: int)
    requires |r| <= |s| && r == s[|s| - |r|..]
    ensures |s| - |r| <= p < |s| ==> s[p] in r
  {
    if |s| - |r| <= p < |s| {
      assert r[p - (|s| - |r|)] == s[p];
    }
  }

  /** Two dot-free suffixes of `s`, each either all of `s` or preceded by a
      dot, are equal. */
  lemma LastPartUnique(s: string, r: string, t: string)
    requires '.' !in r && |r| <= |s| && r == s[|s| - |r|..]
    requires |r| < |s| ==> s[|s| - |r| - 1] == '.'
    requires '.' !in t && |t| <= |s| && t == s[|s| - |t|..]
    requires |t| < |s| ==> s[|s| - |t| - 1] == '.'
    ensures r == t
  {
    CharInSuffix(s, r, |s| - |t| - 1);
    CharInSuffix(s, t, |s| - |r| - 1);
  }

  /** The three facts `AfterLastDot` promises pin its result down: any
      dot-free suffix that is either all of `s` or preceded by a dot is it. */
  lemma AfterLastDotUnique(s: string, t: string)
    requires '.' !in t
    requires |t| <= |s| && t == s[|s| - |t|..]
    requires |t| < |s| ==> s[|s| - |t| - 1] == '.'
    ensures t == AfterLastDot(s)
  {
    LastPartUnique(s, AfterLastDot(s), t);
  }

  /** A filename without a dot is its own last part. */
  lemma NoDotWholeName(s: string)
    requires '.' !in s
    ensures AfterLastDot(s) == s
  {
  }

  /** `file.filename.split(".")[-1].lower()`. */
  function FileExtension(filename: string): (ext: string)
    ensures '.' !in ext
    ensures |ext| <= |filename|
    ensures ext == Lower(filename[|filename| - |ext|..])
    ensures |ext| < |filename| ==> filename[|filename| - |ext| - 1] == '.'
  {
    Lower(AfterLastDot(filename))
  }

  /** A dot-free name without capitals is its own extension. */
  lemma DotlessSmallName(s: string)
    requires '.' !in s
    requires forall i :: 0 <= i < |s| ==> !('A' <= s[i] <= 'Z')
    ensures FileExtension(s) == s
  {
    NoDotWholeName(s);
    LowerKeepsSmall(s);
  }

  /** `file_ext in ["pdf", "docx"]` */
  predicate IsSupported(ext: string) {
    ext == "pdf" || ext == "docx"
  }

  /** The extension is the lowered name's tail after its last dot. */
  lemma ExtensionIsLoweredTail(filename: string)
    ensures var ext := FileExtension(filename);
      ext == Lower(filename)[|filename| - |ext|..]
  {
    var ext := FileExtension(filename);
    var k := |filename| - |ext|;
    LowerSuffix(filename, k);
    assert ext == Lower(filename[k..]);
  }

  /** A text whose lowered form has no dot has no dot. */
  lemma DotFreeWhenLoweredIs(s: string)
    requires '.' !in Lower(s)
    ensures '.' !in s
  {
    forall i | 0 <= i < |s| ensures s[i] != '.' {
      assert Lower(s)[i] == LowerChar(s[i]);
    }
  }

  /** A dot-free tail of the lowered name that is either the whole name or
      preceded by a dot is the extension. */
  lemma ExtensionAt(filename: string, m: nat)
    requires m <= |filename|
    requires '.' !in Lower(filename)[|filename| - m..]
    requires m < |filename| ==> Lower(filename)[|filename| - m - 1] == '.'
    ensures FileExtension(filename) == Lower(filename)[|filename| - m..]
  {
    var n := |filename|;
    var t := filename[n - m..];
    LowerSuffix(filename, n - m);
    DotFreeWhenLoweredIs(t);
    AfterLastDotUnique(filename, t);
  }

  /** For any dot-free `e`, the extension is `e` exactly when the lowered
      name is `e` or ends in "." followed by `e`. */
  lemma ExtensionCharacterized(filename: string, e: string)
    requires '.' !in e
    ensures FileExtension(filename) == e <==>
      (Lower(filename) == e || EndsWith(Lower(filename), "." + e))
  {
    var name := Lower(filename);
    var n := |filename|;
    var ext := FileExtension(filename);
    if ext == e {
      ExtensionIsLoweredTail(filename);
      if |e| < n {
        assert name[n - |e| - 1..] == [name[n - |e| - 1]] + name[n - |e|..];
      }
    } else if name == e {
      assert name[n - n..] == name;
      ExtensionAt(filename, n);
    } else if EndsWith(name, "." + e) {
      assert name[n - |e|..] == name[n - |e| - 1..][1..];
      ExtensionAt(filename, |e|);
    }
  }

  /** An upload is accepted exactly when its lowered name ends in ".pdf" or
      ".docx", or is "pdf" or "docx" itself (a name without a dot is its own
      extension). */
  lemma AcceptedIff(filename: string)
    ensures IsSupported(FileExtension(filename)) <==>
      var name := Lower(filename);
      name == "pdf" || name == "docx" || EndsWith(name, ".pdf") || EndsWith(name, ".docx")
  {
    assert "." + "pdf" == ".pdf" && "." + "docx" == ".docx";
    ExtensionCharacterized(filename, "pdf");
    ExtensionCharacterized(filename, "docx");
  }

  /** Case does not matter: "CV.PDF" is a PDF upload. */
  lemma ExtensionIgnoresCase()
    ensures FileExtension("CV.PDF") == "pdf"
    ensures IsSupported(FileExtension("CV.PDF"))
  {
    AfterLastDotUnique("CV.PDF", "PDF");
  }

  /** Only the part after the last dot counts. */
  lemma ExtensionIsLastPart()
    ensures FileExtension("report.v2.Docx") == "docx"
    ensures IsSupported(FileExtension("report.v2.Docx"))
    ensures FileExtension("resume.pdf.exe") == "exe"
    ensures !IsSupported(FileExtension("resume.pdf.exe"))
  {
    AfterLastDotUnique("report.v2.Docx", "Docx");
    AfterLastDotUnique("resume.pdf.exe", "exe");
  }

  /** A legacy Word file is turned away. */
  lemma LegacyWordRejected()
    ensures FileExtension("resume.doc") == "doc"
    ensures !IsSupported(FileExtension("resume.doc"))
  {
    AfterLastDotUnique("resume.doc", "doc");
  }

  /** A name without a dot is its own extension, and is turned away. */
  lemma DotlessNameRejected()
    ensures FileExtension("resume") == "resume"
    ensures !IsSupported(FileExtension("resume"))
  {
    DotlessSmallName("resume");
  }

  /** Every extension the gate lets through is one the text extractor
      dispatches on: its own `ValueError` is never raised from a handler,
      and the outcome is the chosen reader's. */
  lemma AcceptedExtensionDispatches(filename: string, readings: Parser.Readings)
    requires IsSupported(FileExtension(filename))
    ensures var ext := FileExtension(filename);
      Parser.ExtractText(readings, ext) ==
        if ext == "pdf" then
          (match readings.pdfPages
           case Success(pages) => Success(Parser.ConcatPages(pages))
           case Failure(e) => Failure(e))
        else
          (match readings.docxParagraphs
           case Success(paragraphs) => Success(Parser.JoinParagraphs(paragraphs))
           case Failure(e) => Failure(e))
  {
  }

  // ================================================================ endpoints

  /** `/parse-resume`, `/parse-second-priority`, `/parse-third-priority`. */
  datatype Endpoint = ParseResume | ParseSecondPriority | ParseThirdPriority

  /** The four entity kinds an endpoint extracts, in the order it awaits
      them; no kind is awaited twice. */
  function EntityKinds(ep: Endpoint): (kinds: seq<Llm.EntityKind>)
    ensures |kinds| == 4
    ensures forall i, j :: 0 <= i < j < 4 ==> kinds[i] != kinds[j]
  {
    match ep
    case ParseResume => [Llm.Personal, Llm.Skills, Llm.Education, Llm.EmploymentHistory]
    case ParseSecondPriority => [Llm.Projects, Llm.Certifications, Llm.Awards, Llm.Languages]
    case ParseThirdPriority => [Llm.Memberships, Llm.Training, Llm.Skilling, Llm.Conferences]
  }

  /** The response keys of those four entities, in the same order. No key
      repeats, and none clashes with the preview or the metadata, so each
      entity's value survives in the response dict. */
  function EntityKeys(ep: Endpoint): (keys: seq<string>)
    ensures |keys| == 4
    ensures forall i, j :: 0 <= i < j < 4 ==> keys[i] != keys[j]
    ensures "raw_text_preview" !in keys && "meta" !in keys
  {
    match ep
    case ParseResume => ["personal_info", "skills", "education", "employment"]
    case ParseSecondPriority => ["projects", "certifications", "awards", "extract_languages"]
    case ParseThirdPriority => ["memberships", "training", "skilling", "conferences"]
  }

  /** The endpoint that extracts a kind. */
  function EndpointOf(kind: Llm.EntityKind): Endpoint {
    match kind
    case Personal | Skills | Education | EmploymentHistory => ParseResume
    case Projects | Certifications | Awards | Languages => ParseSecondPriority
    case Memberships | Training | Skilling | Conferences => ParseThirdPriority
  }

  /** The three endpoints split the twelve kinds between them: each kind is
      extracted by exactly one endpoint. */
  lemma EndpointsPartitionKinds(kind: Llm.EntityKind, ep: Endpoint)
    ensures kind in EntityKinds(ep) <==> ep == EndpointOf(kind)
  {
  }

  /** The keys of a successful response. */
  function ResponseKeys(ep: Endpoint): set<string> {
    match ep
    case ParseResume =>
      {"personal_info", "skills", "education", "employment", "raw_text_preview", "meta"}
    case ParseSecondPriority =>
      {"projects", "certifications", "awards", "extract_languages", "raw_text_preview", "meta"}
    case ParseThirdPriority =>
      {"memberships", "training", "skilling", "conferences", "raw_text_preview", "meta"}
  }

  const MetaKeys: set<string> :=
    {"char_count", "token_count", "estimated_cost_usd", "processing_time_seconds", "model_used", "timestamp"}

  /** What the handler takes from outside the model: the tokenizer's count,
      the cost estimate for a token count, the elapsed seconds already
      rounded, and the current UTC time in ISO format. */
  datatype Telemetry = Telemetry(
    countTokens: string -> nat, estimateCost: nat -> real, elapsedSeconds: real, utcNowIso: string)

  /** A handler's outcome: the JSON reply, an `HTTPException` it raises, or
      an exception it does not catch (an entity extraction's). */
  datatype Response =
    | Reply(body: Json)
    | HttpError(status: int, detail: string)
    | Unhandled(message: string)

  /** Outcomes taken in order: all the values when every outcome is a
      value, otherwise the first exception; the outcomes after it are never
      looked at. */
  function Collect<T>(outcomes: seq<Result<T>>): (r: Result<seq<T>>)
    ensures r.Success? ==>
      |r.value| == |outcomes| &&
      forall i :: 0 <= i < |outcomes| ==> outcomes[i] == Success(r.value[i])
    ensures r.Failure? ==>
      exists i :: 0 <= i < |outcomes| && outcomes[i] == Failure(r.error) &&
        forall j :: 0 <= j < i ==> outcomes[j].Success?
  {
    if outcomes == [] then Success([])
    else
      match outcomes[0]
      case Failure(e) => Failure(e)
      case Success(v) =>
        match Collect(outcomes[1..])
        case Failure(e) => Failure(e)
        case Success(vs) => Success([v] + vs)
  }

  /** The exception that escapes is the first one in order. */
  lemma {:induction false} CollectFirstFailure<T>(outcomes: seq<Result<T>>, i: nat)
    requires i < |outcomes| && outcomes[i].Failure?
    requires forall j :: 0 <= j < i ==> outcomes[j].Success?
    ensures Collect(outcomes) == Failure(outcomes[i].error)
  {
    if i > 0 {
      CollectFirstFailure(outcomes[1..], i - 1);
    }
  }

  /** An entity extraction function of app/llm.py as a handler awaits it:
      the resume text in, the parsed value or the exception out. */
  type Extractor = (Llm.EntityKind, string) -> Result<Json>

  /** The extraction functions app/llm.py defines, all backed by one
      completion service. */
  function LlmExtractor(chain: Llm.Completion): Extractor {
    (kind: Llm.EntityKind, text: string) => Llm.Extract(kind, chain, text)
  }

  /** What the four awaited extractions of an endpoint yield. */
  function Outcomes(kinds: seq<Llm.EntityKind>, extract: Extractor, text: string): seq<Result<Json>> {
    seq(|kinds|, i requires 0 <= i < |kinds| => extract(kinds[i], text))
  }

  /** `raw_text[:1000]` */
  function Preview(raw: string): (p: string)
    ensures StartsWith(raw, p)
    ensures |p| == if |raw| < PreviewLimit then |raw| else PreviewLimit
  {
    if |raw| <= PreviewLimit then raw else raw[..PreviewLimit]
  }

  /** The `meta` object of a response. */
  function Meta(raw: string, telemetry: Telemetry): map<string, Json> {
    var tokens := telemetry.countTokens(raw);
    map[
      "char_count" := JInt(|raw|),
      "token_count" := JInt(tokens),
      "estimated_cost_usd" := JFloat(telemetry.estimateCost(tokens)),
      "processing_time_seconds" := JFloat(telemetry.elapsedSeconds),
      "model_used" := JString(Llm.ModelName),
      "timestamp" := JString(telemetry.utcNowIso + "Z")]
  }

  /** The response dictionary: the four entities, the preview and `meta`. */
  function Body(ep: Endpoint, raw: string, values: seq<Json>, telemetry: Telemetry): Json
    requires |values| == 4
  {
    var keys := EntityKeys(ep);
    JObject(map[
      keys[0] := values[0], keys[1] := values[1], keys[2] := values[2], keys[3] := values[3],
      "raw_text_preview" := JString(Preview(raw)),
      "meta" := JObject(Meta(raw, telemetry))])
  }

  /** One endpoint handling one upload: the extension gate (400), text
      extraction (its exception becomes a 500 with the message), the four
      extractions in order, then the reply. */
  function Handle(ep: Endpoint, filename: string, readings: Parser.Readings,
                  extract: Extractor, telemetry: Telemetry): Response
  {
    var ext := FileExtension(filename);
    if !IsSupported(ext) then HttpError(400, UnsupportedDetail)
    else
      match Parser.ExtractText(readings, ext)
      case Failure(e) => HttpError(500, e)
      case Success(raw) =>
        match Collect(Outcomes(EntityKinds(ep), extract, raw))
        case Failure(e) => Unhandled(e)
        case Success(values) => Reply(Body(ep, raw, values, telemetry))
  }

  // ================================================================ properties

  /** The 400 is given exactly for an unsupported extension, and then
      nothing else is consulted: neither the file, nor the extractors, nor
      the clock. */
  lemma RejectUnsupported(ep: Endpoint, filename: string, readings: Parser.Readings,
                          extract: Extractor, telemetry: Telemetry,
                          readings': Parser.Readings, extract': Extractor, telemetry': Telemetry)
    ensures Handle(ep, filename, readings, extract, telemetry) == HttpError(400, UnsupportedDetail)
      <==> !IsSupported(FileExtension(filename))
    ensures !IsSupported(FileExtension(filename)) ==>
      Handle(ep, filename, readings, extract, telemetry) == Handle(ep, filename, readings', extract', telemetry')
  {
  }

  /** A text-extraction failure becomes a 500 carrying its message, and no
      entity extraction runs. */
  lemma ExtractionFailureIs500(ep: Endpoint, filename: string, readings: Parser.Readings,
                               extract: Extractor, telemetry: Telemetry,
                               extract': Extractor, telemetry': Telemetry)
    requires IsSupported(FileExtension(filename))
    requires Parser.ExtractText(readings, FileExtension(filename)).Failure?
    ensures Handle(ep, filename, readings, extract, telemetry)
      == HttpError(500, Parser.ExtractText(readings, FileExtension(filename)).error)
    ensures Handle(ep, filename, readings, extract, telemetry) == Handle(ep, filename, readings, extract', telemetry')
  {
  }

  /** An entity extraction's exception escapes the handler: the first one
      raised, in the endpoint's order, is what the handler raises. */
  lemma EntityFailureEscapes(ep: Endpoint, filename: string, readings: Parser.Readings,
                             extract: Extractor, telemetry: Telemetry, i: nat)
    requires IsSupported(FileExtension(filename))
    requires Parser.ExtractText(readings, FileExtension(filename)).Success?
    requires i < 4
    requires var raw := Parser.ExtractText(readings, FileExtension(filename)).value;
      extract(EntityKinds(ep)[i], raw).Failure? &&
      forall j :: 0 <= j < i ==> extract(EntityKinds(ep)[j], raw).Success?
    ensures var raw := Parser.ExtractText(readings, FileExtension(filename)).value;
      Handle(ep, filename, readings, extract, telemetry) == Unhandled(extract(EntityKinds(ep)[i], raw).error)
  {
    var raw := Parser.ExtractText(readings, FileExtension(filename)).value;
    CollectFirstFailure(Outcomes(EntityKinds(ep), extract, raw), i);
  }

  /** A handler replies exactly when the extension is accepted, the text is
      extracted and all four entity extractions succeed. */
  lemma ReplyIff(ep: Endpoint, filename: string, readings: Parser.Readings,
                 extract: Extractor, telemetry: Telemetry)
    ensures Handle(ep, filename, readings, extract, telemetry).Reply? <==>
      && IsSupported(FileExtension(filename))
      && Parser.ExtractText(readings, FileExtension(filename)).Success?
      && var raw := Parser.ExtractText(readings, FileExtension(filename)).value;
         forall i :: 0 <= i < 4 ==> extract(EntityKinds(ep)[i], raw).Success?
  {
    var ext := FileExtension(filename);
    if IsSupported(ext) && Parser.ExtractText(readings, ext).Success? {
      var raw := Parser.ExtractText(readings, ext).value;
      var outcomes := Outcomes(EntityKinds(ep), extract, raw);
      assert forall i :: 0 <= i < 4 ==> outcomes[i] == extract(EntityKinds(ep)[i], raw);
      var r := Collect(outcomes);
      if r.Failure? {
        var i :| 0 <= i < 4 && outcomes[i] == Failure(r.error);
      }
    }
  }

  /** A reply holds the four extraction results in the endpoint's order. */
  lemma ReplyValues(ep: Endpoint, filename: string, readings: Parser.Readings,
                    extract: Extractor, telemetry: Telemetry)
    requires Handle(ep, filename, readings, extract, telemetry).Reply?
    ensures Parser.ExtractText(readings, FileExtension(filename)).Success?
    ensures
      var raw := Parser.ExtractText(readings, FileExtension(filename)).value;
      var kinds := EntityKinds(ep);
      Handle(ep, filename, readings, extract, telemetry).body ==
        Body(ep, raw, [extract(kinds[0], raw).value, extract(kinds[1], raw).value,
                       extract(kinds[2], raw).value, extract(kinds[3], raw).value], telemetry)
  {
    var raw := Parser.ExtractText(readings, FileExtension(filename)).value;
    var outcomes := Outcomes(EntityKinds(ep), extract, raw);
    var r := Collect(outcomes);
    assert r.value == [outcomes[0].value, outcomes[1].value, outcomes[2].value, outcomes[3].value];
  }

  /** A reply holds exactly the endpoint's four entity keys, the preview and
      `meta`. */
  lemma BodyKeys(ep: Endpoint, raw: string, values: seq<Json>, telemetry: Telemetry)
    requires |values| == 4
    ensures Body(ep, raw, values, telemetry).fields.Keys == ResponseKeys(ep)
  {
  }

  /** Each entity key holds that entity's value, in the endpoint's order. */
  lemma BodyEntities(ep: Endpoint, raw: string, values: seq<Json>, telemetry: Telemetry)
    requires |values| == 4
    ensures forall i :: 0 <= i < 4 ==>
      Body(ep, raw, values, telemetry).fields[EntityKeys(ep)[i]] == values[i]
  {
  }

  /** The preview is the first min(1000, n) characters of the n-character
      text; `meta` has its six keys, the character count, the model name and
      a "Z"-suffixed timestamp. */
  lemma BodyPreviewAndMeta(ep: Endpoint, raw: string, values: seq<Json>, telemetry: Telemetry)
    requires |values| == 4
    ensures var fields := Body(ep, raw, values, telemetry).fields;
      && fields["raw_text_preview"] == JString(Preview(raw))
      && fields["meta"].JObject?
      && fields["meta"].fields.Keys == MetaKeys
      && fields["meta"].fields["char_count"] == JInt(|raw|)
      && fields["meta"].fields["model_used"] == JString("gpt-4o")
      && fields["meta"].fields["timestamp"] == JString(telemetry.utcNowIso + "Z")
  {
  }

  /** What app/llm.py's extractors promise of list kinds, for any extractor:
      a successful result is never a single object. */
  ghost predicate ListKindsNeverObjects(extract: Extractor) {
    forall kind, text :: Llm.IsListKind(kind) && extract(kind, text).Success? ==> !extract(kind, text).value.JObject?
  }

  /** The extractors of app/llm.py keep that promise, whatever the
      completion service answers. */
  lemma LlmExtractorListsNeverObjects(chain: Llm.Completion)
    ensures ListKindsNeverObjects(LlmExtractor(chain))
  {
    forall kind, text | Llm.IsListKind(kind) && LlmExtractor(chain)(kind, text).Success?
      ensures !LlmExtractor(chain)(kind, text).value.JObject?
    {
      Llm.ExtractListKindNeverObject(kind, chain, text);
    }
  }

  /** No list-valued entity of an endpoint's response body is a single
      object: each such key is present and holds a non-object. */
  predicate ListEntitiesAreNotObjects(ep: Endpoint, body: Json) {
    body.JObject? &&
    forall i :: 0 <= i < 4 && Llm.IsListKind(EntityKinds(ep)[i]) ==>
      EntityKeys(ep)[i] in body.fields && !body.fields[EntityKeys(ep)[i]].JObject?
  }

  /** With such extractors, no list-valued entity of a reply is a single
      object. */
  lemma ReplyListEntitiesAreNotObjects(ep: Endpoint, filename: string, readings: Parser.Readings,
                                       extract: Extractor, telemetry: Telemetry)
    requires ListKindsNeverObjects(extract)
    requires Handle(ep, filename, readings, extract, telemetry).Reply?
    ensures ListEntitiesAreNotObjects(ep, Handle(ep, filename, readings, extract, telemetry).body)
  {
    ReplyValues(ep, filename, readings, extract, telemetry);
    var raw := Parser.ExtractText(readings, FileExtension(filename)).value;
    var kinds := EntityKinds(ep);
    var values := [extract(kinds[0], raw).value, extract(kinds[1], raw).value,
                   extract(kinds[2], raw).value, extract(kinds[3], raw).value];
    BodyEntities(ep, raw, values, telemetry);
    BodyKeys(ep, raw, values, telemetry);
  }

  /** The endpoints as deployed, with app/llm.py's extractors: every entity
      but personal info reaches the response as a list or as whatever
      non-object the model answered, never as a bare object. */
  lemma LlmReplyListEntitiesAreNotObjects(ep: Endpoint, filename: string, readings: Parser.Readings,
                                          chain: Llm.Completion, telemetry: Telemetry)
    requires Handle(ep, filename, readings, LlmExtractor(chain), telemetry).Reply?
    ensures ListEntitiesAreNotObjects(ep, Handle(ep, filename, readings, LlmExtractor(chain), telemetry).body)
  {
    LlmExtractorListsNeverObjects(chain);
    ReplyListEntitiesAreNotObjects(ep, filename, readings, LlmExtractor(chain), telemetry);
  }
}
