# Résumé parser: a Dafny model

The modelled service is a FastAPI résumé parser. Each of its three upload endpoints takes a PDF or DOCX file and reads the document's text. It then asks a completion model (gpt-4o, through LangChain) for four kinds of résumé entity. It answers with the entities, a preview of the text and some metadata.

This project models the parts of that service that are plain logic:

- **`Llm`** (`llm.dfy`, for `app/llm.py`) holds the entity catalogue:
  - twelve record shapes and the two string enumerations, `EmploymentType` and `ProjectType`;
  - which fields are required and which are `Optional`;
  - the exact prompt each extractor sends, including `extract_skills`, which does not use its own module-level template;
  - the rule that wraps a single parsed object into a one-element list for every list-valued entity.
- **`Parser`** (`parser.dfy`, for `app/parser.py`) holds:
  - the dispatch on the declared file type;
  - the PDF page-text accumulation loop, a method proved against a specification function;
  - the DOCX `"\n".join` of paragraph texts.
- **`Api`** (`api.dfy`, for `app/main.py`) holds:
  - the extension computation, `split(".")[-1].lower()`, and the `pdf`/`docx` whitelist;
  - the mapping of a rejected upload to 400 and of a text-extraction exception to 500;
  - the entity extractions awaited in order;
  - the response dictionary of each endpoint, with its preview and `meta` object.
- **`Values`** (`values.dfy`) holds the shared `Option`, `Result` (a value or a raised exception's message) and JSON value types.

The completion service and its JSON output parser are parameters (`Llm.Completion`). So are the document readers, given as what they yield (`Parser.Readings`), and the tokenizer, cost estimate and clock (`Api.Telemetry`).

The handlers are stated for any entity extractor (`Api.Extractor`). `Api.LlmExtractor` is the one `app/llm.py` defines.

## Model

| member | source | states |
|---|---|---|
| `Llm.EmploymentTypeValue` | app/llm.py:65-70 | each member's value is one of the five listed strings |
| `Llm.EmploymentTypeOf` | app/llm.py:65-70 | `EmploymentType(v)` finds a member exactly when `v` is one of the five values, and that member's value is `v` |
| `Llm.EmploymentTypeExact` | app/llm.py:65-70 | the enumeration is exactly {full_time, part_time, freelance, internship, own}: value lookup round-trips, values are distinct, every value has a member |
| `Llm.ProjectTypeValue` | app/llm.py:82-85 | each member's value is one of own, employment, academic |
| `Llm.ProjectTypeOf` | app/llm.py:82-85 | `ProjectType(v)` finds a member exactly when `v` is one of the three values, and that member's value is `v` |
| `Llm.ProjectTypeExact` | app/llm.py:82-85 | the enumeration is exactly {own, employment, academic}: value lookup round-trips, values are distinct, every value has a member |
| `Llm.RequiredFieldsOfMainKinds` | app/llm.py:33-63 | every `PersonalInfo` field is Optional; the non-Optional fields of skills are skill and occupation, of education institution and course |
| `Llm.RequiredFieldsOfWorkKinds` | app/llm.py:65-95 | the non-Optional fields of employment are organizationName and type, of projects projectName and type |
| `Llm.AllOptionalNoneRequired` | app/llm.py:33-45 | when every field from a position on is declared `Optional`, none of them is non-Optional |
| `Llm.RequiredFieldsOfNamedKinds` | app/llm.py:97-122 | in certification, award, language and membership items only the name field is non-Optional |
| `Llm.RequiredFieldsOfCourseKinds` | app/llm.py:124-147 | in training, skilling and conference items only the name field is non-Optional |
| `Llm.PersonalInfoFits` | app/llm.py:20-45 | a `PersonalInfo` with its date, mobile-number and social-URL sub-objects is written with the declared field shapes, nulls only where Optional |
| `Llm.SkillsItemFits` | app/llm.py:47-49 | a `SkillsItem` is written with two string fields |
| `Llm.EducationItemFits` | app/llm.py:51-62 | an `EducationItem` is written with the declared field shapes, date objects included |
| `Llm.EmploymentItemFits` | app/llm.py:72-79 | an `EmploymentItem` is written with the declared shapes; its `type` is one of the five enumeration values |
| `Llm.ProjectItemFits` | app/llm.py:87-95 | a `ProjectItem` is written with the declared shapes; its `type` is one of the three enumeration values |
| `Llm.CertificationItemFits` | app/llm.py:97-104 | a `CertificationItem` is written with the declared field shapes |
| `Llm.AwardItemFits` | app/llm.py:106-110 | an `AwardItem` is written with the declared field shapes |
| `Llm.LanguageItemFits` | app/llm.py:112-116 | a `LanguageItem` is written with a name and three optional booleans |
| `Llm.MembershipItemFits` | app/llm.py:118-122 | a `MembershipItem` is written with the declared field shapes |
| `Llm.TrainingItemFits` | app/llm.py:124-129 | a `TrainingItem` is written with the declared field shapes |
| `Llm.SkillingItemFits` | app/llm.py:131-138 | a `SkillingItem` is written with the declared field shapes |
| `Llm.ConferenceItemFits` | app/llm.py:140-147 | a `ConferenceItem` is written with the declared field shapes |
| `Llm.RecordConforms` | app/llm.py:19-147 | every record's JSON object has exactly its class's declared field names as keys, each bound to a value that fits its declared field |
| `Llm.SchemaNamesDistinct` | app/llm.py:19-147 | no class declares the same field name twice |
| `Llm.ObjectOfBinds` | app/llm.py:19-147 | in an object built from distinct names and their values, each name is a key bound to its own value |
| `Llm.ToJsonBinds` | app/llm.py:19-147 | each declared field name of a record's class is a key of its JSON object, bound to that field's value |
| `Llm.Schema` | app/llm.py:19-147 | each kind's field catalogue: every field of its class in declaration order, with its type (string, integer, boolean, enumeration values, or sub-object keys) and whether it is `Optional` |
| `Llm.FieldValues` | app/llm.py:19-147 | a record's field values in declaration order, one per catalogue field: `None` as null, enumerations by their string value, sub-objects as objects |
| `Llm.ToJson` | app/llm.py:19-147 | the JSON object a record is written as: each declared field name bound to that field's value |
| `Llm.PromptEndsWithText` | app/llm.py:150-387 | the résumé text is a verbatim suffix of every prompt, and the part before it does not depend on the text (the empty text gives that part alone) |
| `Llm.PromptInjective` | app/llm.py:150-387 | different résumé texts give different prompts: nothing is truncated or rewritten |
| `Llm.TemplateBody` | app/llm.py:150-387 | each module-level template's fixed instruction text, between the role line and `{format_instructions}`, character for character |
| `Llm.TemplatePrompt` | app/llm.py:150-387 | a template filled in: role line, instructions, format instructions, "\n\nResume text:\n", résumé text |
| `Llm.SentPrompt` | app/llm.py:150-415 | the prompt actually sent: `extract_skills`'s "{format_instructions}\n\n{resume_text}", every other kind its module-level template |
| `Llm.TemplatePromptShape` | app/llm.py:150-387 | every template prompt opens with "You are a resume parser." and ends with the format instructions, "\n\nResume text:\n" and the text |
| `Llm.SkillsPromptBare` | app/llm.py:399-415 | the skills prompt is the format instructions, a blank line and the text; it differs from the unused module-level skills template |
| `Llm.Normalize` | app/llm.py:416 | a parsed object becomes a one-element list holding it; any other value is unchanged; the result is never an object |
| `Llm.NormalizeIdempotent` | app/llm.py:416 | wrapping twice is wrapping once; a bare object and the one-element list of it normalise alike |
| `Llm.Extract` | app/llm.py:394-463 | a chain exception propagates; personal info is returned as parsed, never wrapped; list kinds wrap an object and pass anything else through unchanged |
| `Llm.IsListKind` | app/llm.py:394-463 | every kind but personal info goes through the `[result] if isinstance(result, dict) else result` rule |
| `Llm.ExtractListKindNeverObject` | app/llm.py:419-463 | a list-kind extractor never returns a single object |
| `Parser.ExtractText` | app/parser.py:6-12 | any type other than exactly "pdf" or "docx" fails with "Unsupported file type"; otherwise it succeeds exactly when the chosen reader does |
| `Parser.ExtractTextDispatch` | app/parser.py:7-10 | "pdf" gives the in-order page text, "docx" the joined paragraphs, and a reader's exception message passes through unchanged |
| `Parser.UpperCaseTypeUnsupported` | app/parser.py:11-12 | the comparison is case-sensitive: "PDF" and "DOCX" are unsupported whatever the readers yield |
| `Parser.ExtractTextFromPdf` | app/parser.py:14-19 | the loop's text is the in-order concatenation of all page texts; after k pages it holds the first k |
| `Parser.ConcatPages` | app/parser.py:14-19 | the PDF text: the page texts concatenated in order, with no separator |
| `Parser.ConcatPagesSmall` | app/parser.py:15-19 | no pages give "", one page gives its own text |
| `Parser.ConcatPagesAppend` | app/parser.py:15-19 | the text of the pages a + b is the text of a followed by the text of b, with no separator |
| `Parser.ConcatPagesLength` | app/parser.py:17-18 | the PDF text is exactly as long as the page texts together |
| `Parser.JoinParagraphsSmall` | app/parser.py:23 | no paragraphs give "", one paragraph gives itself unchanged |
| `Parser.JoinParagraphsLength` | app/parser.py:23 | with n ≥ 1 paragraphs the text's length is the paragraphs' total length plus n − 1 |
| `Parser.JoinParagraphs` | app/parser.py:21-23 | the DOCX text: `"\n".join` of the paragraph texts, in order |
| `Parser.SplitJoinRoundTrip` | app/parser.py:21-23 | when no paragraph holds a newline, splitting the DOCX text at newlines gives back the paragraphs in order |
| `Api.AfterLastDot` | app/main.py:31 | the result is a dot-free suffix of the name that is either the whole name or preceded by a dot |
| `Api.AfterLastDotUnique` | app/main.py:31 | those three facts determine the result: it is the only such suffix |
| `Api.Lower` | app/main.py:31 | `.lower()` keeps the length, makes and removes no dot, and leaves no ASCII capital |
| `Api.LowerIdempotent` | app/main.py:31 | lowering an already lowered name changes nothing |
| `Api.NoDotWholeName` | app/main.py:31 | a name without a dot is its own last part |
| `Api.LastDotBefore` | app/main.py:31 | the position of the last dot before a given position, or -1 when there is none: a dot sits there and none follows it before that position |
| `Api.LowerKeepsSmall` | app/main.py:31 | `.lower()` leaves a name without ASCII capitals unchanged |
| `Api.DotlessSmallName` | app/main.py:31 | a dot-free name without capitals is its own extension |
| `Api.FileExtension` | app/main.py:31 | the extension never contains a dot, and it is the lowered tail of the name, either all of it or after a dot |
| `Api.IsSupported` | app/main.py:32 | the whitelist: exactly "pdf" and "docx" |
| `Api.ExtensionCharacterized` | app/main.py:31 | for any dot-free e, the extension is e exactly when the lowered name is e or ends in "." + e |
| `Api.AcceptedIff` | app/main.py:31-32 | an upload is accepted exactly when its lowered name ends in ".pdf" or ".docx", or is "pdf" or "docx" |
| `Api.ExtensionIgnoresCase` | app/main.py:31-32 | "CV.PDF" has extension "pdf" and is accepted |
| `Api.ExtensionIsLastPart` | app/main.py:31-33 | only the last dot counts: "report.v2.Docx" gives "docx" and is accepted, "resume.pdf.exe" gives "exe" and is rejected |
| `Api.LegacyWordRejected` | app/main.py:31-33 | "resume.doc" has extension "doc" and is rejected |
| `Api.DotlessNameRejected` | app/main.py:31-33 | "resume", without a dot, has extension "resume" and is rejected |
| `Api.AcceptedExtensionDispatches` | app/main.py:39-40 | an accepted extension always reaches a reader: the handler never meets the "Unsupported file type" error |
| `Api.Collect` | app/main.py:46-49 | the awaited extractions give all four values when all succeed, otherwise the exception of the first to fail, all earlier ones having succeeded |
| `Api.CollectFirstFailure` | app/main.py:46-49 | the exception that escapes is the first one raised, in order |
| `Api.Outcomes` | app/main.py:46-49 | what the four awaited extractions of an endpoint yield, in its order, each on the same raw text |
| `Api.LlmExtractor` | app/llm.py:394-463 | the extraction functions of app/llm.py as the handlers call them: `Llm.Extract` for the kind, on one completion service |
| `Api.ListKindsNeverObjects` | app/llm.py:416-463 | the promise of every list-kind extractor: a successful result is never a single object |
| `Api.LlmExtractorListsNeverObjects` | app/llm.py:416-463 | the extractors of app/llm.py keep that promise, whatever the completion service answers |
| `Api.ListEntitiesAreNotObjects` | app/main.py:57-61 | a response body holds every list-kind entity key, each bound to a non-object |
| `Api.ReplyListEntitiesAreNotObjects` | app/main.py:46-71 | with extractors that keep it, no list-kind entity key of a reply holds a single object |
| `Api.LlmReplyListEntitiesAreNotObjects` | app/main.py:27-172 | as deployed, every entity but `personal_info` reaches the response as a non-object (a list, normally), never a bare object |
| `Api.RejectUnsupported` | app/main.py:31-33 | 400 "Only PDF and DOCX files are supported." is given exactly for an unsupported extension, independent of the file, the extractors and the clock |
| `Api.ExtractionFailureIs500` | app/main.py:39-46 | a text-extraction exception becomes a 500 carrying its message, and no entity extraction runs |
| `Api.EntityFailureEscapes` | app/main.py:46-49 | an entity extractor's exception is not caught: the handler raises the first one, in the endpoint's order |
| `Api.ReplyIff` | app/main.py:27-71 | a handler replies exactly when the extension is accepted, the text is read and all four extractions succeed |
| `Api.ReplyValues` | app/main.py:46-71 | a reply is the response dictionary built from the four extraction results, in the endpoint's order |
| `Api.Handle` | app/main.py:27-172 | one endpoint handling one upload: 400 for an unsupported extension, 500 with the message when text extraction raises, the first entity exception uncaught, otherwise the reply |
| `Api.Preview` | app/main.py:62 | `raw_text_preview` is a prefix of the text of length min(1000, len(raw_text)) |
| `Api.EntityKinds` | app/main.py:46-49 | the four entities each endpoint awaits, in order, none twice: personal info, skills, education, employment; projects, certifications, awards, languages; memberships, training, skilling, conferences (lines 96-99, 146-149 for the others) |
| `Api.EntityKeys` | app/main.py:57-61 | their response keys in the same order, the second endpoint's languages under `extract_languages`; no key repeats and none is `raw_text_preview` or `meta`, so no entity value is overwritten in the dict (lines 109-113, 158-162 for the others) |
| `Api.EndpointsPartitionKinds` | app/main.py:27-172 | each of the twelve entity kinds is extracted by exactly one of the three endpoints |
| `Api.ResponseKeys` | app/main.py:57-172 | each endpoint's six response keys, as a set written independently of `Api.Body` |
| `Api.Meta` | app/main.py:51-70 | the `meta` object: character count, token count, cost estimate, processing time, "gpt-4o" and the timestamp with "Z" appended |
| `Api.Body` | app/main.py:57-71 | the response dictionary: the four entity keys with their values, `raw_text_preview` and `meta` (lines 109-123, 158-172 for the others) |
| `Api.BodyKeys` | app/main.py:57-172 | each endpoint's response has exactly its four entity keys, `raw_text_preview` and `meta`; the second endpoint's languages key is `extract_languages` |
| `Api.BodyEntities` | app/main.py:57-61 | each entity key holds that entity's extraction result, in the endpoint's order |
| `Api.BodyPreviewAndMeta` | app/main.py:51-70 | the preview is `raw_text[:1000]`; `meta` has its six keys, `char_count` = len(raw_text), `model_used` = "gpt-4o" and a "Z"-suffixed timestamp |

## Left out

- The completion model, the `JsonOutputParser` and `get_format_instructions()` are foreign. They are a parameter (`Llm.Completion`) that maps a prompt to parsed JSON or to an exception message. The client set-up (API key, temperature) is left out.
- Llm.Extract: does not validate the parsed value against the schema, because the source does not either. An out-of-set enumeration value or a scalar answer passes through unchanged. The record datatypes and the field catalogue describe the shape the format instructions ask for; no operation enforces it.
- The locally built O*NET prompt string and the `results = []` line in `extract_skills` are never used, so they are not modelled. `Llm.SentPrompt` models what is actually sent.
- The document readers (PyMuPDF, python-docx) are foreign. They are given as the page texts or paragraph texts they yield, or the exception they raise (`Parser.Readings`).
- File I/O is left out: the temporary upload file, its copy and its removal.
- Token counting (tiktoken) and the cost estimate with its float rounding come from `app/utils.py`, which is not part of this model. Both are parameters (`Api.Telemetry`).
- Time and date are parameters: the processing-time measurement and `datetime.utcnow().isoformat()`.
- The four entity extractions are awaited one after another. They are modelled in that order; nothing runs concurrently.
- Api.Lower: lowers ASCII letters only. No non-ASCII character lowers to a letter of "pdf" or "docx", so which uploads are accepted is exactly as in Python. But the extension of a name holding non-ASCII capitals may differ from Python's.
- "Required" in the `RequiredNames` lemmas means declared without `Optional`. The record's key must still appear, possibly as null, and `Llm.ToJson` writes every declared key. Whether a reply actually has the keys is never checked (see Llm.Extract above).
- A JSON object is a map, so the key order of the response dictionaries is not modelled.
- FastAPI routing, request parsing and how an uncaught exception is turned into a response are left out. A handler's uncaught extraction exception is `Api.Unhandled` with its message.
