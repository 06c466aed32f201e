/**
 * The two routes of backend/routes/aiRoutes.js: `POST /analyze/:fileId`, which extracts the
 * report's text, asks the model for a structured English summary and a Roman Urdu
 * translation, and writes one Insight; and `GET /insight/:fileId`, which looks one up.
 * Every foreign call is an input gathered in `Services`.
 */
module AiRoutes {
  import opened Wrappers
  import opened Models
  import JsString
  import PdfExtraction
  import Gemini

  /** The fields of the structured reply the handler reads; None is a property that is undefined. */
  datatype Structured = Structured(
    summary: Option<string>,
    abnormalValues: Option<seq<string>>,
    suggestions: Option<seq<string>>,
    questionsForDoctor: Option<seq<string>>)

  /** What `JSON.parse(aiText)` produced. */
  datatype ParseOutcome =
    | SyntaxError(message: string)  // it threw
    | ParsedNull                    // the text was `null`
    | ParsedOther                   // a number, string, boolean or array: every property read is undefined
    | ParsedObject(fields: Structured)

  /** `aiOutput` once the try/catch around `JSON.parse` is done. */
  datatype AiOutput = NullOutput | Fields(fields: Structured)

  datatype Services = Services(
    cast: ObjectIdCast,                                 // Mongoose's cast of id strings and its CastError messages
    extraction: PdfExtraction.Services,
    gemini: nat -> string -> Gemini.Reply,              // the n-th model call of the request (0 English, 1 Roman Urdu), given its prompt
    parseJson: string -> ParseOutcome,                  // `JSON.parse` of a non-empty text
    fileLookupOutage: Option<string>,                   // the error `File.findById` meets when the database fails
    insightLookupOutage: Option<string>,                // the error `Insight.findOne(...).populate("file")` meets when the database fails
    storeOutage: Option<string>)                        // the error the insert of `Insight.create` meets when the database fails

  /** The character budget of the report text put into the prompt. */
  const MaxReportChars: nat := 8000

  const FallbackSummary: string := "AI could not structure the data properly."
  const TranslationUnavailable: string := "Roman Urdu translation unavailable."
  const FileNotFound: string := "File not found \U{274C}"
  const AnalysisCompleted: string := "AI analysis completed \U{2705}"
  const ProcessingError: string := "AI processing error"
  const InsightNotFound: string := "Insight not found"
  const ServerError: string := "Server error"
  /** The TypeError thrown by reading `aiOutput.summary` when `aiOutput` is null. */
  const NullSummaryError: string := "Cannot read properties of null (reading 'summary')"

  /** The prompt wrappers (their wording is abbreviated here). */
  const EnglishInstructions: string := "\nYou are a medical report analysis assistant. Respond ONLY in pure JSON with summary, abnormalValues, suggestions and questionsForDoctor.\nHere is the report text:\n"
  const RomanUrduInstructions: string := "Translate the following English text into Roman Urdu, keeping it simple and easy to understand:\n\n"

  /** The record the handler writes when the reply cannot be parsed. */
  const Fallback: Structured := Structured(Some(FallbackSummary), Some([]), Some([]), Some([]))

  /** `extractedText.slice(0, 8000)`. */
  function Truncate(text: string): (r: string)
    ensures |r| == if |text| < MaxReportChars then |text| else MaxReportChars
    ensures r == text[..|r|]
  {
    if |text| <= MaxReportChars then text else text[..MaxReportChars]
  }

  function EnglishPrompt(reportText: string): string
  {
    EnglishInstructions + reportText + "\n"
  }

  /** The text the template literal `${aiOutput.summary}` produces. */
  function SummaryText(summary: Option<string>): (r: string)
    ensures summary.Some? ==> r == summary.value
    ensures summary.None? ==> r == "undefined"
  {
    summary.GetOr("undefined")
  }

  /** The translation prompt: the fixed instructions, then the summary's text and nothing after it. */
  function RomanUrduPrompt(summary: Option<string>): (r: string)
    ensures |r| == |RomanUrduInstructions| + |SummaryText(summary)|
    ensures r[..|RomanUrduInstructions|] == RomanUrduInstructions
    ensures r[|RomanUrduInstructions|..] == SummaryText(summary)
  {
    RomanUrduInstructions + SummaryText(summary)
  }

  /** `aiOutput` after the try/catch: `JSON.parse("")` always throws, and so does every SyntaxError. */
  function ParsedOutput(aiText: string, parseJson: string -> ParseOutcome): (r: AiOutput)
    ensures aiText == "" ==> r == Fields(Fallback)
    ensures aiText != "" && parseJson(aiText).SyntaxError? ==> r == Fields(Fallback)
    ensures r == NullOutput <==> aiText != "" && parseJson(aiText) == ParsedNull
    ensures aiText != "" && parseJson(aiText).ParsedObject? ==> r == Fields(parseJson(aiText).fields)
  {
    if aiText == "" then Fields(Fallback)
    else
      match parseJson(aiText)
      case SyntaxError(_) => Fields(Fallback)
      case ParsedNull => NullOutput
      case ParsedOther => Fields(Structured(None, None, None, None))
      case ParsedObject(fields) => Fields(fields)
  }

  /** The object passed to `Insight.create` (lines 143-151). */
  function DraftOf(user: Principal, file: FileRecord, out: Structured, romanUrduText: string): (d: InsightDraft)
    ensures d.user == user.id && d.file == file.id && d.summaryEnglish == out.summary
    ensures d.summaryRomanUrdu == if romanUrduText == "" then TranslationUnavailable else romanUrduText
    ensures d.highlights == if out.abnormalValues.Some? then out.abnormalValues.value else []
    ensures d.questionsForDoctor == if out.questionsForDoctor.Some? then out.questionsForDoctor.value else []
    ensures d.suggestions == if out.suggestions.Some? then out.suggestions.value else []
  {
    InsightDraft(
      user.id, file.id, out.summary,
      if romanUrduText == "" then TranslationUnavailable else romanUrduText,
      out.abnormalValues.GetOr([]), out.questionsForDoctor.GetOr([]), out.suggestions.GetOr([]))
  }

  function Fail500(message: string): HttpResponse
  {
    HttpResponse(500, ErrorBody(ProcessingError, message))
  }

  /**
   * Everything the handler does before `Insight.create`: either the response it sends
   * without writing, or the draft it hands to the store.
   */
  function PlanInsight(files: seq<FileRecord>, fileIdParam: string, user: Principal, svc: Services): (r: Result<InsightDraft, HttpResponse>)
    ensures r.Failure? ==> r.error.status == 404 || r.error.status == 500
    ensures var cleanFileId := JsString.Trim(fileIdParam);
      svc.cast.parse(cleanFileId).None? ==> r == Failure(Fail500(svc.cast.message("_id", cleanFileId)))
    ensures svc.cast.parse(JsString.Trim(fileIdParam)).Some? && svc.fileLookupOutage.Some? ==>
      r == Failure(Fail500(svc.fileLookupOutage.value))
    ensures var id := svc.cast.parse(JsString.Trim(fileIdParam));
      id.Some? && svc.fileLookupOutage.None? && FindFileById(files, id.value).None? ==>
      r == Failure(HttpResponse(404, MessageBody(FileNotFound)))
  {
    match Cast(svc.cast, "_id", JsString.Trim(fileIdParam))
    case Failure(e) => Failure(Fail500(e))
    case Success(id) =>
      if svc.fileLookupOutage.Some? then Failure(Fail500(svc.fileLookupOutage.value))
      else
        match FindFileById(files, id)
        case None => Failure(HttpResponse(404, MessageBody(FileNotFound)))
        case Some(file) => PlanForFile(file, user, svc)
  }

  /** The steps after the file was found: extraction, then the model calls. */
  function PlanForFile(file: FileRecord, user: Principal, svc: Services): (r: Result<InsightDraft, HttpResponse>)
    ensures r.Failure? ==> r.error.status == 404 || r.error.status == 500
    ensures PdfExtraction.ExtractedText(file.fileUrl, svc.extraction).Failure? ==>
      r == Failure(Fail500(PdfExtraction.ExtractedText(file.fileUrl, svc.extraction).error))
  {
    match PdfExtraction.ExtractedText(file.fileUrl, svc.extraction)
    case Failure(e) => Failure(Fail500(e))
    case Success(text) => PlanForText(file, user, text, svc)
  }

  /** The steps after extraction: the English call, the parse, the translation call and the draft. */
  function PlanForText(file: FileRecord, user: Principal, text: string, svc: Services): (r: Result<InsightDraft, HttpResponse>)
    ensures r.Failure? ==> r.error.status == 404 || r.error.status == 500
    ensures var aiText := Gemini.SafeGeminiCall(svc.gemini(0)(EnglishPrompt(Truncate(text))));
      && (ParsedOutput(aiText, svc.parseJson).NullOutput? ==> r == Failure(Fail500(NullSummaryError)))
      && (ParsedOutput(aiText, svc.parseJson).Fields? ==> r.Success?)
  {
    var aiText := Gemini.SafeGeminiCall(svc.gemini(0)(EnglishPrompt(Truncate(text))));
    match ParsedOutput(aiText, svc.parseJson)
    case NullOutput => Failure(Fail500(NullSummaryError))
    case Fields(out) =>
      var romanUrduText := Gemini.SafeGeminiCall(svc.gemini(1)(RomanUrduPrompt(out.summary)));
      Success(DraftOf(user, file, out, romanUrduText))
  }

  /**
   * The response and the records appended (none or one) once the plan is known. The write
   * is the last step; Mongoose validates the draft before the insert can meet an outage.
   */
  function StoreOutcome(plan: Result<InsightDraft, HttpResponse>, svc: Services): (r: (HttpResponse, seq<Insight>))
    ensures |r.1| <= 1
    ensures |r.1| == 1 <==> plan.Success? && r.0.status == 200
    ensures |r.1| == 1 ==> r.0.body == AnalysisBody(AnalysisCompleted, r.1[0])
    ensures plan.Success? ==> r.0.status == 200 || r.0.status == 500
    ensures plan.Failure? ==> r == (plan.error, [])
    ensures plan.Success? && ValidateDraft(plan.value, svc.cast).Failure? ==>
      r == (Fail500(ValidateDraft(plan.value, svc.cast).error), [])
    ensures plan.Success? && ValidateDraft(plan.value, svc.cast).Success? && svc.storeOutage.Some? ==>
      r == (Fail500(svc.storeOutage.value), [])
    ensures plan.Success? && ValidateDraft(plan.value, svc.cast).Success? && svc.storeOutage.None? ==>
      r.1 == [ValidateDraft(plan.value, svc.cast).value]
  {
    match plan
    case Failure(response) => (response, [])
    case Success(draft) =>
      match ValidateDraft(draft, svc.cast)
      case Failure(e) => (Fail500(e), [])
      case Success(insight) =>
        if svc.storeOutage.Some? then (Fail500(svc.storeOutage.value), [])
        else (HttpResponse(200, AnalysisBody(AnalysisCompleted, insight)), [insight])
  }

  /** The result of the whole handler: its response and the records it appends. */
  function AnalyzeOutcome(files: seq<FileRecord>, fileIdParam: string, user: Principal, svc: Services): (r: (HttpResponse, seq<Insight>))
    ensures |r.1| <= 1
    ensures |r.1| == 1 <==> r.0.status == 200
    ensures r.0.status == 200 || r.0.status == 404 || r.0.status == 500
  {
    StoreOutcome(PlanInsight(files, fileIdParam, user, svc), svc)
  }

  /** The try/catch around `JSON.parse(aiText)` (lines 125-136). */
  method ParseReply(aiText: string, parseJson: string -> ParseOutcome) returns (aiOutput: AiOutput)
    ensures aiOutput == ParsedOutput(aiText, parseJson)
  {
    if aiText == "" {
      // JSON.parse("") throws "Unexpected end of JSON input".
      aiOutput := Fields(Fallback);
    } else {
      match parseJson(aiText) {
        case SyntaxError(_) => aiOutput := Fields(Fallback);
        case ParsedNull => aiOutput := NullOutput;
        case ParsedOther => aiOutput := Fields(Structured(None, None, None, None));
        case ParsedObject(fields) => aiOutput := Fields(fields);
      }
    }
  }

  /** `POST /analyze/:fileId`, step by step: id, file lookup, extraction, then the model calls and the write. */
  method Analyze(store: InsightStore, files: seq<FileRecord>, fileIdParam: string, user: Principal, svc: Services)
    returns (res: HttpResponse)
    modifies store
    ensures res == AnalyzeOutcome(files, fileIdParam, user, svc).0
    ensures store.records == old(store.records) + AnalyzeOutcome(files, fileIdParam, user, svc).1
  {
    var cleanFileId := JsString.Trim(fileIdParam);
    var id := Cast(svc.cast, "_id", cleanFileId);
    if id.Failure? {
      return Fail500(id.error);
    }
    if svc.fileLookupOutage.Some? {
      return Fail500(svc.fileLookupOutage.value);
    }
    var file := FindFileById(files, id.value);
    if file.None? {
      return HttpResponse(404, MessageBody(FileNotFound));
    }
    assert PlanInsight(files, fileIdParam, user, svc) == PlanForFile(file.value, user, svc);

    var fetched, extractedText := PdfExtraction.ExtractTextFromPdf(file.value.fileUrl, svc.extraction);
    if extractedText.Failure? {
      return Fail500(extractedText.error);
    }
    assert PlanForFile(file.value, user, svc) == PlanForText(file.value, user, extractedText.value, svc);
    res := SummarizeAndStore(store, file.value, user, extractedText.value, svc);
  }

  /** backend/routes/aiRoutes.js:104-153: truncate, the English call and its parse, the translation call, the write. */
  method SummarizeAndStore(store: InsightStore, file: FileRecord, user: Principal, extractedText: string, svc: Services)
    returns (res: HttpResponse)
    modifies store
    ensures res == StoreOutcome(PlanForText(file, user, extractedText, svc), svc).0
    ensures store.records == old(store.records) + StoreOutcome(PlanForText(file, user, extractedText, svc), svc).1
  {
    var limitedText := Truncate(extractedText);

    var aiText := Gemini.SafeGeminiCall(svc.gemini(0)(EnglishPrompt(limitedText)));
    var aiOutput := ParseReply(aiText, svc.parseJson);
    if aiOutput.NullOutput? {
      return Fail500(NullSummaryError);
    }

    var romanUrduText := Gemini.SafeGeminiCall(svc.gemini(1)(RomanUrduPrompt(aiOutput.fields.summary)));
    var draft := DraftOf(user, file, aiOutput.fields, romanUrduText);
    assert PlanForText(file, user, extractedText, svc) == Success(draft);
    var insight := store.Create(draft, svc.cast, svc.storeOutage);
    if insight.Failure? {
      return Fail500(insight.error);
    }
    res := HttpResponse(200, AnalysisBody(AnalysisCompleted, insight.value));
  }

  /** A run writes at most one record, and it writes one exactly when it answers 200 with that record. */
  lemma AnalyzeWritesAtMostOne(files: seq<FileRecord>, fileIdParam: string, user: Principal, svc: Services)
    ensures var res := AnalyzeOutcome(files, fileIdParam, user, svc).0;
      var written := AnalyzeOutcome(files, fileIdParam, user, svc).1;
      && |written| <= 1
      && (|written| == 1 <==> res.status == 200)
      && (|written| == 1 ==> res.body == AnalysisBody(AnalysisCompleted, written[0]))
      && (|written| == 0 ==> res.status == 404 || res.status == 500)
  {
  }

  /** A file id that does not cast to an ObjectId answers 500 with the CastError at path `_id`. */
  lemma UncastableIdIs500(files: seq<FileRecord>, fileIdParam: string, user: Principal, svc: Services)
    requires svc.cast.parse(JsString.Trim(fileIdParam)).None?
    ensures AnalyzeOutcome(files, fileIdParam, user, svc)
      == (Fail500(svc.cast.message("_id", JsString.Trim(fileIdParam))), [])
  {
  }

  /** A database failure of `File.findById` answers 500 with its message before any extraction. */
  lemma FileLookupOutageIs500(files: seq<FileRecord>, fileIdParam: string, user: Principal, svc: Services)
    requires svc.cast.parse(JsString.Trim(fileIdParam)).Some?
    requires svc.fileLookupOutage.Some?
    ensures AnalyzeOutcome(files, fileIdParam, user, svc) == (Fail500(svc.fileLookupOutage.value), [])
  {
  }

  /** A file id that names no file answers 404 and writes nothing. */
  lemma MissingFileIs404(files: seq<FileRecord>, fileIdParam: string, user: Principal, svc: Services)
    requires svc.cast.parse(JsString.Trim(fileIdParam)).Some? && svc.fileLookupOutage.None?
    requires forall k :: 0 <= k < |files| ==> files[k].id != svc.cast.parse(JsString.Trim(fileIdParam)).value
    ensures AnalyzeOutcome(files, fileIdParam, user, svc) == (HttpResponse(404, MessageBody(FileNotFound)), [])
  {
  }

  /** An extraction that throws answers 500 with its message and writes nothing; no model call is made. */
  lemma ExtractionFailureIs500(files: seq<FileRecord>, fileIdParam: string, user: Principal, svc: Services, file: FileRecord)
    requires svc.cast.parse(JsString.Trim(fileIdParam)).Some? && svc.fileLookupOutage.None?
    requires FindFileById(files, svc.cast.parse(JsString.Trim(fileIdParam)).value) == Some(file)
    requires PdfExtraction.ExtractedText(file.fileUrl, svc.extraction).Failure?
    ensures AnalyzeOutcome(files, fileIdParam, user, svc)
      == (Fail500(PdfExtraction.ExtractedText(file.fileUrl, svc.extraction).error), [])
  {
  }

  /** A reply that parses to `null` makes reading `aiOutput.summary` throw: 500 and nothing written. */
  lemma NullReplyIs500(file: FileRecord, user: Principal, text: string, svc: Services)
    requires var aiText := Gemini.SafeGeminiCall(svc.gemini(0)(EnglishPrompt(Truncate(text))));
      aiText != "" && svc.parseJson(aiText) == ParsedNull
    ensures PlanForText(file, user, text, svc) == Failure(Fail500(NullSummaryError))
  {
  }

  /**
   * When the English reply cannot be parsed (the empty reply of a failed call included), the
   * draft carries the fallback summary and three empty lists, and the translation prompt is
   * built from the fallback summary.
   */
  lemma UnparsableReplyUsesFallback(file: FileRecord, user: Principal, text: string, svc: Services)
    requires var aiText := Gemini.SafeGeminiCall(svc.gemini(0)(EnglishPrompt(Truncate(text))));
      aiText == "" || svc.parseJson(aiText).SyntaxError?
    ensures var plan := PlanForText(file, user, text, svc);
      && plan.Success?
      && plan.value.summaryEnglish == Some(FallbackSummary)
      && plan.value.highlights == [] && plan.value.suggestions == [] && plan.value.questionsForDoctor == []
      && var urdu := Gemini.SafeGeminiCall(svc.gemini(1)(RomanUrduPrompt(Some(FallbackSummary))));
         plan.value.summaryRomanUrdu == if urdu == "" then TranslationUnavailable else urdu
  {
  }

  /**
   * A completed run stores one record for the requesting user and the found file, with the
   * sentinel for an empty translation and `[]` for every list the parsed object lacks.
   */
  lemma CompletedRunRecord(files: seq<FileRecord>, fileIdParam: string, user: Principal, svc: Services)
    requires |AnalyzeOutcome(files, fileIdParam, user, svc).1| == 1
    ensures var written := AnalyzeOutcome(files, fileIdParam, user, svc).1[0];
      && svc.cast.parse(JsString.Trim(fileIdParam)).Some? && svc.fileLookupOutage.None?
      && var file := FindFileById(files, svc.cast.parse(JsString.Trim(fileIdParam)).value);
      && file.Some? && written.file == file.value.id
      && PdfExtraction.ExtractedText(file.value.fileUrl, svc.extraction).Success?
      && var text := PdfExtraction.ExtractedText(file.value.fileUrl, svc.extraction).value;
      && var aiText := Gemini.SafeGeminiCall(svc.gemini(0)(EnglishPrompt(Truncate(text))));
      && ParsedOutput(aiText, svc.parseJson).Fields?
      && var out := ParsedOutput(aiText, svc.parseJson).fields;
      && var urdu := Gemini.SafeGeminiCall(svc.gemini(1)(RomanUrduPrompt(out.summary)));
      && user.id.Some? && svc.cast.parse(user.id.value) == Some(written.user)
      && svc.storeOutage.None?
      && written.summaryEnglish == out.summary
      && written.summaryRomanUrdu == (if urdu == "" then TranslationUnavailable else urdu)
      && written.highlights == out.abnormalValues.GetOr([])
      && written.questionsForDoctor == out.questionsForDoctor.GetOr([])
      && written.suggestions == out.suggestions.GetOr([])
  {
    var id := svc.cast.parse(JsString.Trim(fileIdParam));
    var file := FindFileById(files, id.value);
    var text := PdfExtraction.ExtractedText(file.value.fileUrl, svc.extraction);
    assert PlanInsight(files, fileIdParam, user, svc) == PlanForText(file.value, user, text.value, svc);
  }

  /**
   * A request without a user id fails Mongoose's validation: 500 with the required-path
   * message and nothing written, even when the database is down, because validation runs first.
   */
  lemma MissingUserIdIs500(files: seq<FileRecord>, fileIdParam: string, svc: Services)
    requires PlanInsight(files, fileIdParam, Principal(None), svc).Success?
    ensures AnalyzeOutcome(files, fileIdParam, Principal(None), svc) == (Fail500(UserRequiredMessage), [])
  {
  }

  /** A user id that is not an ObjectId fails validation with the wrapped CastError at path `user`. */
  lemma UncastableUserIdIs500(files: seq<FileRecord>, fileIdParam: string, raw: string, svc: Services)
    requires PlanInsight(files, fileIdParam, Principal(Some(raw)), svc).Success?
    requires svc.cast.parse(raw).None?
    ensures AnalyzeOutcome(files, fileIdParam, Principal(Some(raw)), svc)
      == (Fail500(UserValidationPrefix + svc.cast.message("user", raw)), [])
  {
  }

  /** Only the first 8000 characters of the report reach the model: texts that agree on them give the same draft. */
  lemma OnlyBudgetReachesModel(file: FileRecord, user: Principal, t1: string, t2: string, svc: Services)
    requires MaxReportChars <= |t1| && MaxReportChars <= |t2|
    requires t1[..MaxReportChars] == t2[..MaxReportChars]
    ensures PlanForText(file, user, t1, svc) == PlanForText(file, user, t2, svc)
  {
    assert Truncate(t1) == Truncate(t2);
  }

  /**
   * `GET /insight/:fileId`: the first stored insight for the file in store order, with the
   * file populated, or 404; a CastError or a database failure answers 500 "Server error".
   */
  method GetInsight(store: InsightStore, files: seq<FileRecord>, fileIdParam: string, svc: Services)
    returns (res: HttpResponse)
    ensures svc.cast.parse(fileIdParam).None? ==>
      res == HttpResponse(500, ErrorBody(ServerError, svc.cast.message("file", fileIdParam)))
    ensures svc.cast.parse(fileIdParam).Some? && svc.insightLookupOutage.Some? ==>
      res == HttpResponse(500, ErrorBody(ServerError, svc.insightLookupOutage.value))
    ensures svc.cast.parse(fileIdParam).Some? && svc.insightLookupOutage.None? ==>
      var id := svc.cast.parse(fileIdParam).value;
      && (res.status == 404 <==> forall k :: 0 <= k < |store.records| ==> store.records[k].file != id)
      && (res.status == 404 ==> res.body == MessageBody(InsightNotFound))
      && (res.status != 404 ==>
            && res.status == 200 && res.body.InsightBody?
            && res.body.insight.file == id
            && (exists k ::
                  && 0 <= k < |store.records| && store.records[k] == res.body.insight
                  && forall j :: 0 <= j < k ==> store.records[j].file != id)
            && res.body.file == FindFileById(files, id))
  {
    var id := Cast(svc.cast, "file", fileIdParam);
    if id.Failure? {
      return HttpResponse(500, ErrorBody(ServerError, id.error));
    }
    if svc.insightLookupOutage.Some? {
      return HttpResponse(500, ErrorBody(ServerError, svc.insightLookupOutage.value));
    }
    var insight := store.FindByFile(id.value);
    if insight.None? {
      return HttpResponse(404, MessageBody(InsightNotFound));
    }
    res := HttpResponse(200, InsightBody(insight.value, FindFileById(files, insight.value.file)));
  }
}
