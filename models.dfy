/**
 * The record shapes of backend/models/File.js and backend/models/Insight.js, the store
 * of Insight records, and the HTTP responses the routes and the middleware write.
 */
module Models {
  import opened Wrappers

  /** The string form of a Mongo ObjectId once Mongoose has cast it. */
  type ObjectId = string

  /** A stored File document (uploadedAt is not modelled). */
  datatype FileRecord = FileRecord(id: ObjectId, user: ObjectId, filename: string, fileUrl: string, fileType: string)

  /** What `req.user` holds after the middleware: `{ id: decoded.id }`, where `id` may be undefined. */
  datatype Principal = Principal(id: Option<string>)

  /** The object handed to `Insight.create`, before Mongoose validates and casts it. */
  datatype InsightDraft = InsightDraft(
    user: Option<string>,
    file: ObjectId,
    summaryEnglish: Option<string>,
    summaryRomanUrdu: string,
    highlights: seq<string>,
    questionsForDoctor: seq<string>,
    suggestions: seq<string>)

  /** A stored Insight document (createdAt and the generated _id are not modelled). */
  datatype Insight = Insight(
    user: ObjectId,
    file: ObjectId,
    summaryEnglish: Option<string>,
    summaryRomanUrdu: string,
    highlights: seq<string>,
    questionsForDoctor: seq<string>,
    suggestions: seq<string>)

  datatype Body =
    | MessageBody(message: string)
    | ErrorBody(message: string, error: string)
    | AnalysisBody(message: string, insight: Insight)
    | InsightBody(insight: Insight, file: Option<FileRecord>)  // the insight with its file populated

  datatype HttpResponse = HttpResponse(status: nat, body: Body)

  /**
   * Mongoose's cast of a string to an ObjectId: `parse` says whether the string is a valid
   * ObjectId and what it denotes, and `message(path, value)` is the CastError's message for
   * `value` at the schema path `path`. Each cast in the routes is at a different path
   * (`_id` of File, `file` of Insight, `user` of Insight), so the path also names the site.
   */
  datatype ObjectIdCast = ObjectIdCast(parse: string -> Option<ObjectId>, message: (string, string) -> string)

  /** The cast of `value` at `path`: its ObjectId, or the CastError it throws. */
  function Cast(cast: ObjectIdCast, path: string, value: string): Result<ObjectId, string>
  {
    match cast.parse(value)
    case None => Failure(cast.message(path, value))
    case Some(id) => Success(id)
  }

  /** A ValidationError's message reads "<Model> validation failed: <path>: <reason>". */
  const UserValidationPrefix: string := "Insight validation failed: user: "
  const UserRequiredMessage: string := "Insight validation failed: user: Path `user` is required."

  /**
   * Mongoose's validation of a draft: `user` is required and must cast to an ObjectId; the
   * other fields are stored as given.
   */
  function ValidateDraft(draft: InsightDraft, cast: ObjectIdCast): (r: Result<Insight, string>)
    ensures r.Success? <==> draft.user.Some? && cast.parse(draft.user.value).Some?
    ensures r.Success? ==> r.value == Insight(cast.parse(draft.user.value).value, draft.file,
      draft.summaryEnglish, draft.summaryRomanUrdu, draft.highlights, draft.questionsForDoctor, draft.suggestions)
    ensures draft.user.None? ==> r == Failure(UserRequiredMessage)
    ensures draft.user.Some? && r.Failure? ==>
      r.error == UserValidationPrefix + cast.message("user", draft.user.value)
  {
    match draft.user
    case None => Failure(UserRequiredMessage)
    case Some(raw) =>
      match Cast(cast, "user", raw)
      case Failure(e) => Failure(UserValidationPrefix + e)
      case Success(user) =>
        Success(Insight(user, draft.file, draft.summaryEnglish, draft.summaryRomanUrdu,
                        draft.highlights, draft.questionsForDoctor, draft.suggestions))
  }

  /** The index of the first element of `xs` that satisfies `p`. */
  function FirstIndex<T>(xs: seq<T>, p: T -> bool): (r: Option<nat>)
    ensures r.Some? ==> r.value < |xs| && p(xs[r.value])
    ensures r.Some? ==> forall k :: 0 <= k < r.value ==> !p(xs[k])
    ensures r.None? ==> forall k :: 0 <= k < |xs| ==> !p(xs[k])
  {
    if xs == [] then None
    else if p(xs[0]) then Some(0)
    else match FirstIndex(xs[1..], p)
      case None => None
      case Some(k) => Some(k + 1)
  }

  /** Appending an element keeps an earlier hit, and is the hit itself only when there was none before. */
  lemma {:induction false} FirstIndexAppend<T>(xs: seq<T>, x: T, p: T -> bool)
    ensures FirstIndex(xs + [x], p)
      == if FirstIndex(xs, p).Some? then FirstIndex(xs, p) else if p(x) then Some(|xs|) else None
  {
    if xs != [] {
      assert (xs + [x])[1..] == xs[1..] + [x];
      FirstIndexAppend(xs[1..], x, p);
    }
  }

  function HasId(id: ObjectId): FileRecord -> bool
  {
    (f: FileRecord) => f.id == id
  }

  function RefersTo(file: ObjectId): Insight -> bool
  {
    (i: Insight) => i.file == file
  }

  /** `File.findById(id)`: the file with that id, or none when no file has it. */
  function FindFileById(files: seq<FileRecord>, id: ObjectId): (r: Option<FileRecord>)
    ensures r.Some? ==> r.value in files && r.value.id == id
    ensures r.None? <==> forall k :: 0 <= k < |files| ==> files[k].id != id
  {
    match FirstIndex(files, HasId(id))
    case None => None
    case Some(k) => Some(files[k])
  }

  /** `Insight.findOne({ file })`: the first record, in store order, that references `file`. */
  function FindInsight(records: seq<Insight>, file: ObjectId): (r: Option<Insight>)
    ensures r.Some? ==> r.value.file == file
    ensures r.Some? ==> exists k ::
      && 0 <= k < |records| && records[k] == r.value
      && forall j :: 0 <= j < k ==> records[j].file != file
    ensures r.None? <==> forall k :: 0 <= k < |records| ==> records[k].file != file
  {
    match FirstIndex(records, RefersTo(file))
    case None => None
    case Some(k) =>
      assert forall j :: 0 <= j < k ==> records[j].file != file by {
        forall j | 0 <= j < k ensures records[j].file != file {
          assert !RefersTo(file)(records[j]);
        }
      }
      Some(records[k])
  }

  /** Appending a record for another file leaves every lookup of `file` as it was. */
  lemma InsightAppendOther(records: seq<Insight>, rec: Insight, file: ObjectId)
    requires rec.file != file
    ensures FindInsight(records + [rec], file) == FindInsight(records, file)
  {
    FirstIndexAppend(records, rec, RefersTo(file));
  }

  /** Appending a record never changes a lookup that already found one: the earlier record keeps winning. */
  lemma InsightAppendFound(records: seq<Insight>, rec: Insight, file: ObjectId)
    requires FindInsight(records, file).Some?
    ensures FindInsight(records + [rec], file) == FindInsight(records, file)
  {
    FirstIndexAppend(records, rec, RefersTo(file));
  }

  /** After the first record for a file is appended, the lookup finds exactly that record. */
  lemma InsightAppendNew(records: seq<Insight>, rec: Insight)
    requires forall k :: 0 <= k < |records| ==> records[k].file != rec.file
    ensures FindInsight(records + [rec], rec.file) == Some(rec)
  {
    FirstIndexAppend(records, rec, RefersTo(rec.file));
  }

  /** The Insight collection: `Insight.create` appends and nothing updates or deletes. */
  class InsightStore {
    var records: seq<Insight>

    constructor ()
      ensures records == []
    {
      records := [];
    }

    /**
     * `Insight.create(draft)`: validates first, and only a valid record reaches the
     * database; `outage` is the error the insert meets when the database is unreachable.
     */
    method Create(draft: InsightDraft, cast: ObjectIdCast, outage: Option<string>)
      returns (r: Result<Insight, string>)
      modifies this
      ensures ValidateDraft(draft, cast).Failure? ==> r == ValidateDraft(draft, cast)
      ensures ValidateDraft(draft, cast).Success? && outage.Some? ==> r == Failure(outage.value)
      ensures ValidateDraft(draft, cast).Success? && outage.None? ==> r == ValidateDraft(draft, cast)
      ensures r.Success? ==> records == old(records) + [r.value]
      ensures r.Failure? ==> records == old(records)
    {
      r := ValidateDraft(draft, cast);
      if r.Failure? {
        return;
      }
      if outage.Some? {
        return Failure(outage.value);
      }
      records := records + [r.value];
    }

    /** `Insight.findOne({ file })` on this store: the first record, in store order, that references `file`. */
    function FindByFile(file: ObjectId): (r: Option<Insight>)
      reads this
      ensures r.Some? ==> r.value.file == file
      ensures r.Some? ==> exists k ::
        && 0 <= k < |records| && records[k] == r.value
        && forall j :: 0 <= j < k ==> records[j].file != file
      ensures r.None? <==> forall k :: 0 <= k < |records| ==> records[k].file != file
    {
      FindInsight(records, file)
    }
  }
}
