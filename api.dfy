/**
 * The two web entry points of the application modelled here: the checks and
 * the sequence of steps of `POST /upload`, and the counting and selection of
 * `GET /stats`. Text extraction, the classifier, the database and the writing
 * of the uploaded bytes are parameters; the upload directory is an object
 * whose set of stored paths an upload changes.
 */
module Api {
  import opened Wrappers
  import opened Text
  import opened Values

  // ---------------------------------------------------------------------
  // Configuration

  /** The accepted file extensions, in the order the rejection message lists them. */
  const SupportedExtensions: seq<string> := [".pdf", ".png", ".jpg", ".jpeg", ".tiff", ".bmp"]

  const Megabyte: int := 1024 * 1024

  /** The size limit when the environment does not set one: 50 MB. */
  const DefaultMaxFileSize: int := 50 * Megabyte

  /** What an upload reads from the configuration: the upload directory and the size limit in bytes. */
  datatype Config = Config(uploadDir: string, maxFileSize: int)

  const DefaultConfig: Config := Config("uploads", DefaultMaxFileSize)

  // ---------------------------------------------------------------------
  // The two guards on an uploaded file

  /** `s.endswith(tuple(suffixes))`. */
  predicate EndsWithAny(s: string, suffixes: seq<string>)
    decreases |suffixes|
  {
    |suffixes| > 0 && (EndsWith(s, suffixes[0]) || EndsWithAny(s, suffixes[1..]))
  }

  lemma {:induction false} EndsWithAnyIff(s: string, suffixes: seq<string>)
    ensures EndsWithAny(s, suffixes) <==> exists i :: 0 <= i < |suffixes| && EndsWith(s, suffixes[i])
    decreases |suffixes|
  {
    if |suffixes| > 0 {
      EndsWithAnyIff(s, suffixes[1..]);
      if exists i :: 0 <= i < |suffixes| && EndsWith(s, suffixes[i]) {
        var i :| 0 <= i < |suffixes| && EndsWith(s, suffixes[i]);
        if i > 0 {
          assert suffixes[1..][i - 1] == suffixes[i];
        }
      }
      if EndsWithAny(s, suffixes[1..]) {
        var i :| 0 <= i < |suffixes| - 1 && EndsWith(s, suffixes[1..][i]);
        assert suffixes[i + 1] == suffixes[1..][i];
      }
    }
  }

  /** The extension check: the lower-cased name ends with one of the supported extensions. */
  predicate IsSupportedFile(filename: string) {
    EndsWithAny(Lower(filename), SupportedExtensions)
  }

  /** A file is accepted exactly when its lower-cased name ends with one of the listed extensions. */
  lemma SupportedIff(filename: string)
    ensures IsSupportedFile(filename) <==> exists e :: e in SupportedExtensions && EndsWith(Lower(filename), e)
  {
    EndsWithAnyIff(Lower(filename), SupportedExtensions);
    if exists e :: e in SupportedExtensions && EndsWith(Lower(filename), e) {
      var e :| e in SupportedExtensions && EndsWith(Lower(filename), e);
      var i :| 0 <= i < |SupportedExtensions| && SupportedExtensions[i] == e;
    }
  }

  lemma LowerCharIdempotent(c: char)
    ensures LowerChar(LowerChar(c)) == LowerChar(c)
  {
  }

  lemma LowerIdempotent(s: string)
    ensures Lower(Lower(s)) == Lower(s)
  {
    forall i | 0 <= i < |s|
      ensures Lower(Lower(s))[i] == Lower(s)[i]
    {
      LowerCharIdempotent(s[i]);
    }
  }

  /** The extension check ignores the case of the name: "RELEVE.PDF" passes as "releve.pdf" does. */
  lemma SupportedIgnoresCase(filename: string)
    ensures IsSupportedFile(Lower(filename)) <==> IsSupportedFile(filename)
  {
    LowerIdempotent(filename);
  }

  lemma SupportedExamples()
    ensures IsSupportedFile("Avis.PDF") && IsSupportedFile("scan.jpeg")
    ensures !IsSupportedFile("notes.txt")
  {
    assert Lower("Avis.PDF") == "avis.pdf";
    assert EndsWith("avis.pdf", ".pdf");
    assert Lower("scan.jpeg") == "scan.jpeg";
    assert EndsWith("scan.jpeg", ".jpeg");
    assert Lower("notes.txt") == "notes.txt";
  }

  /** `file.size and file.size > MAX_FILE_SIZE`: only a known, non-zero size above the limit is refused. */
  predicate TooLarge(size: Option<nat>, limit: int) {
    size.Some? && size.value != 0 && size.value > limit
  }

  /** The limit itself is allowed; one byte more is refused; an unknown or zero size always passes. */
  lemma SizeLimitInclusive(limit: nat)
    ensures !TooLarge(Some(limit), limit)
    ensures TooLarge(Some(limit + 1), limit)
    ensures !TooLarge(None, limit) && !TooLarge(Some(0), limit)
  {
  }

  // ---------------------------------------------------------------------
  // Refusals

  const FailurePrefix: string := "Erreur lors du traitement: "

  /** Why an upload is refused, with the HTTP status and detail the endpoint raises. */
  datatype Refusal =
    | NotReady                    // the services were not initialised
    | Unsupported                 // the extension check failed
    | FileTooLarge(limit: int)    // the size check failed against `limit` bytes
    | NoText                      // the extracted text is blank
    | Failure(message: string)    // any other exception, with its message
  {
    function Status(): nat {
      match this
      case NotReady => 503
      case Failure(_) => 500
      case _ => 400
    }

    function Detail(): string {
      match this
      case NotReady => "Services non initialisés"
      case Unsupported => "Type de fichier non supporté. Extensions supportées: " + Join(SupportedExtensions, ", ")
      case FileTooLarge(limit) => "Fichier trop volumineux. Taille maximale: " + IntToString(limit / Megabyte) + "MB"
      case NoText => "Impossible d'extraire le texte du document"
      case Failure(message) => FailurePrefix + message
    }
  }

  /** A limit of `n` megabytes is announced as "<n>MB" (`MAX_FILE_SIZE // (1024*1024)`). */
  lemma TooLargeNamesMegabytes(n: int)
    ensures FileTooLarge(n * Megabyte).Detail() == "Fichier trop volumineux. Taille maximale: " + IntToString(n) + "MB"
  {
    assert n * Megabyte / Megabyte == n;
  }

  /** Exactly the unexpected exceptions give a server error, and its detail carries their message after the prefix. */
  lemma ServerErrorIffFailure(r: Refusal)
    ensures r.Status() == 500 <==> r.Failure?
    ensures r.Failure? ==> StartsWith(r.Detail(), FailurePrefix) && r.Detail()[|FailurePrefix|..] == r.message
  {
    if r.Failure? {
      assert (FailurePrefix + r.message)[..|FailurePrefix|] == FailurePrefix;
      assert (FailurePrefix + r.message)[|FailurePrefix|..] == r.message;
    }
  }

  // ---------------------------------------------------------------------
  // Where the file goes

  /** `os.path.join(directory, name)` with `/` as separator. */
  function JoinPath(directory: string, name: string): (path: string)
    ensures EndsWith(path, name)
    ensures !StartsWith(name, "/") ==> StartsWith(path, directory)
  {
    if StartsWith(name, "/") || directory == "" then name
    else if EndsWith(directory, "/") then
      assert (directory + name)[..|directory|] == directory;
      assert (directory + name)[|directory|..] == name;
      directory + name
    else
      assert (directory + "/" + name)[..|directory|] == directory;
      assert (directory + "/" + name)[|directory| + 1..] == name;
      directory + "/" + name
  }

  /**
   * An absolute file name replaces the upload directory; any other is appended
   * to it as text (a name holding ".." can still name a file outside it).
   */
  lemma JoinPathExamples()
    ensures JoinPath("uploads", "avis.pdf") == "uploads/avis.pdf"
    ensures JoinPath("uploads", "/tmp/avis.pdf") == "/tmp/avis.pdf"
  {
    assert "avis.pdf"[..1] == "a";
    assert "uploads"[|"uploads"| - 1..] == "s";
    assert "/tmp/avis.pdf"[..1] == "/";
  }

  // ---------------------------------------------------------------------
  // The upload

  /** The uploaded file as the endpoint sees it: its name and its size, when known. */
  datatype Upload = Upload(filename: string, size: Option<nat>)

  /** The row `insert_document` is asked to write. */
  datatype DocumentRecord = DocumentRecord(
    filename: string,
    filePath: string,
    extractedText: string,
    detectedType: Value,
    detectedCategory: Value,
    confidence: Value)

  /**
   * The steps the upload hands to others. Each gives its result or the
   * message of the exception it raises; the classifier catches its own
   * failures and always answers with the dictionary of its result.
   */
  datatype Services = Services(
    save: string -> Option<string>,
    extract: string -> Result<string>,
    classify: string -> Fields,
    insert: DocumentRecord -> Result<int>)

  /** The answer: the JSON of a success, or the refusal the endpoint raises as an HTTP error. */
  datatype UploadOutcome =
    | Accepted(documentId: int, filename: string, classification: Fields)
    | Rejected(refusal: Refusal)

  /** What became of the file at the upload path. */
  datatype FileEffect = Untouched | Kept | Removed

  /** `classification_result.get("classification", classification_result)`. */
  function ClassificationData(result: Fields): (data: Value)
    ensures HasKey(result, "classification") ==> data == Get(result, "classification").value
    ensures !HasKey(result, "classification") ==> data == Dict(result)
  {
    GetOr(result, "classification", Dict(result))
  }

  /** The row stored for a document, its type, category and confidence read from `data` (`None` when missing). */
  function RecordOf(filename: string, path: string, text: string, data: Fields): DocumentRecord {
    DocumentRecord(filename, path, text,
      GetOr(data, "document_type", Null), GetOr(data, "category", Null), GetOr(data, "confidence", Null))
  }

  /** The checks made before anything is written: services, extension, size. */
  function Guard(config: Config, ready: bool, upload: Upload): Option<Refusal> {
    if !ready then Some(NotReady)
    else if !IsSupportedFile(upload.filename) then Some(Unsupported)
    else if TooLarge(upload.size, config.maxFileSize) then Some(FileTooLarge(config.maxFileSize))
    else None
  }

  /** Classifying the extracted text and storing the row. */
  function Store(filename: string, path: string, text: string, services: Services): (UploadOutcome, FileEffect) {
    var result := services.classify(text);
    var data := ClassificationData(result);
    if !data.Dict? then (Rejected(Failure(NoGetMessage(data))), Removed)
    else match services.insert(RecordOf(filename, path, text, data.fields))
      case Err(e) => (Rejected(Failure(e)), Removed)
      case Ok(id) => (Accepted(id, filename, result), Kept)
  }

  /** The steps from writing the file at `path` on. */
  function Process(filename: string, path: string, services: Services): (UploadOutcome, FileEffect) {
    if services.save(path).Some? then (Rejected(Failure(services.save(path).value)), Removed)
    else match services.extract(path)
      case Err(e) => (Rejected(Failure(e)), Removed)
      case Ok(text) =>
        if Strip(text) == "" then (Rejected(NoText), Removed)
        else Store(filename, path, text, services)
  }

  /** The answer to an upload and what becomes of the file at its path. */
  function UploadResult(config: Config, ready: bool, upload: Upload, services: Services): (UploadOutcome, FileEffect) {
    match Guard(config, ready, upload)
    case Some(refusal) => (Rejected(refusal), Untouched)
    case None => Process(upload.filename, JoinPath(config.uploadDir, upload.filename), services)
  }

  /** The set of stored paths after an upload of `path` whose file met `effect`. */
  function AfterUpload(files: set<string>, path: string, effect: FileEffect): set<string> {
    match effect
    case Untouched => files
    case Kept => files + {path}
    case Removed => files - {path}
  }

  /** The upload directory: the paths of the files it holds. */
  class UploadDirectory {
    var files: set<string>

    constructor(files0: set<string>)
      ensures files == files0
    {
      files := files0;
    }

    /**
     * `upload_document`: the service check, the extension and size checks,
     * the write, the extraction, the blank-text check, the classification and
     * the insertion, in this order; a failure after the write removes the file.
     */
    method UploadDocument(config: Config, ready: bool, upload: Upload, services: Services) returns (outcome: UploadOutcome)
      modifies this
      ensures outcome == UploadResult(config, ready, upload, services).0
      ensures files == AfterUpload(old(files), JoinPath(config.uploadDir, upload.filename),
        UploadResult(config, ready, upload, services).1)
    {
      if !ready {
        return Rejected(NotReady);
      }
      if !IsSupportedFile(upload.filename) {
        return Rejected(Unsupported);
      }
      if upload.size.Some? && upload.size.value != 0 && upload.size.value > config.maxFileSize {
        return Rejected(FileTooLarge(config.maxFileSize));
      }
      var filePath := JoinPath(config.uploadDir, upload.filename);
      files := files + {filePath};
      var written := services.save(filePath);
      if written.Some? {
        files := files - {filePath};
        return Rejected(Failure(written.value));
      }
      var extracted := services.extract(filePath);
      if extracted.Err? {
        files := files - {filePath};
        return Rejected(Failure(extracted.error));
      }
      var extractedText := extracted.value;
      if Strip(extractedText) == "" {
        files := files - {filePath};
        return Rejected(NoText);
      }
      var classificationResult := services.classify(extractedText);
      var classificationData := ClassificationData(classificationResult);
      if !classificationData.Dict? {
        files := files - {filePath};
        return Rejected(Failure(NoGetMessage(classificationData)));
      }
      var record := RecordOf(upload.filename, filePath, extractedText, classificationData.fields);
      var inserted := services.insert(record);
      if inserted.Err? {
        files := files - {filePath};
        return Rejected(Failure(inserted.error));
      }
      outcome := Accepted(inserted.value, upload.filename, classificationResult);
    }
  }

  /** Unready services are refused with 503 before the file is looked at, and the directory is untouched. */
  lemma ServicesCheckedFirst(config: Config, upload: Upload, services: Services)
    ensures UploadResult(config, false, upload, services) == (Rejected(NotReady), Untouched)
  {
  }

  lemma StoreAcceptedIff(filename: string, path: string, text: string, services: Services)
    ensures var data := ClassificationData(services.classify(text));
      Store(filename, path, text, services).0.Accepted? <==>
        data.Dict? && services.insert(RecordOf(filename, path, text, data.fields)).Ok?
  {
  }

  lemma ProcessAcceptedIff(filename: string, path: string, services: Services)
    ensures Process(filename, path, services).0.Accepted? <==>
      && services.save(path).None? && services.extract(path).Ok?
      && !IsBlank(services.extract(path).value)
      && Store(filename, path, services.extract(path).value, services).0.Accepted?
  {
    if services.extract(path).Ok? {
      StripEmptyIffBlank(services.extract(path).value);
    }
  }

  /**
   * An upload is accepted exactly when every step goes through: the services
   * are ready, the name and size pass, the write and the extraction succeed,
   * the text is not blank, the classification data is a dictionary and the
   * insertion succeeds.
   */
  lemma AcceptedIff(config: Config, ready: bool, upload: Upload, services: Services)
    ensures var path := JoinPath(config.uploadDir, upload.filename);
      UploadResult(config, ready, upload, services).0.Accepted? <==>
        && ready && IsSupportedFile(upload.filename) && !TooLarge(upload.size, config.maxFileSize)
        && services.save(path).None? && services.extract(path).Ok?
        && !IsBlank(services.extract(path).value)
        && ClassificationData(services.classify(services.extract(path).value)).Dict?
        && services.insert(RecordOf(upload.filename, path, services.extract(path).value,
             ClassificationData(services.classify(services.extract(path).value)).fields)).Ok?
  {
    var path := JoinPath(config.uploadDir, upload.filename);
    ProcessAcceptedIff(upload.filename, path, services);
    if services.extract(path).Ok? {
      StoreAcceptedIff(upload.filename, path, services.extract(path).value, services);
    }
  }

  lemma StoreKeepsIffAccepted(filename: string, path: string, text: string, services: Services)
    ensures var r := Store(filename, path, text, services);
      (r.1 == Kept <==> r.0.Accepted?) && r.1 != Untouched
  {
  }

  lemma ProcessKeepsIffAccepted(filename: string, path: string, services: Services)
    ensures var r := Process(filename, path, services);
      (r.1 == Kept <==> r.0.Accepted?) && r.1 != Untouched
  {
    if services.save(path).None? && services.extract(path).Ok? {
      StoreKeepsIffAccepted(filename, path, services.extract(path).value, services);
    }
  }

  /**
   * The file stays in the directory exactly when the upload is accepted; it
   * is never written when a guard refuses the upload, and removed on every
   * failure after the write.
   */
  lemma FileKeptIffAccepted(config: Config, ready: bool, upload: Upload, services: Services)
    ensures var r := UploadResult(config, ready, upload, services);
      && (r.1 == Kept <==> r.0.Accepted?)
      && (r.1 == Untouched <==> !ready || !IsSupportedFile(upload.filename) || TooLarge(upload.size, config.maxFileSize))
  {
    ProcessKeepsIffAccepted(upload.filename, JoinPath(config.uploadDir, upload.filename), services);
  }

  /** Whitespace-only text removes the stored file and is refused with 400. */
  lemma BlankTextRemovesFile(config: Config, upload: Upload, services: Services)
    requires IsSupportedFile(upload.filename) && !TooLarge(upload.size, config.maxFileSize)
    requires services.save(JoinPath(config.uploadDir, upload.filename)).None?
    requires services.extract(JoinPath(config.uploadDir, upload.filename)).Ok?
    requires IsBlank(services.extract(JoinPath(config.uploadDir, upload.filename)).value)
    ensures UploadResult(config, true, upload, services) == (Rejected(NoText), Removed)
  {
    StripEmptyIffBlank(services.extract(JoinPath(config.uploadDir, upload.filename)).value);
  }

  /**
   * An accepted upload stored the extracted text with the type, category and
   * confidence of the "classification" entry of the classifier's answer when
   * it has one, of the answer itself otherwise, and answers with the new row's id.
   */
  lemma StoredFromClassification(config: Config, ready: bool, upload: Upload, services: Services)
    requires UploadResult(config, ready, upload, services).0.Accepted?
    ensures var path := JoinPath(config.uploadDir, upload.filename);
      var text := services.extract(path).value;
      var result := services.classify(text);
      var data := if HasKey(result, "classification") then Get(result, "classification").value else Dict(result);
      && services.extract(path).Ok?
      && data.Dict?
      && services.insert(DocumentRecord(upload.filename, path, text,
           GetOr(data.fields, "document_type", Null), GetOr(data.fields, "category", Null),
           GetOr(data.fields, "confidence", Null)))
         == Ok(UploadResult(config, ready, upload, services).0.documentId)
      && UploadResult(config, ready, upload, services).0.classification == result
  {
  }

  /** Every server error comes from an exception after the write, and leaves no file behind. */
  lemma ServerErrorsRemoveFile(config: Config, ready: bool, upload: Upload, services: Services)
    requires UploadResult(config, ready, upload, services).0.Rejected?
    requires UploadResult(config, ready, upload, services).0.refusal.Status() == 500
    ensures UploadResult(config, ready, upload, services).0.refusal.Failure?
    ensures Guard(config, ready, upload).None?
    ensures UploadResult(config, ready, upload, services).1 == Removed
  {
  }

  // ---------------------------------------------------------------------
  // Statistics

  const Uncategorized: string := "Non catégorisé"
  const RecentLimit: nat := 5

  /** `doc.get('detected_category', 'Non catégorisé')`. */
  function CategoryKey(doc: Fields): Value {
    GetOr(doc, "detected_category", Str(Uncategorized))
  }

  /** A dictionary from categories to counts, in insertion order. */
  type Counts = seq<(Value, nat)>

  /** `categories.get(c, 0)`. */
  function CountOf(counts: Counts, c: Value): nat
    decreases |counts|
  {
    if |counts| == 0 then 0
    else if counts[0].0 == c then counts[0].1
    else CountOf(counts[1..], c)
  }

  /** `categories[c] = n`: an existing category keeps its place, a new one goes last. */
  function SetCount(counts: Counts, c: Value, n: nat): (r: Counts)
    ensures |r| >= |counts|
    decreases |counts|
  {
    if |counts| == 0 then [(c, n)]
    else if counts[0].0 == c then [(c, n)] + counts[1..]
    else [counts[0]] + SetCount(counts[1..], c, n)
  }

  /** The categories dictionary after counting `docs` in order. */
  function Tally(docs: seq<Fields>): Counts
    decreases |docs|
  {
    if |docs| == 0 then []
    else
      var counts := Tally(docs[..|docs| - 1]);
      var c := CategoryKey(docs[|docs| - 1]);
      SetCount(counts, c, CountOf(counts, c) + 1)
  }

  /** The number of documents whose category is `c`. */
  function Occurrences(docs: seq<Fields>, c: Value): nat
    decreases |docs|
  {
    if |docs| == 0 then 0
    else Occurrences(docs[..|docs| - 1], c) + (if CategoryKey(docs[|docs| - 1]) == c then 1 else 0)
  }

  /** The sum of the counts. */
  function Total(counts: Counts): nat
    decreases |counts|
  {
    if |counts| == 0 then 0 else counts[0].1 + Total(counts[1..])
  }

  predicate HasCategory(counts: Counts, c: Value)
    decreases |counts|
  {
    |counts| > 0 && (counts[0].0 == c || HasCategory(counts[1..], c))
  }

  /** No category appears twice. */
  predicate DistinctCategories(counts: Counts)
    decreases |counts|
  {
    |counts| == 0 || (!HasCategory(counts[1..], counts[0].0) && DistinctCategories(counts[1..]))
  }

  lemma {:induction false} SetCountOf(counts: Counts, c: Value, n: nat, d: Value)
    ensures CountOf(SetCount(counts, c, n), d) == if d == c then n else CountOf(counts, d)
    decreases |counts|
  {
    if |counts| > 0 && counts[0].0 != c {
      SetCountOf(counts[1..], c, n, d);
      assert SetCount(counts, c, n)[1..] == SetCount(counts[1..], c, n);
    } else if |counts| > 0 {
      assert SetCount(counts, c, n)[1..] == counts[1..];
    }
  }

  lemma {:induction false} CountOfAbsent(counts: Counts, c: Value)
    requires !HasCategory(counts, c)
    ensures CountOf(counts, c) == 0
    decreases |counts|
  {
    if |counts| > 0 {
      CountOfAbsent(counts[1..], c);
    }
  }

  lemma {:induction false} SetCountTotal(counts: Counts, c: Value, n: nat)
    requires DistinctCategories(counts)
    ensures Total(SetCount(counts, c, n)) == Total(counts) - CountOf(counts, c) + n
    decreases |counts|
  {
    if |counts| > 0 {
      if counts[0].0 == c {
        assert SetCount(counts, c, n)[1..] == counts[1..];
        CountOfAbsent(counts[1..], c);
      } else {
        SetCountTotal(counts[1..], c, n);
        assert SetCount(counts, c, n)[1..] == SetCount(counts[1..], c, n);
      }
    }
  }

  lemma {:induction false} SetCountHas(counts: Counts, c: Value, n: nat, d: Value)
    ensures HasCategory(SetCount(counts, c, n), d) <==> d == c || HasCategory(counts, d)
    decreases |counts|
  {
    var r := SetCount(counts, c, n);
    if |counts| > 0 {
      if counts[0].0 == c {
        assert r[1..] == counts[1..];
      } else {
        SetCountHas(counts[1..], c, n, d);
        assert r[1..] == SetCount(counts[1..], c, n);
      }
    }
  }

  lemma {:induction false} SetCountDistinct(counts: Counts, c: Value, n: nat)
    requires DistinctCategories(counts)
    ensures DistinctCategories(SetCount(counts, c, n))
    decreases |counts|
  {
    var r := SetCount(counts, c, n);
    if |counts| > 0 {
      if counts[0].0 == c {
        assert r[1..] == counts[1..];
      } else {
        SetCountDistinct(counts[1..], c, n);
        SetCountHas(counts[1..], c, n, counts[0].0);
        assert r[1..] == SetCount(counts[1..], c, n);
      }
    }
  }

  lemma {:induction false} TallyDistinctTotal(docs: seq<Fields>)
    ensures DistinctCategories(Tally(docs))
    ensures Total(Tally(docs)) == |docs|
    decreases |docs|
  {
    if |docs| > 0 {
      var counts := Tally(docs[..|docs| - 1]);
      var c := CategoryKey(docs[|docs| - 1]);
      TallyDistinctTotal(docs[..|docs| - 1]);
      SetCountDistinct(counts, c, CountOf(counts, c) + 1);
      SetCountTotal(counts, c, CountOf(counts, c) + 1);
    }
  }

  lemma {:induction false} TallyCountOf(docs: seq<Fields>, d: Value)
    ensures CountOf(Tally(docs), d) == Occurrences(docs, d)
    ensures HasCategory(Tally(docs), d) <==> Occurrences(docs, d) > 0
    decreases |docs|
  {
    if |docs| > 0 {
      var counts := Tally(docs[..|docs| - 1]);
      var c := CategoryKey(docs[|docs| - 1]);
      TallyCountOf(docs[..|docs| - 1], d);
      SetCountOf(counts, c, CountOf(counts, c) + 1, d);
      SetCountHas(counts, c, CountOf(counts, c) + 1, d);
    }
  }

  /**
   * The categories dictionary counts each category as many times as it
   * occurs, holds exactly the categories that occur, each once, and its
   * counts add up to the number of documents.
   */
  lemma TallyCounts(docs: seq<Fields>)
    ensures DistinctCategories(Tally(docs))
    ensures forall c :: CountOf(Tally(docs), c) == Occurrences(docs, c)
    ensures forall c :: HasCategory(Tally(docs), c) <==> Occurrences(docs, c) > 0
    ensures Total(Tally(docs)) == |docs|
  {
    TallyDistinctTotal(docs);
    forall c
      ensures CountOf(Tally(docs), c) == Occurrences(docs, c)
      ensures HasCategory(Tally(docs), c) <==> Occurrences(docs, c) > 0
    {
      TallyCountOf(docs, c);
    }
  }

  /** The keys of a recent-document summary and the columns they are read from. */
  const SummaryKeys: seq<(string, string)> := [
    ("id", "id"), ("filename", "filename"), ("type", "detected_type"),
    ("category", "detected_category"), ("confidence", "confidence"), ("created_at", "created_at")]

  /** Python's message for a `KeyError`: the key in quotes. */
  function KeyErrorMessage(key: string): string {
    "'" + key + "'"
  }

  /** A dictionary display `{k: doc[col], ...}`: the entries in order, or the `KeyError` of the first missing column. */
  function Project(doc: Fields, keys: seq<(string, string)>): (r: Result<Fields>)
    ensures r.Ok? <==> forall i :: 0 <= i < |keys| ==> HasKey(doc, keys[i].1)
    ensures r.Ok? ==> |r.value| == |keys| && forall i :: 0 <= i < |keys| ==> r.value[i] == (keys[i].0, Get(doc, keys[i].1).value)
    ensures r.Err? ==> exists i :: 0 <= i < |keys| && !HasKey(doc, keys[i].1) && r.error == KeyErrorMessage(keys[i].1)
    decreases |keys|
  {
    if |keys| == 0 then Ok([])
    else match Get(doc, keys[0].1)
      case None => Err(KeyErrorMessage(keys[0].1))
      case Some(v) =>
        var rest := Project(doc, keys[1..]);
        if rest.Err? then
          assert forall i :: 0 <= i < |keys| - 1 ==> keys[1..][i] == keys[i + 1];
          rest
        else
          assert forall i :: 0 <= i < |keys| - 1 ==> keys[1..][i] == keys[i + 1];
          Ok([(keys[0].0, v)] + rest.value)
  }

  /** `[f(x) for x in xs]` where `f` may raise: the results in order, or the error of the first that fails. */
  function MapAll<T, U>(xs: seq<T>, f: T -> Result<U>): Result<seq<U>>
    decreases |xs|
  {
    if |xs| == 0 then Ok([])
    else
      var first := f(xs[0]);
      var rest := MapAll(xs[1..], f);
      if first.Err? then Err(first.error)
      else if rest.Err? then Err(rest.error)
      else Ok([first.value] + rest.value)
  }

  /** The comprehension succeeds exactly when every element does, and then gives one result per element, in order. */
  lemma {:induction false} MapAllInOrder<T, U>(xs: seq<T>, f: T -> Result<U>)
    ensures MapAll(xs, f).Ok? <==> forall i :: 0 <= i < |xs| ==> f(xs[i]).Ok?
    ensures MapAll(xs, f).Ok? ==>
      |MapAll(xs, f).value| == |xs| && forall i :: 0 <= i < |xs| ==> f(xs[i]) == Ok(MapAll(xs, f).value[i])
    decreases |xs|
  {
    if |xs| > 0 {
      var tail := xs[1..];
      MapAllInOrder(tail, f);
      if forall i :: 0 <= i < |xs| ==> f(xs[i]).Ok? {
        forall i | 0 <= i < |tail| ensures f(tail[i]).Ok? {
          assert tail[i] == xs[i + 1];
        }
      }
      var r := MapAll(xs, f);
      if r.Ok? {
        var rest := MapAll(tail, f).value;
        assert r.value == [f(xs[0]).value] + rest;
        forall i | 0 <= i < |xs|
          ensures f(xs[i]) == Ok(r.value[i])
        {
          if i > 0 {
            assert xs[i] == tail[i - 1];
          }
        }
      }
    }
  }

  /** The summaries of the recent documents, or the `KeyError` of the first that lacks a column. */
  function Summaries(docs: seq<Fields>): Result<seq<Fields>> {
    MapAll(docs, (doc: Fields) => Project(doc, SummaryKeys))
  }

  function Min(a: nat, b: nat): nat {
    if a <= b then a else b
  }

  /** The statistics answer. */
  datatype Stats = Stats(totalDocuments: nat, categories: Counts, recentDocuments: seq<Fields>)

  /**
   * `get_stats` over the documents as the database returns them (newest
   * first): no documents give zeros; otherwise the total, the count per
   * category, which add up to the total, and the summaries of the first five
   * documents in order, or the `KeyError` of the first of those five that
   * lacks a column.
   */
  method GetStats(documents: seq<Fields>) returns (r: Result<Stats>)
    ensures documents == [] ==> r == Ok(Stats(0, [], []))
    ensures var recent := documents[..Min(RecentLimit, |documents|)];
      r.Ok? <==> forall i :: 0 <= i < |recent| ==> Project(recent[i], SummaryKeys).Ok?
    ensures r.Ok? ==> r.value.totalDocuments == |documents| && r.value.categories == Tally(documents)
    ensures r.Ok? ==> Total(r.value.categories) == r.value.totalDocuments
    ensures r.Ok? ==> |r.value.recentDocuments| == Min(RecentLimit, |documents|)
    ensures r.Ok? ==> forall i :: 0 <= i < |r.value.recentDocuments| ==>
      Project(documents[i], SummaryKeys) == Ok(r.value.recentDocuments[i])
  {
    if |documents| == 0 {
      return Ok(Stats(0, [], []));
    }
    var categories: Counts := [];
    for i := 0 to |documents|
      invariant categories == Tally(documents[..i])
    {
      assert documents[..i + 1][..i] == documents[..i];
      var category := CategoryKey(documents[i]);
      categories := SetCount(categories, category, CountOf(categories, category) + 1);
    }
    assert documents[..|documents|] == documents;
    TallyCounts(documents);
    var recent := documents[..Min(RecentLimit, |documents|)];
    var recentDocuments := Summaries(recent);
    MapAllInOrder(recent, (doc: Fields) => Project(doc, SummaryKeys));
    if recentDocuments.Err? {
      return Err(recentDocuments.error);
    }
    r := Ok(Stats(|documents|, categories, recentDocuments.value));
  }
}
