/**
 * `SynthesisGenerator.generate_synthesis`: prepare and enrich the fetched
 * extractions, ask the model for a financing card, stamp it with its
 * traceability fields, store it and report the outcome, mapping every
 * exception to an error message.
 *
 * The fetch, the model call, the clock and the database insert are
 * parameters: the fetched documents, a function from the enriched data to a
 * card or an exception, the dossier identifier and date read from the
 * clock, and a function from the stored record to its row id or an exception.
 */
module Synthesis {
  import opened Wrappers
  import opened Text
  import opened Values
  import opened SynthesisRouting
  import opened SynthesisEnrichment

  /** The exceptions the flow tells apart. Pydantic's `ValidationError` derives from `ValueError`. */
  datatype PyError =
    | ValueError(msg: string)
    | ValidationError(msg: string)
    | OtherError(msg: string)

  /** What `except ValueError` catches. */
  predicate IsValueError(e: PyError) {
    e.ValueError? || e.ValidationError?
  }

  /** A collaborator's answer: a value, or the exception it raised. */
  datatype Attempt<+T> = Done(value: T) | Raised(error: PyError)

  /** The row handed to `insert_synthese`. */
  datatype SavedSynthesis = SavedSynthesis(
    dossierId: string,
    inputDocuments: seq<int>,
    synthese: Fields,
    confidence: real)

  /** The dictionary `generate_synthesis` returns, without its processing time. */
  datatype SynthesisOutcome =
    | Generated(syntheseId: int, dossierId: string, synthese: Fields, documentsUsed: nat, message: string)
    | Failed(error: string)

  /** The model, given the enriched data its prompt is built from. */
  type CardModel = EnhancedData -> Attempt<Fields>

  /** `insert_synthese`. */
  type SynthesisStore = SavedSynthesis -> Attempt<int>

  const SynthesisConfidence: real := 0.85
  const SuccessMessage: string := "Carte de Financement générée avec succès"
  const DataErrorPrefix: string := "Erreur de données: "
  const ValidationErrorPrefix: string := "Erreur de validation du modèle: "
  const GenerationErrorPrefix: string := "Erreur lors de la génération de la synthèse: "

  const DossierKey: string := "dossier_id"
  const DateKey: string := "date_generation"
  const SourcesKey: string := "documents_sources"

  /** The card with its traceability fields set. */
  function Traced(card: Fields, dossierId: string, date: string, sources: seq<string>): Fields {
    Put(Put(Put(card, DossierKey, Str(dossierId)), DateKey, Str(date)), SourcesKey, Str(Join(sources, ", ")))
  }

  /** The error message of the handlers as they are written: `except ValueError` comes first. */
  function ErrorMessageAsWritten(e: PyError): string {
    if IsValueError(e) then DataErrorPrefix + e.msg else GenerationErrorPrefix + e.msg
  }

  /**
   * The error message each handler was written to produce, had
   * `except ValidationError` come before `except ValueError`.
   */
  function ErrorMessage(e: PyError): string {
    match e
    case ValueError(m) => DataErrorPrefix + m
    case ValidationError(m) => ValidationErrorPrefix + m
    case OtherError(m) => GenerationErrorPrefix + m
  }

  /** The outcome once the model has answered `reply` on the prepared `data`. */
  function Reported(
    ids: seq<int>, data: StructuredData, reply: Attempt<Fields>, store: SynthesisStore,
    dossierId: string, date: string): SynthesisOutcome
  {
    match reply
    case Raised(e) => Failed(ErrorMessageAsWritten(e))
    case Done(card) =>
      var synthese := Traced(card, dossierId, date, data.documentsSources);
      match store(SavedSynthesis(dossierId, ids, synthese, SynthesisConfidence))
      case Raised(e) => Failed(ErrorMessageAsWritten(e))
      case Done(id) => Generated(id, dossierId, synthese, |ids|, SuccessMessage)
  }

  /** The outcome of one generation, for the given fetched documents and collaborators. */
  function SynthesisOf(
    ids: seq<int>, docs: seq<SourceDocument>, model: CardModel, store: SynthesisStore,
    dossierId: string, date: string): SynthesisOutcome
  {
    if |docs| == 0 then Failed(ErrorMessageAsWritten(ValueError(NoDocumentsMessage)))
    else Reported(ids, Prepared(docs), model(Enhanced(Prepared(docs))), store, dossierId, date)
  }

  method GenerateSynthesis(
    ids: seq<int>, docs: seq<SourceDocument>, model: CardModel, store: SynthesisStore,
    dossierId: string, date: string) returns (r: SynthesisOutcome)
    ensures r == SynthesisOf(ids, docs, model, store, dossierId, date)
  {
    var prepared := PrepareDocumentsData(docs);
    if prepared.Err? {
      return Failed(ErrorMessageAsWritten(ValueError(prepared.error)));
    }
    var data := prepared.value;
    var enhanced := EnhanceDocumentsData(data);
    var reply := model(enhanced);
    if reply.Raised? {
      return Failed(ErrorMessageAsWritten(reply.error));
    }
    var synthese := reply.value;
    synthese := Put(synthese, DossierKey, Str(dossierId));
    synthese := Put(synthese, DateKey, Str(date));
    synthese := Put(synthese, SourcesKey, Str(Join(data.documentsSources, ", ")));
    var stored := store(SavedSynthesis(dossierId, ids, synthese, SynthesisConfidence));
    if stored.Raised? {
      return Failed(ErrorMessageAsWritten(stored.error));
    }
    r := Generated(stored.value, dossierId, synthese, |ids|, SuccessMessage);
  }

  /** The three traceability fields read back as they were set, and every other field is the model's. */
  lemma TracedFields(card: Fields, dossierId: string, date: string, sources: seq<string>, k: string)
    ensures Get(Traced(card, dossierId, date, sources), DossierKey) == Some(Str(dossierId))
    ensures Get(Traced(card, dossierId, date, sources), DateKey) == Some(Str(date))
    ensures Get(Traced(card, dossierId, date, sources), SourcesKey) == Some(Str(Join(sources, ", ")))
    ensures k != DossierKey && k != DateKey && k != SourcesKey ==>
      Get(Traced(card, dossierId, date, sources), k) == Get(card, k)
  {
    var c1 := Put(card, DossierKey, Str(dossierId));
    var c2 := Put(c1, DateKey, Str(date));
    PutGetSame(card, DossierKey, Str(dossierId));
    PutGetOther(c1, DateKey, Str(date), DossierKey);
    PutGetOther(c2, SourcesKey, Str(Join(sources, ", ")), DossierKey);
    PutGetSame(c1, DateKey, Str(date));
    PutGetOther(c2, SourcesKey, Str(Join(sources, ", ")), DateKey);
    PutGetSame(c2, SourcesKey, Str(Join(sources, ", ")));
    if k != DossierKey && k != DateKey && k != SourcesKey {
      PutGetOther(card, DossierKey, Str(dossierId), k);
      PutGetOther(c1, DateKey, Str(date), k);
      PutGetOther(c2, SourcesKey, Str(Join(sources, ", ")), k);
    }
  }

  /** A generation succeeds exactly when documents were fetched and both the model and the insert answered. */
  lemma SuccessIff(
    ids: seq<int>, docs: seq<SourceDocument>, model: CardModel, store: SynthesisStore,
    dossierId: string, date: string)
    ensures SynthesisOf(ids, docs, model, store, dossierId, date).Generated? <==>
      |docs| > 0 && model(Enhanced(Prepared(docs))).Done?
      && store(SavedSynthesis(dossierId, ids,
           Traced(model(Enhanced(Prepared(docs))).value, dossierId, date, SourceLabels(docs)),
           SynthesisConfidence)).Done?
  {
    if |docs| > 0 {
      SourcesListEveryDocument(docs);
      FetchedIsReported(ids, docs, model, store, dossierId, date);
      ReportedGeneratedIff(ids, Prepared(docs), model(Enhanced(Prepared(docs))), store, dossierId, date);
    }
  }

  lemma ReportedGeneratedIff(
    ids: seq<int>, data: StructuredData, reply: Attempt<Fields>, store: SynthesisStore,
    dossierId: string, date: string)
    ensures Reported(ids, data, reply, store, dossierId, date).Generated? <==>
      reply.Done? && store(SavedSynthesis(dossierId, ids,
        Traced(reply.value, dossierId, date, data.documentsSources), SynthesisConfidence)).Done?
  {
  }

  /**
   * A generated card carries the dossier id, the date and one source label per
   * fetched document, is stored with confidence 0.85 under the id the insert
   * returned, and reports the number of requested ids.
   */
  lemma GeneratedCardIsTraced(
    ids: seq<int>, docs: seq<SourceDocument>, model: CardModel, store: SynthesisStore,
    dossierId: string, date: string)
    requires SynthesisOf(ids, docs, model, store, dossierId, date).Generated?
    ensures var r := SynthesisOf(ids, docs, model, store, dossierId, date);
      && r.dossierId == dossierId
      && Get(r.synthese, DossierKey) == Some(Str(dossierId))
      && Get(r.synthese, DateKey) == Some(Str(date))
      && Get(r.synthese, SourcesKey) == Some(Str(Join(SourceLabels(docs), ", ")))
      && store(SavedSynthesis(dossierId, ids, r.synthese, SynthesisConfidence)) == Done(r.syntheseId)
      && r.documentsUsed == |ids|
      && r.message == SuccessMessage
  {
    SourcesListEveryDocument(docs);
    var card := model(Enhanced(Prepared(docs))).value;
    TracedFields(card, dossierId, date, SourceLabels(docs), DossierKey);
  }

  /** Nothing fetched: a data error naming the missing documents, whatever the model would say. */
  lemma NoDocumentsIsDataError(
    ids: seq<int>, model: CardModel, store: SynthesisStore, dossierId: string, date: string)
    ensures SynthesisOf(ids, [], model, store, dossierId, date) == Failed(DataErrorPrefix + NoDocumentsMessage)
  {
  }

  /**
   * An exception from the model becomes the message of the first handler
   * that catches it, and the insert is never reached: a validation error is
   * caught by `except ValueError` and reported as a data error.
   */
  lemma ModelErrorIsReported(
    ids: seq<int>, docs: seq<SourceDocument>, model: CardModel, store: SynthesisStore,
    dossierId: string, date: string)
    requires |docs| > 0 && model(Enhanced(Prepared(docs))).Raised?
    ensures SynthesisOf(ids, docs, model, store, dossierId, date)
      == Failed(ErrorMessageAsWritten(model(Enhanced(Prepared(docs))).error))
  {
    FetchedIsReported(ids, docs, model, store, dossierId, date);
    RaisedIsReported(ids, Prepared(docs), model(Enhanced(Prepared(docs))), store, dossierId, date);
  }

  lemma FetchedIsReported(
    ids: seq<int>, docs: seq<SourceDocument>, model: CardModel, store: SynthesisStore,
    dossierId: string, date: string)
    requires |docs| > 0
    ensures SynthesisOf(ids, docs, model, store, dossierId, date)
      == Reported(ids, Prepared(docs), model(Enhanced(Prepared(docs))), store, dossierId, date)
  {
  }

  lemma RaisedIsReported(
    ids: seq<int>, data: StructuredData, reply: Attempt<Fields>, store: SynthesisStore,
    dossierId: string, date: string)
    requires reply.Raised?
    ensures Reported(ids, data, reply, store, dossierId, date) == Failed(ErrorMessageAsWritten(reply.error))
  {
  }

  /** As written, a validation error is reported as a data error, never with the validation prefix. */
  lemma ValidationErrorReportedAsDataError(m: string)
    ensures ErrorMessageAsWritten(ValidationError(m)) == DataErrorPrefix + m
    ensures !StartsWith(ErrorMessageAsWritten(ValidationError(m)), ValidationErrorPrefix)
  {
    assert DataErrorPrefix[10] != ValidationErrorPrefix[10];
    assert (DataErrorPrefix + m)[10] == DataErrorPrefix[10];
  }

  /** The handlers as intended tell the three kinds apart by their prefix. */
  lemma ErrorKindsDistinguished(e: PyError)
    ensures StartsWith(ErrorMessage(e), ValidationErrorPrefix) <==> e.ValidationError?
    ensures StartsWith(ErrorMessage(e), DataErrorPrefix) <==> e.ValueError?
    ensures ErrorMessage(e) == ErrorMessageAsWritten(e) <==> !e.ValidationError?
  {
    assert DataErrorPrefix[10] != ValidationErrorPrefix[10];
    assert GenerationErrorPrefix[7] != DataErrorPrefix[7];
    assert GenerationErrorPrefix[7] != ValidationErrorPrefix[7];
    var m := ErrorMessage(e);
    match e
    case ValueError(s) =>
      assert m[10] == DataErrorPrefix[10];
      assert m[..|DataErrorPrefix|] == DataErrorPrefix;
    case ValidationError(s) =>
      assert m[10] == ValidationErrorPrefix[10];
      assert m[..|ValidationErrorPrefix|] == ValidationErrorPrefix;
      assert ErrorMessageAsWritten(e)[10] == DataErrorPrefix[10];
    case OtherError(s) =>
      assert m[7] == GenerationErrorPrefix[7];
  }
}
