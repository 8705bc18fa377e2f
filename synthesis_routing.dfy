/**
 * The first stage of the financing synthesis: documents with their
 * extractions are sorted into the sections of the borrower's file, by
 * detected category first and by type name when the category says nothing.
 */
module SynthesisRouting {
  import opened Wrappers
  import opened Text
  import opened Values

  /** A stored document read back with its extraction. */
  datatype SourceDocument = SourceDocument(
    detectedType: string,
    filename: string,
    detectedCategory: Option<string>,
    extractedData: Value)

  /** The sections of the structured data that receive extractions. */
  datatype Bucket =
    | Emprunteur
    | Revenus
    | PatrimoineImmobilier
    | PatrimoineMobilier
    | Societes
    | Projet

  /** The structured data: five dictionaries keyed by type, the company list and the source labels. */
  datatype StructuredData = StructuredData(
    emprunteur: Fields,
    revenus: Fields,
    patrimoineImmobilier: Fields,
    patrimoineMobilier: Fields,
    societes: seq<Value>,
    projet: Fields,
    documentsSources: seq<string>)

  const EmptyData: StructuredData := StructuredData([], [], [], [], [], [], [])

  const NoDocumentsMessage: string :=
    "Aucun document trouvé ou aucun document avec des données d'extraction"

  /** The section a detected category sends a document to, if the category is one of the known ones. */
  function CategoryBucket(category: Option<string>): Option<Bucket> {
    match category
    case None => None
    case Some(c) =>
      if c in ["Associés", "Etat civil"] then Some(Emprunteur)
      else if c == "Revenus" then Some(Revenus)
      else if c == "Patrimoine immobilier" then Some(PatrimoineImmobilier)
      else if c in ["Banque et épargne", "Crédits et charges divers hors immobilier"] then Some(PatrimoineMobilier)
      else if c in ["Company", "Sociétés contrôlées"] then Some(Societes)
      else if c in ["Object", "Sale", "Works"] then Some(Projet)
      else None
  }

  const BorrowerTypes: seq<string> := [
    "CV(s) du(des) associés", "Carte d'identité(recto verso) ou Passeport",
    "Justificatif de domicile", "Livret de famille", "Contrat de mariage"]

  const RealEstateTypes: seq<string> := [
    "Dernière taxe foncière", "Attestation notariée d'acquisition indiquant le prix",
    "Bail", "Tableau d'amortissement du crédit immobilier", "Dernière déclaration 2044"]

  const CompanyTypes: seq<string> := [
    "Organigramme des sociétés de la société emprunteur", "PV d'AG autorisant la société à emprunter"]

  const ProjectTypes: seq<string> := [
    "Compromis de vente", "Bail ou projet de bail du bien objet de l'acquisition",
    "Arrêté du permis de construire"]

  /** Some word of `keywords` occurs in `lowered`. */
  predicate MentionsAny(lowered: string, keywords: seq<string>) {
    exists k :: k in keywords && Contains(lowered, k)
  }

  /** The section a type name sends a document to when its category is unknown. */
  function TypeBucket(docType: string): Bucket {
    var lowered := Lower(docType);
    if docType in BorrowerTypes then Emprunteur
    else if StartsWith(docType, "Avis d'imposition") then Revenus
    else if docType in RealEstateTypes then PatrimoineImmobilier
    else if StartsWith(docType, "Relevé de compte") || docType == "Dernier relevé d'épargne" then PatrimoineMobilier
    else if MentionsAny(lowered, ["société", "kbis", "statuts", "bilan", "liasses"]) || docType in CompanyTypes then Societes
    else if docType in ProjectTypes then Projet
    else if MentionsAny(lowered, ["ifi", "assurance vie"]) then PatrimoineMobilier
    else if MentionsAny(lowered, ["relevé", "épargne"]) then PatrimoineMobilier
    else if MentionsAny(lowered, ["synthese", "projet"]) then Projet
    else if MentionsAny(lowered, ["devis", "travaux"]) then Projet
    else if MentionsAny(lowered, ["compromis", "vente"]) then Projet
    else if MentionsAny(lowered, ["valeur", "estimation"]) then PatrimoineImmobilier
    else Emprunteur
  }

  /** Where a document with a non-empty extraction goes. */
  function Route(doc: SourceDocument): Bucket {
    match CategoryBucket(doc.detectedCategory)
    case Some(b) => b
    case None => TypeBucket(doc.detectedType)
  }

  /** `f"{type} ({filename})"`. */
  function SourceLabel(doc: SourceDocument): string {
    doc.detectedType + " (" + doc.filename + ")"
  }

  function CategoryValue(category: Option<string>): Value {
    match category
    case None => Null
    case Some(c) => Str(c)
  }

  /** The entry appended to the company list. */
  function CompanyEntry(doc: SourceDocument): Value {
    Dict([("type", Str(doc.detectedType)), ("data", doc.extractedData),
          ("category", CategoryValue(doc.detectedCategory))])
  }

  /** The dictionary of a section other than the company list. */
  function Section(data: StructuredData, b: Bucket): Fields
    requires b != Societes
  {
    match b
    case Emprunteur => data.emprunteur
    case Revenus => data.revenus
    case PatrimoineImmobilier => data.patrimoineImmobilier
    case PatrimoineMobilier => data.patrimoineMobilier
    case Projet => data.projet
  }

  /** One pass of the loop over the documents. */
  function Place(data: StructuredData, doc: SourceDocument): StructuredData {
    var labelled := data.(documentsSources := data.documentsSources + [SourceLabel(doc)]);
    var t := doc.detectedType;
    var x := doc.extractedData;
    if !Truthy(x) then labelled
    else match Route(doc)
      case Emprunteur => labelled.(emprunteur := Put(labelled.emprunteur, t, x))
      case Revenus => labelled.(revenus := Put(labelled.revenus, t, x))
      case PatrimoineImmobilier => labelled.(patrimoineImmobilier := Put(labelled.patrimoineImmobilier, t, x))
      case PatrimoineMobilier => labelled.(patrimoineMobilier := Put(labelled.patrimoineMobilier, t, x))
      case Societes => labelled.(societes := labelled.societes + [CompanyEntry(doc)])
      case Projet => labelled.(projet := Put(labelled.projet, t, x))
  }

  /** The structured data after the loop has seen `docs`, in order. */
  function Prepared(docs: seq<SourceDocument>): StructuredData
    decreases |docs|
  {
    if |docs| == 0 then EmptyData else Place(Prepared(docs[..|docs| - 1]), docs[|docs| - 1])
  }

  /** The source labels of all the documents, in order. */
  function SourceLabels(docs: seq<SourceDocument>): (r: seq<string>)
    ensures |r| == |docs| && forall i :: 0 <= i < |docs| ==> r[i] == SourceLabel(docs[i])
  {
    seq(|docs|, i requires 0 <= i < |docs| => SourceLabel(docs[i]))
  }

  /** The company entries of the documents routed to the company list, in order. */
  function CompanyEntries(docs: seq<SourceDocument>): seq<Value>
    decreases |docs|
  {
    if |docs| == 0 then []
    else
      var d := docs[|docs| - 1];
      CompanyEntries(docs[..|docs| - 1]) + if Truthy(d.extractedData) && Route(d) == Societes then [CompanyEntry(d)] else []
  }

  /** The extraction of the last document of type `t` routed to section `b`. */
  function LastRouted(docs: seq<SourceDocument>, b: Bucket, t: string): Option<Value>
    decreases |docs|
  {
    if |docs| == 0 then None
    else
      var d := docs[|docs| - 1];
      if Truthy(d.extractedData) && Route(d) == b && d.detectedType == t then Some(d.extractedData)
      else LastRouted(docs[..|docs| - 1], b, t)
  }

  /**
   * `_prepare_documents_data` on the documents already fetched: an empty list
   * is an error; otherwise every document is labelled and each non-empty
   * extraction is filed in its section.
   */
  method PrepareDocumentsData(documents: seq<SourceDocument>) returns (r: Result<StructuredData>)
    ensures |documents| == 0 ==> r == Err(NoDocumentsMessage)
    ensures |documents| > 0 ==> r == Ok(Prepared(documents))
  {
    if |documents| == 0 {
      return Err(NoDocumentsMessage);
    }
    var data := EmptyData;
    for i := 0 to |documents|
      invariant data == Prepared(documents[..i])
    {
      assert documents[..i + 1][..i] == documents[..i];
      var doc := documents[i];
      data := data.(documentsSources := data.documentsSources + [SourceLabel(doc)]);
      var extraction := doc.extractedData;
      if !Truthy(extraction) {
        continue;
      }
      var docType := doc.detectedType;
      match Route(doc) {
        case Emprunteur => data := data.(emprunteur := Put(data.emprunteur, docType, extraction));
        case Revenus => data := data.(revenus := Put(data.revenus, docType, extraction));
        case PatrimoineImmobilier =>
          data := data.(patrimoineImmobilier := Put(data.patrimoineImmobilier, docType, extraction));
        case PatrimoineMobilier =>
          data := data.(patrimoineMobilier := Put(data.patrimoineMobilier, docType, extraction));
        case Societes => data := data.(societes := data.societes + [CompanyEntry(doc)]);
        case Projet => data := data.(projet := Put(data.projet, docType, extraction));
      }
    }
    assert documents[..|documents|] == documents;
    r := Ok(data);
  }

  /** Every document, even one with an empty extraction, is listed as a source, in order. */
  lemma {:induction false} SourcesListEveryDocument(docs: seq<SourceDocument>)
    ensures Prepared(docs).documentsSources == SourceLabels(docs)
    decreases |docs|
  {
    if |docs| > 0 {
      var init, last := docs[..|docs| - 1], docs[|docs| - 1];
      SourcesListEveryDocument(init);
      PlaceAddsLabel(Prepared(init), last);
      assert SourceLabels(docs) == SourceLabels(init) + [SourceLabel(last)];
    }
  }

  lemma PlaceAddsLabel(data: StructuredData, doc: SourceDocument)
    ensures Place(data, doc).documentsSources == data.documentsSources + [SourceLabel(doc)]
  {
  }

  /** The company list holds the company documents with non-empty extractions, in document order. */
  lemma {:induction false} CompaniesInDocumentOrder(docs: seq<SourceDocument>)
    ensures Prepared(docs).societes == CompanyEntries(docs)
    decreases |docs|
  {
    if |docs| > 0 {
      CompaniesInDocumentOrder(docs[..|docs| - 1]);
    }
  }

  /**
   * In every section keyed by type, the entry for `t` is the extraction of
   * the last document of that type routed there: a later document of the
   * same type overwrites an earlier one.
   */
  lemma {:induction false} SectionHoldsLastRouted(docs: seq<SourceDocument>, b: Bucket, t: string)
    requires b != Societes
    ensures Get(Section(Prepared(docs), b), t) == LastRouted(docs, b, t)
    decreases |docs|
  {
    if |docs| > 0 {
      var init := docs[..|docs| - 1];
      var d := docs[|docs| - 1];
      SectionHoldsLastRouted(init, b, t);
      if Truthy(d.extractedData) && Route(d) == b {
        var before := Section(Prepared(init), b);
        assert Section(Prepared(docs), b) == Put(before, d.detectedType, d.extractedData);
        if d.detectedType == t {
          PutGetSame(before, t, d.extractedData);
        } else {
          PutGetOther(before, d.detectedType, d.extractedData, t);
        }
      } else {
        assert Section(Prepared(docs), b) == Section(Prepared(init), b);
      }
    }
  }

  /** A known category decides the section whatever the type name says. */
  lemma CategoryTakesPrecedence(doc: SourceDocument)
    requires CategoryBucket(doc.detectedCategory).Some?
    ensures Route(doc) == CategoryBucket(doc.detectedCategory).value
  {
  }

  /** A tax notice detected in the partners' category goes to the borrower, not to the income section. */
  lemma TaxNoticeOfPartnerGoesToBorrower(filename: string, x: Value)
    ensures Route(SourceDocument("Avis d'imposition T+N-1", filename, Some("Associés"), x)) == Emprunteur
    ensures Route(SourceDocument("Avis d'imposition T+N-1", filename, None, x)) == Revenus
  {
    assert StartsWith("Avis d'imposition T+N-1", "Avis d'imposition");
  }
}
