/**
 * `WordDocumentGenerator`: the financing card rendered as a Word document.
 * The python-docx document is an append-only sequence of blocks (title and
 * headings with their level, paragraphs, table rows). Which blocks appear,
 * and in what order, depends only on the synthesis dictionary; a section
 * that is not a dictionary makes the generation fail with Python's message.
 * Writing the file and registering it in the database are one parameter.
 */
module WordReport {
  import opened Wrappers
  import opened Text
  import opened Values

  datatype Block =
    | Heading(level: nat, text: string)
    | Paragraph(text: string)
    | TableRow(cells: seq<string>)

  /** One labelled line: the label printed before " : " and the key read with `_safe_get`. */
  type Label = (string, string)

  // ---------------------------------------------------------------------
  // `_safe_get`

  /** `_safe_get(data, key)`: the string form of the value, or "Non spécifié" when it is missing, None or "". */
  function SafeGet(data: Fields, key: string): (r: string)
    ensures r != ""
    ensures !HasKey(data, key) ==> r == NotSpecified
  {
    var v := GetOr(data, key, Str(NotSpecified));
    if v == Null || v == Str("") then NotSpecified else PyStr(v)
  }

  /**
   * `_safe_get` prints "Non spécifié" exactly when the key is missing, holds
   * None or "", or already holds the sentinel; otherwise it prints the value.
   */
  lemma SafeGetNotSpecifiedIff(data: Fields, key: string)
    ensures SafeGet(data, key) == NotSpecified <==>
      (!HasKey(data, key) || Get(data, key).value in {Null, Str(""), Str(NotSpecified)})
    ensures HasKey(data, key) && Get(data, key).value !in {Null, Str("")} ==>
      SafeGet(data, key) == PyStr(Get(data, key).value)
  {
    if HasKey(data, key) {
      var v := Get(data, key).value;
      if !v.Str? && v != Null {
        ReprNotSentinel(v);
      }
    }
  }

  lemma {:induction false} NatToStringLeadingDigit(n: nat)
    ensures '0' <= NatToString(n)[0] <= '9'
    decreases n
  {
    if n >= 10 {
      NatToStringLeadingDigit(n / 10);
    }
  }

  /** No value other than the sentinel string prints as the sentinel. */
  lemma ReprNotSentinel(v: Value)
    requires !v.Str?
    ensures Repr(v) != NotSpecified
  {
    assert NotSpecified[0] == 'N' && |NotSpecified| == 12;
    match v
    case Int(i) =>
      if i < 0 {
        assert Repr(v)[0] == '-';
      } else {
        NatToStringLeadingDigit(i);
      }
    case List(_) => assert Repr(v)[0] == '[';
    case Dict(_) => assert Repr(v)[0] == '{';
    case _ =>
  }

  // ---------------------------------------------------------------------
  // The fixed text of the card

  /** The titles and the labelled lines of the card. */
  datatype Layout = Layout(
    title: string,
    projectTitle: string, profileTitle: string, incomeTitle: string, realEstateTitle: string,
    movableTitle: string, companiesTitle: string, planTitle: string, analysisTitle: string,
    sourcesTitle: string, footer: string,
    projectLabels: seq<Label>, identityLabels: seq<Label>, familyLabels: seq<Label>,
    addressLabels: seq<Label>, incomeLabels: seq<Label>, realEstateLabels: seq<Label>,
    movableLabels: seq<Label>, companyLabels: seq<Label>, planLabels: seq<Label>,
    tableItems: seq<Label>, analysisLabels: seq<Label>)

  /** The card as `generate_word_document` writes it. */
  function CardLayout(): Layout {
    Layout(
      "CARTE DE FINANCEMENT",
      "1. SYNTHÈSE DU PROJET", "2. PROFIL EMPRUNTEUR", "3. REVENUS", "4. PATRIMOINE IMMOBILIER",
      "5. PATRIMOINE MOBILIER", "6. SOCIÉTÉS", "7. PLAN DE FINANCEMENT", "8. ANALYSE FINANCIÈRE",
      "DOCUMENTS SOURCES", "Document généré automatiquement par le système de Carte Financement",
      ProjectLabels(), IdentityLabels(), FamilyLabels(), AddressLabels(), IncomeLabels(), RealEstateLabels(),
      MovableLabels(), CompanyLabels(), PlanLabels(), TableItems(), AnalysisLabels())
  }

  /** Section 1. */
  function ProjectLabels(): seq<Label> {
    [("Description", "description"), ("Objectif", "objectif_financement"), ("Lieu", "lieu"),
      ("Montant total", "montant_total"), ("Durée", "duree"), ("Garanties", "garanties")]
  }

  /** The identity sub-section of section 2. */
  function IdentityLabels(): seq<Label> {
    [("Civilité", "civilite"), ("Nom", "nom"), ("Prénoms", "prenoms"),
      ("Date de naissance", "date_naissance"), ("Lieu de naissance", "lieu_naissance"),
      ("Nationalité", "nationalite"), ("Profession", "profession"), ("Email", "email"),
      ("Téléphone", "telephone")]
  }

  /** The family sub-section of section 2, after the situation line. */
  function FamilyLabels(): seq<Label> {
    [("Régime matrimonial", "regime_matrimonial"), ("Enfants à charge", "enfants_a_charge")]
  }

  /** The address sub-section of section 2. */
  function AddressLabels(): seq<Label> {
    [("Numéro voie", "numero_voie"), ("Nom voie", "nom_voie"), ("Code postal", "code_postal"),
      ("Ville", "ville"), ("Pays", "pays")]
  }

  /** Section 3. */
  function IncomeLabels(): seq<Label> {
    [("Revenus annuels moyens", "revenus_annuels_moyens"), ("Dernier revenu fiscal", "dernier_revenu_fiscal"),
      ("Revenus mensuels", "revenus_mensuels"), ("Bonus et primes", "bonus_primes"),
      ("Revenus fonciers", "revenus_fonciers"), ("Autres revenus", "autres_revenus")]
  }

  /** Section 4. */
  function RealEstateLabels(): seq<Label> {
    [("Biens immobiliers", "biens_immobiliers"), ("Valeur estimée totale", "valeur_estimee_totale"),
      ("Crédits restants dus", "credits_restants_dus"), ("Loyers perçus annuels", "loyers_percus_annuels"),
      ("Patrimoine net immobilier", "patrimoine_net_immobilier")]
  }

  /** Section 5. */
  function MovableLabels(): seq<Label> {
    [("Comptes bancaires", "comptes_bancaires"), ("Épargne financière", "epargne_financiere"),
      ("Assurance-vie", "assurance_vie"), ("Autres investissements", "autres_investissements"),
      ("Patrimoine mobilier total", "patrimoine_mobilier_total")]
  }

  /** Each company of section 6, after its numbered heading. */
  function CompanyLabels(): seq<Label> {
    [("Forme juridique", "forme_juridique"), ("Pourcentage de détention", "pourcentage_detention"),
      ("Chiffre d'affaires N-1", "chiffre_affaires_n1"), ("Résultat net N-1", "resultat_net_n1"),
      ("Dettes totales", "dettes_totales"), ("Fonds propres", "fonds_propres"), ("Activité", "activite")]
  }

  /** The labelled lines of section 7. */
  function PlanLabels(): seq<Label> {
    [("Apport personnel", "apport_personnel"), ("Prêt sollicité", "pret_sollicite"),
      ("Durée du prêt", "duration_pret"), ("Taux estimé", "taux_estime"),
      ("Mensualité estimée", "mensualite_estimee"), ("Garanties prévues", "garanties_prevues"),
      ("Autres financements", "autres_financements")]
  }

  /** The rows of the financing table. */
  function TableItems(): seq<Label> {
    [("Apport personnel", "apport_personnel"), ("Prêt sollicité", "pret_sollicite"),
      ("Autres financements", "autres_financements")]
  }

  /** Section 8. */
  function AnalysisLabels(): seq<Label> {
    [("Capacité d'emprunt", "capacite_emprunt"), ("Ratio d'endettement", "ratio_endettement"),
      ("Patrimoine net total", "patrimoine_net_total"), ("Ratio patrimoine/emprunt", "ratio_patrimoine_emprunt"),
      ("Recommandation", "recommandation")]
  }

  const DocumentKind: string := "Carte de Financement (.docx)"
  const WordSuccessMessage: string := "Document Word généré avec succès"
  const WordErrorPrefix: string := "Erreur lors de la génération du document Word: "

  /** The line of 80 underscores that separates header and footer. */
  function Rule(): (r: string)
    ensures |r| == 80 && forall i :: 0 <= i < 80 ==> r[i] == '_'
  {
    seq(80, _ => '_')
  }

  // ---------------------------------------------------------------------
  // Putting parts together

  /** The blocks so far followed by those of the next part; the first failure wins. */
  function Then(a: Result<seq<Block>>, b: Result<seq<Block>>): Result<seq<Block>> {
    if a.Err? then a else if b.Err? then b else Ok(a.value + b.value)
  }

  /** Parts written one after the other: their blocks in order, or the first part's failure. */
  function Assemble(parts: seq<Result<seq<Block>>>): Result<seq<Block>>
    decreases |parts|
  {
    if |parts| == 0 then Ok([]) else Then(Assemble(parts[..|parts| - 1]), parts[|parts| - 1])
  }

  // ---------------------------------------------------------------------
  // The parts of the document

  /** The paragraph "label : value" of one label. */
  function Line(f: Fields, item: Label): Block {
    Paragraph(item.0 + " : " + SafeGet(f, item.1))
  }

  /** One paragraph "label : value" per label, in order. */
  function Lines(f: Fields, labels: seq<Label>): (r: seq<Block>)
    ensures |r| == |labels|
    ensures forall j :: 0 <= j < |r| ==> r[j] == Line(f, labels[j])
    decreases |labels|
  {
    if |labels| == 0 then [] else Lines(f, labels[..|labels| - 1]) + [Line(f, labels[|labels| - 1])]
  }

  /** A top-level section of the synthesis: `synthese_data.get(key, {})`. */
  function SectionValue(data: Fields, key: string): Value {
    GetOr(data, key, Dict([]))
  }

  /** The "generated on" text: the card's own date when it has one, else the clock's. */
  function GeneratedOn(data: Fields, now: string): string {
    match Get(data, "date_generation")
    case None => now
    case Some(v) => PyStr(v)
  }

  function HeaderPart(layout: Layout, data: Fields, dossierId: string, now: string): seq<Block> {
    [Heading(0, layout.title), Paragraph(""), Paragraph("Dossier n° : " + dossierId),
     Paragraph("Généré le : " + GeneratedOn(data, now)), Paragraph(Rule()), Paragraph("")]
  }

  function FooterPart(layout: Layout): seq<Block> {
    [Paragraph(""), Paragraph(Rule()), Paragraph(layout.footer)]
  }

  /** The blocks of a section left empty: its heading, then "Non spécifié". */
  function Unspecified(title: string): seq<Block> {
    [Heading(1, title), Paragraph(NotSpecified), Paragraph("")]
  }

  /** Sections 1, 3, 4 and 5: the labelled lines of a dictionary. */
  function FieldPart(title: string, v: Value, labels: seq<Label>): Result<seq<Block>> {
    if !Truthy(v) then Ok(Unspecified(title))
    else if v.Dict? then Ok([Heading(1, title)] + Lines(v.fields, labels) + [Paragraph("")])
    else Err(NoGetMessage(v))
  }

  function IdentityBlocks(labels: seq<Label>, identity: Value): seq<Block> {
    if Truthy(identity) && identity.Dict? then [Heading(2, "Identité")] + Lines(identity.fields, labels) else []
  }

  function FamilyBlocks(labels: seq<Label>, profile: Fields): seq<Block> {
    var situation := SafeGet(profile, "situation_familiale");
    if situation != NotSpecified then
      [Heading(2, "Situation familiale")] + [Paragraph("Situation : " + situation)] + Lines(profile, labels)
    else []
  }

  function AddressBlocks(labels: seq<Label>, address: Value): seq<Block> {
    if Truthy(address) && address.Dict? then [Heading(2, "Adresse")] + Lines(address.fields, labels) else []
  }

  /** Section 2: identity, family situation and address, each only when present. */
  function ProfilePart(layout: Layout, v: Value): Result<seq<Block>> {
    if !Truthy(v) then Ok(Unspecified(layout.profileTitle))
    else if !v.Dict? then Err(NoGetMessage(v))
    else
      var identity := GetOr(v.fields, "identite", Dict([]));
      if Truthy(identity) && !identity.Dict? then Err(NoGetMessage(identity))
      else Ok([Heading(1, layout.profileTitle)] + IdentityBlocks(layout.identityLabels, identity)
              + FamilyBlocks(layout.familyLabels, v.fields)
              + AddressBlocks(layout.addressLabels, GetOr(v.fields, "adresse", Null)) + [Paragraph("")])
  }

  /** The heading of company number `n` (counting from 1). */
  function CompanyHeading(company: Fields, n: nat): Block {
    Heading(2, "6." + NatToString(n) + " " + SafeGet(company, "raison_sociale"))
  }

  function CompanyEntry(labels: seq<Label>, company: Value, n: nat): Result<seq<Block>> {
    if company.Dict? then Ok([CompanyHeading(company.fields, n)] + Lines(company.fields, labels) + [Paragraph("")])
    else Err(NoGetMessage(company))
  }

  /** The companies of a list, numbered from 1 in list order. */
  function CompanyParts(labels: seq<Label>, companies: seq<Value>): seq<Result<seq<Block>>> {
    seq(|companies|, i requires 0 <= i < |companies| => CompanyEntry(labels, companies[i], i + 1))
  }

  /** Section 6. A non-empty dictionary or string is iterated into strings, which have no `.get`. */
  function CompaniesPart(layout: Layout, v: Value): Result<seq<Block>> {
    if !Truthy(v) then Ok(Unspecified(layout.companiesTitle))
    else match v
      case List(items) => Then(Ok([Heading(1, layout.companiesTitle)]), Assemble(CompanyParts(layout.companyLabels, items)))
      case Dict(_) => Err(NoGetMessage(Str("")))
      case Str(_) => Err(NoGetMessage(Str("")))
      case _ => Err(NotIterableMessage(v))
  }

  /**
   * What python-docx writes for one item of the text it iterates: an item that
   * `"\r\n"` contains (the empty string, "\r", "\n" or "\r\n") is a line
   * break, written "\n" when it is not a single character; an item that is not
   * a string fails that containment test.
   */
  function ItemText(item: Value): Result<string> {
    if !item.Str? then Err(NotInStringMessage(item))
    else if item.s == "" || item.s == "\r\n" then Ok("\n")
    else Ok(item.s)
  }

  /** The items' texts one after another; the first item that is not a string raises. */
  function ItemsText(items: seq<Value>): Result<string>
    decreases |items|
  {
    if |items| == 0 then Ok("")
    else match ItemText(items[0])
      case Err(m) => Err(m)
      case Ok(t) =>
        match ItemsText(items[1..])
        case Ok(rest) => Ok(t + rest)
        case Err(m) => Err(m)
  }

  /** The string values of `names`, in order. */
  function Strs(names: seq<string>): seq<Value> {
    seq(|names|, i requires 0 <= i < |names| => Str(names[i]))
  }

  /**
   * The text python-docx writes for a value given as a paragraph's or a cell's
   * text. It iterates the value: a string gives its characters, a list its
   * items and a dictionary its keys; any other value is not iterable.
   */
  function WrittenText(v: Value): Result<string> {
    match v
    case Str(s) => Ok(s)
    case List(items) => ItemsText(items)
    case Dict(m) => ItemsText(Strs(Keys(m)))
    case _ => Err(NotIterableMessage(v))
  }

  /** The raw amount of a table row: `plan.get(key, 'Non spécifié')`. */
  function Amount(plan: Fields, key: string): Value {
    GetOr(plan, key, Str(NotSpecified))
  }

  function TableRowOf(plan: Fields, item: Label): Result<seq<Block>> {
    match WrittenText(Amount(plan, item.1))
    case Ok(amount) => Ok([TableRow([item.0, amount])])
    case Err(m) => Err(m)
  }

  /** The rows of the financing table after its header, in the order of `items`. */
  function TableParts(plan: Fields, items: seq<Label>): seq<Result<seq<Block>>> {
    seq(|items|, i requires 0 <= i < |items| => TableRowOf(plan, items[i]))
  }

  const TableHeader: seq<string> := ["POSTE", "MONTANT"]

  /** The labelled lines of section 7 and the header row of its table. */
  function PlanHead(layout: Layout, plan: Fields): seq<Block> {
    [Heading(1, layout.planTitle)] + Lines(plan, layout.planLabels) + [Paragraph("")] + [TableRow(TableHeader)]
  }

  /** Section 7: the labelled lines, then the POSTE/MONTANT table. */
  function PlanPart(layout: Layout, v: Value): Result<seq<Block>> {
    if !Truthy(v) then Ok(Unspecified(layout.planTitle))
    else if !v.Dict? then Err(NoGetMessage(v))
    else Then(Then(Ok(PlanHead(layout, v.fields)), Assemble(TableParts(v.fields, layout.tableItems))), Ok([Paragraph("")]))
  }

  /** A "Points forts"/"Points de vigilance" block, shown only for a truthy value other than "Non spécifié". */
  function PointsBlocks(title: string, v: Value): seq<Block> {
    if Truthy(v) && v != Str(NotSpecified) then [Heading(2, title)] + [Paragraph(PyStr(v))] else []
  }

  /** Section 8. */
  function AnalysisPart(layout: Layout, v: Value): Result<seq<Block>> {
    if !Truthy(v) then Ok(Unspecified(layout.analysisTitle))
    else if !v.Dict? then Err(NoGetMessage(v))
    else Ok([Heading(1, layout.analysisTitle)] + Lines(v.fields, layout.analysisLabels)
            + PointsBlocks("Points forts", GetOr(v.fields, "points_forts", Str(NotSpecified)))
            + PointsBlocks("Points de vigilance", GetOr(v.fields, "points_vigilance", Str(NotSpecified)))
            + [Paragraph("")])
  }

  /** The sources paragraph, written only when the list of sources is not empty. */
  function SourcesPart(title: string, v: Value): Result<seq<Block>> {
    if !Truthy(v) then Ok([Heading(1, title)])
    else match WrittenText(v)
      case Ok(s) => Ok([Heading(1, title), Paragraph(s)])
      case Err(m) => Err(m)
  }

  /** Sections 1 to 5. */
  function FirstSections(layout: Layout, data: Fields): Result<seq<Block>> {
    var project := FieldPart(layout.projectTitle, SectionValue(data, "synthese_projet"), layout.projectLabels);
    var profile := Then(project, ProfilePart(layout, SectionValue(data, "profil_emprunteur")));
    var income := Then(profile, FieldPart(layout.incomeTitle, SectionValue(data, "revenus"), layout.incomeLabels));
    var realEstate := Then(income, FieldPart(layout.realEstateTitle, SectionValue(data, "patrimoine_immobilier"), layout.realEstateLabels));
    Then(realEstate, FieldPart(layout.movableTitle, SectionValue(data, "patrimoine_mobilier"), layout.movableLabels))
  }

  /** Sections 6 to 8 and the sources. */
  function LastSections(layout: Layout, data: Fields): Result<seq<Block>> {
    var companies := CompaniesPart(layout, GetOr(data, "societes", List([])));
    var plan := Then(companies, PlanPart(layout, SectionValue(data, "plan_financement")));
    var analysis := Then(plan, AnalysisPart(layout, SectionValue(data, "analyse_financiere")));
    Then(analysis, SourcesPart(layout.sourcesTitle, GetOr(data, "documents_sources", Str(""))))
  }

  /** The whole document in the order the generator writes it, or the message of the first exception. */
  function ReportBlocks(layout: Layout, data: Fields, dossierId: string, now: string): Result<seq<Block>> {
    Then(Then(Then(Ok(HeaderPart(layout, data, dossierId, now)), FirstSections(layout, data)),
      LastSections(layout, data)), Ok(FooterPart(layout)))
  }

  // ---------------------------------------------------------------------
  // Outcome

  /** The row `insert_document_genere` receives, with the document written to `filePath`. */
  datatype WordRecord = WordRecord(
    dossierId: string,
    typeDocument: string,
    filePath: string,
    fileName: string,
    generatedFrom: string,
    blocks: seq<Block>)

  /** Saving the document and registering it: the new row id or the exception's message. */
  type WordStore = WordRecord -> Result<int>

  datatype WordOutcome =
    | WordGenerated(documentGenereId: int, filePath: string, fileName: string, dossierId: string, message: string)
    | WordFailed(error: string)

  function FileName(dossierId: string): string {
    "Carte_Financement_" + dossierId + ".docx"
  }

  /** `name.split("/")`: the text between the slashes, empty where two slashes meet. */
  function PathSegments(name: string): (r: seq<string>)
    ensures |r| >= 1
    decreases |name|
  {
    if |name| == 0 then [""]
    else
      var rest := PathSegments(name[1..]);
      if name[0] == '/' then [""] + rest else [[name[0]] + rest[0]] + rest[1..]
  }

  /** The segments `pathlib` keeps of a relative name: empty and "." segments are dropped, ".." is kept. */
  function KeptSegments(segments: seq<string>): seq<string>
    decreases |segments|
  {
    if |segments| == 0 then []
    else (if segments[0] == "" || segments[0] == "." then [] else [segments[0]]) + KeptSegments(segments[1..])
  }

  /**
   * `str(self.output_dir / file_name)` on a `Path`: the file name, which never
   * starts with `/`, is cut at its slashes, its empty and "." segments are
   * dropped, and what is left is joined under the directory.
   */
  function FilePath(outputDir: string, dossierId: string): string {
    outputDir + "/" + Join(KeptSegments(PathSegments(FileName(dossierId))), "/")
  }

  function RecordOf(outputDir: string, data: Fields, dossierId: string, blocks: seq<Block>): WordRecord {
    WordRecord(dossierId, DocumentKind, FilePath(outputDir, dossierId), FileName(dossierId),
      "Synthèse générée le " + PyStr(GetOr(data, "date_generation", Str(""))), blocks)
  }

  function WordOutcomeOf(layout: Layout, outputDir: string, data: Fields, dossierId: string, now: string, store: WordStore): WordOutcome {
    match ReportBlocks(layout, data, dossierId, now)
    case Err(m) => WordFailed(WordErrorPrefix + m)
    case Ok(blocks) =>
      match store(RecordOf(outputDir, data, dossierId, blocks))
      case Err(m) => WordFailed(WordErrorPrefix + m)
      case Ok(id) => WordGenerated(id, FilePath(outputDir, dossierId), FileName(dossierId), dossierId, WordSuccessMessage)
  }

  // ---------------------------------------------------------------------
  // The document and the generator

  /** A python-docx document: blocks are only ever appended. */
  class Document {
    var blocks: seq<Block>

    constructor()
      ensures blocks == []
    {
      blocks := [];
    }

    method AddHeading(text: string, level: nat)
      modifies this
      ensures blocks == old(blocks) + [Heading(level, text)]
    {
      blocks := blocks + [Heading(level, text)];
    }

    method AddParagraph(text: string)
      modifies this
      ensures blocks == old(blocks) + [Paragraph(text)]
    {
      blocks := blocks + [Paragraph(text)];
    }

    method AddRow(cells: seq<string>)
      modifies this
      ensures blocks == old(blocks) + [TableRow(cells)]
    {
      blocks := blocks + [TableRow(cells)];
    }
  }

  /** A part was written: on success its blocks were appended, on failure its message is reported. */
  predicate Wrote(part: Result<seq<Block>>, before: seq<Block>, after: seq<Block>, err: Option<string>) {
    match part
    case Ok(b) => err == None && after == before + b
    case Err(m) => err == Some(m)
  }

  class WordDocumentGenerator {
    const outputDir: string
    const layout: Layout

    /** `__init__`: documents go to `generated_documents`. */
    constructor()
      ensures outputDir == "generated_documents" && layout == CardLayout()
    {
      outputDir := "generated_documents";
      layout := CardLayout();
    }

    static method AddLines(doc: Document, f: Fields, labels: seq<Label>)
      modifies doc
      ensures doc.blocks == old(doc.blocks) + Lines(f, labels)
    {
      for i := 0 to |labels|
        invariant doc.blocks == old(doc.blocks) + Lines(f, labels[..i])
      {
        assert labels[..i + 1][..i] == labels[..i];
        doc.AddParagraph(labels[i].0 + " : " + SafeGet(f, labels[i].1));
      }
      assert labels[..|labels|] == labels;
    }

    static method AddUnspecified(doc: Document, title: string)
      modifies doc
      ensures doc.blocks == old(doc.blocks) + Unspecified(title)
    {
      doc.AddHeading(title, 1);
      doc.AddParagraph(NotSpecified);
      doc.AddParagraph("");
    }

    static method AddFieldSection(doc: Document, title: string, v: Value, labels: seq<Label>) returns (err: Option<string>)
      modifies doc
      ensures Wrote(FieldPart(title, v, labels), old(doc.blocks), doc.blocks, err)
    {
      if !Truthy(v) {
        AddUnspecified(doc, title);
        return None;
      }
      if !v.Dict? {
        doc.AddHeading(title, 1);
        return Some(NoGetMessage(v));
      }
      ghost var start := doc.blocks;
      doc.AddHeading(title, 1);
      AddLines(doc, v.fields, labels);
      doc.AddParagraph("");
      Append3(start, [Heading(1, title)], Lines(v.fields, labels), [Paragraph("")]);
      err := None;
    }

    static method AddIdentity(doc: Document, labels: seq<Label>, identity: Value)
      requires Truthy(identity) ==> identity.Dict?
      modifies doc
      ensures doc.blocks == old(doc.blocks) + IdentityBlocks(labels, identity)
    {
      if Truthy(identity) {
        ghost var start := doc.blocks;
        doc.AddHeading("Identité", 2);
        AddLines(doc, identity.fields, labels);
        Append2(start, [Heading(2, "Identité")], Lines(identity.fields, labels));
      }
    }

    static method AddFamily(doc: Document, labels: seq<Label>, profile: Fields)
      modifies doc
      ensures doc.blocks == old(doc.blocks) + FamilyBlocks(labels, profile)
    {
      var situation := SafeGet(profile, "situation_familiale");
      if situation != NotSpecified {
        ghost var start := doc.blocks;
        doc.AddHeading("Situation familiale", 2);
        doc.AddParagraph("Situation : " + situation);
        AddLines(doc, profile, labels);
        Append3(start, [Heading(2, "Situation familiale")], [Paragraph("Situation : " + situation)], Lines(profile, labels));
      }
    }

    static method AddAddress(doc: Document, labels: seq<Label>, address: Value)
      modifies doc
      ensures doc.blocks == old(doc.blocks) + AddressBlocks(labels, address)
    {
      if Truthy(address) && address.Dict? {
        ghost var start := doc.blocks;
        doc.AddHeading("Adresse", 2);
        AddLines(doc, address.fields, labels);
        Append2(start, [Heading(2, "Adresse")], Lines(address.fields, labels));
      }
    }

    static method AddProfile(doc: Document, layout: Layout, v: Value) returns (err: Option<string>)
      modifies doc
      ensures Wrote(ProfilePart(layout, v), old(doc.blocks), doc.blocks, err)
    {
      if !Truthy(v) {
        AddUnspecified(doc, layout.profileTitle);
        return None;
      }
      doc.AddHeading(layout.profileTitle, 1);
      if !v.Dict? {
        return Some(NoGetMessage(v));
      }
      var identity := GetOr(v.fields, "identite", Dict([]));
      if Truthy(identity) && !identity.Dict? {
        return Some(NoGetMessage(identity));
      }
      ghost var start := old(doc.blocks);
      AddIdentity(doc, layout.identityLabels, identity);
      AddFamily(doc, layout.familyLabels, v.fields);
      var address := GetOr(v.fields, "adresse", Null);
      AddAddress(doc, layout.addressLabels, address);
      doc.AddParagraph("");
      Append5(start, [Heading(1, layout.profileTitle)], IdentityBlocks(layout.identityLabels, identity),
        FamilyBlocks(layout.familyLabels, v.fields), AddressBlocks(layout.addressLabels, address), [Paragraph("")]);
      err := None;
    }

    static method AddCompany(doc: Document, labels: seq<Label>, company: Value, n: nat) returns (err: Option<string>)
      modifies doc
      ensures Wrote(CompanyEntry(labels, company, n), old(doc.blocks), doc.blocks, err)
    {
      if !company.Dict? {
        return Some(NoGetMessage(company));
      }
      ghost var start := doc.blocks;
      doc.AddHeading("6." + NatToString(n) + " " + SafeGet(company.fields, "raison_sociale"), 2);
      AddLines(doc, company.fields, labels);
      doc.AddParagraph("");
      Append3(start, [CompanyHeading(company.fields, n)], Lines(company.fields, labels), [Paragraph("")]);
      err := None;
    }

    static method AddCompanyList(doc: Document, labels: seq<Label>, items: seq<Value>) returns (err: Option<string>)
      modifies doc
      ensures Wrote(Assemble(CompanyParts(labels, items)), old(doc.blocks), doc.blocks, err)
    {
      ghost var parts := CompanyParts(labels, items);
      ghost var start := doc.blocks;
      ghost var written: seq<Block> := [];
      for i := 0 to |items|
        invariant Assemble(parts[..i]) == Ok(written)
        invariant doc.blocks == start + written
      {
        ghost var before := written;
        err := AddCompany(doc, labels, items[i], i + 1);
        if err.Some? {
          AssembleStops(parts, i, before);
          return;
        }
        AssembleNext(parts, i, before);
        Append2(start, before, parts[i].value);
        written := before + parts[i].value;
      }
      assert parts[..|items|] == parts;
      err := None;
    }

    static method AddCompanies(doc: Document, layout: Layout, v: Value) returns (err: Option<string>)
      modifies doc
      ensures Wrote(CompaniesPart(layout, v), old(doc.blocks), doc.blocks, err)
    {
      if !Truthy(v) {
        AddUnspecified(doc, layout.companiesTitle);
        return None;
      }
      ghost var start := doc.blocks;
      doc.AddHeading(layout.companiesTitle, 1);
      if v.Dict? || v.Str? {
        return Some(NoGetMessage(Str("")));
      }
      if !v.List? {
        return Some(NotIterableMessage(v));
      }
      ghost var mid := doc.blocks;
      err := AddCompanyList(doc, layout.companyLabels, v.items);
      WroteThen(Ok([Heading(1, layout.companiesTitle)]), Assemble(CompanyParts(layout.companyLabels, v.items)),
        start, mid, doc.blocks, err);
    }

    static method AddTable(doc: Document, plan: Fields, items: seq<Label>) returns (err: Option<string>)
      modifies doc
      ensures Wrote(Assemble(TableParts(plan, items)), old(doc.blocks), doc.blocks, err)
    {
      ghost var parts := TableParts(plan, items);
      ghost var start := doc.blocks;
      ghost var written: seq<Block> := [];
      for i := 0 to |items|
        invariant Assemble(parts[..i]) == Ok(written)
        invariant doc.blocks == start + written
      {
        ghost var before := written;
        var amount := WrittenText(Amount(plan, items[i].1));
        if amount.Err? {
          AssembleStops(parts, i, before);
          return Some(amount.error);
        }
        doc.AddRow([items[i].0, amount.value]);
        AssembleNext(parts, i, before);
        Append2(start, before, parts[i].value);
        written := before + parts[i].value;
      }
      assert parts[..|items|] == parts;
      err := None;
    }

    static method AddPlan(doc: Document, layout: Layout, v: Value) returns (err: Option<string>)
      modifies doc
      ensures Wrote(PlanPart(layout, v), old(doc.blocks), doc.blocks, err)
    {
      if !Truthy(v) {
        AddUnspecified(doc, layout.planTitle);
        return None;
      }
      ghost var start := doc.blocks;
      doc.AddHeading(layout.planTitle, 1);
      if !v.Dict? {
        return Some(NoGetMessage(v));
      }
      AddLines(doc, v.fields, layout.planLabels);
      doc.AddParagraph("");
      doc.AddRow(TableHeader);
      ghost var head := Ok(PlanHead(layout, v.fields));
      Append4(start, [Heading(1, layout.planTitle)], Lines(v.fields, layout.planLabels), [Paragraph("")], [TableRow(TableHeader)]);
      ghost var mid := doc.blocks;
      ghost var rows := Assemble(TableParts(v.fields, layout.tableItems));
      err := AddTable(doc, v.fields, layout.tableItems);
      WroteThen(head, rows, start, mid, doc.blocks, err);
      if err.Some? {
        return;
      }
      mid := doc.blocks;
      doc.AddParagraph("");
      WroteThen(Then(head, rows), Ok([Paragraph("")]), start, mid, doc.blocks, None);
    }

    static method AddPoints(doc: Document, title: string, v: Value)
      modifies doc
      ensures doc.blocks == old(doc.blocks) + PointsBlocks(title, v)
    {
      if Truthy(v) && v != Str(NotSpecified) {
        ghost var start := doc.blocks;
        doc.AddHeading(title, 2);
        doc.AddParagraph(PyStr(v));
        Append2(start, [Heading(2, title)], [Paragraph(PyStr(v))]);
      }
    }

    static method AddAnalysis(doc: Document, layout: Layout, v: Value) returns (err: Option<string>)
      modifies doc
      ensures Wrote(AnalysisPart(layout, v), old(doc.blocks), doc.blocks, err)
    {
      if !Truthy(v) {
        AddUnspecified(doc, layout.analysisTitle);
        return None;
      }
      doc.AddHeading(layout.analysisTitle, 1);
      if !v.Dict? {
        return Some(NoGetMessage(v));
      }
      ghost var start := old(doc.blocks);
      AddLines(doc, v.fields, layout.analysisLabels);
      var strengths := GetOr(v.fields, "points_forts", Str(NotSpecified));
      AddPoints(doc, "Points forts", strengths);
      var concerns := GetOr(v.fields, "points_vigilance", Str(NotSpecified));
      AddPoints(doc, "Points de vigilance", concerns);
      doc.AddParagraph("");
      Append5(start, [Heading(1, layout.analysisTitle)], Lines(v.fields, layout.analysisLabels),
        PointsBlocks("Points forts", strengths), PointsBlocks("Points de vigilance", concerns), [Paragraph("")]);
      err := None;
    }

    static method AddSources(doc: Document, title: string, v: Value) returns (err: Option<string>)
      modifies doc
      ensures Wrote(SourcesPart(title, v), old(doc.blocks), doc.blocks, err)
    {
      doc.AddHeading(title, 1);
      if Truthy(v) {
        var text := WrittenText(v);
        if text.Err? {
          return Some(text.error);
        }
        doc.AddParagraph(text.value);
      }
      err := None;
    }

    /** `generate_word_document`: build the document part by part, then save and register it. */
    method GenerateWordDocument(data: Fields, dossierId: string, now: string, store: WordStore) returns (r: WordOutcome)
      ensures r == WordOutcomeOf(layout, outputDir, data, dossierId, now, store)
    {
      var doc := new Document();
      var blocks := BuildReport(doc, layout, data, dossierId, now);
      if blocks.Err? {
        return WordFailed(WordErrorPrefix + blocks.error);
      }
      var stored := store(RecordOf(outputDir, data, dossierId, doc.blocks));
      if stored.Err? {
        return WordFailed(WordErrorPrefix + stored.error);
      }
      r := WordGenerated(stored.value, FilePath(outputDir, dossierId), FileName(dossierId), dossierId, WordSuccessMessage);
    }

    static method AddHeader(doc: Document, layout: Layout, data: Fields, dossierId: string, now: string)
      modifies doc
      ensures doc.blocks == old(doc.blocks) + HeaderPart(layout, data, dossierId, now)
    {
      doc.AddHeading(layout.title, 0);
      doc.AddParagraph("");
      doc.AddParagraph("Dossier n° : " + dossierId);
      doc.AddParagraph("Généré le : " + GeneratedOn(data, now));
      doc.AddParagraph(Rule());
      doc.AddParagraph("");
    }

    static method AddFooter(doc: Document, layout: Layout)
      modifies doc
      ensures doc.blocks == old(doc.blocks) + FooterPart(layout)
    {
      doc.AddParagraph("");
      doc.AddParagraph(Rule());
      doc.AddParagraph(layout.footer);
    }

    static method AddFirstSections(doc: Document, layout: Layout, data: Fields) returns (err: Option<string>)
      modifies doc
      ensures Wrote(FirstSections(layout, data), old(doc.blocks), doc.blocks, err)
    {
      ghost var start := doc.blocks;
      ghost var part := FieldPart(layout.projectTitle, SectionValue(data, "synthese_projet"), layout.projectLabels);
      err := AddFieldSection(doc, layout.projectTitle, SectionValue(data, "synthese_projet"), layout.projectLabels);
      ghost var acc := part;
      if err.Some? { return; }

      ghost var mid := doc.blocks;
      part := ProfilePart(layout, SectionValue(data, "profil_emprunteur"));
      err := AddProfile(doc, layout, SectionValue(data, "profil_emprunteur"));
      WroteThen(acc, part, start, mid, doc.blocks, err);
      acc := Then(acc, part);
      if err.Some? { return; }

      mid := doc.blocks;
      part := FieldPart(layout.incomeTitle, SectionValue(data, "revenus"), layout.incomeLabels);
      err := AddFieldSection(doc, layout.incomeTitle, SectionValue(data, "revenus"), layout.incomeLabels);
      WroteThen(acc, part, start, mid, doc.blocks, err);
      acc := Then(acc, part);
      if err.Some? { return; }

      mid := doc.blocks;
      part := FieldPart(layout.realEstateTitle, SectionValue(data, "patrimoine_immobilier"), layout.realEstateLabels);
      err := AddFieldSection(doc, layout.realEstateTitle, SectionValue(data, "patrimoine_immobilier"), layout.realEstateLabels);
      WroteThen(acc, part, start, mid, doc.blocks, err);
      acc := Then(acc, part);
      if err.Some? { return; }

      mid := doc.blocks;
      part := FieldPart(layout.movableTitle, SectionValue(data, "patrimoine_mobilier"), layout.movableLabels);
      err := AddFieldSection(doc, layout.movableTitle, SectionValue(data, "patrimoine_mobilier"), layout.movableLabels);
      WroteThen(acc, part, start, mid, doc.blocks, err);
    }

    static method AddLastSections(doc: Document, layout: Layout, data: Fields) returns (err: Option<string>)
      modifies doc
      ensures Wrote(LastSections(layout, data), old(doc.blocks), doc.blocks, err)
    {
      ghost var start := doc.blocks;
      ghost var part := CompaniesPart(layout, GetOr(data, "societes", List([])));
      err := AddCompanies(doc, layout, GetOr(data, "societes", List([])));
      ghost var acc := part;
      if err.Some? { return; }

      ghost var mid := doc.blocks;
      part := PlanPart(layout, SectionValue(data, "plan_financement"));
      err := AddPlan(doc, layout, SectionValue(data, "plan_financement"));
      WroteThen(acc, part, start, mid, doc.blocks, err);
      acc := Then(acc, part);
      if err.Some? { return; }

      mid := doc.blocks;
      part := AnalysisPart(layout, SectionValue(data, "analyse_financiere"));
      err := AddAnalysis(doc, layout, SectionValue(data, "analyse_financiere"));
      WroteThen(acc, part, start, mid, doc.blocks, err);
      acc := Then(acc, part);
      if err.Some? { return; }

      mid := doc.blocks;
      part := SourcesPart(layout.sourcesTitle, GetOr(data, "documents_sources", Str("")));
      err := AddSources(doc, layout.sourcesTitle, GetOr(data, "documents_sources", Str("")));
      WroteThen(acc, part, start, mid, doc.blocks, err);
    }

    /** The body of the generator's `try`: every part in order, stopping at the first exception. */
    static method BuildReport(doc: Document, layout: Layout, data: Fields, dossierId: string, now: string)
      returns (r: Result<seq<Block>>)
      requires doc.blocks == []
      modifies doc
      ensures r == ReportBlocks(layout, data, dossierId, now)
      ensures r.Ok? ==> doc.blocks == r.value
    {
      AddHeader(doc, layout, data, dossierId, now);
      ghost var acc := Ok(HeaderPart(layout, data, dossierId, now));
      assert Wrote(acc, [], doc.blocks, None);

      ghost var mid := doc.blocks;
      var err := AddFirstSections(doc, layout, data);
      WroteThen(acc, FirstSections(layout, data), [], mid, doc.blocks, err);
      acc := Then(acc, FirstSections(layout, data));
      if err.Some? { return Err(err.value); }

      mid := doc.blocks;
      err := AddLastSections(doc, layout, data);
      WroteThen(acc, LastSections(layout, data), [], mid, doc.blocks, err);
      acc := Then(acc, LastSections(layout, data));
      if err.Some? { return Err(err.value); }

      mid := doc.blocks;
      AddFooter(doc, layout);
      WroteThen(acc, Ok(FooterPart(layout)), [], mid, doc.blocks, None);
      acc := Then(acc, Ok(FooterPart(layout)));
      assert [] + acc.value == acc.value;
      r := Ok(doc.blocks);
    }
  }

  // ---------------------------------------------------------------------
  // Lemmas used by the generator

  /** Writing a part after an assembly that succeeded writes their `Then`. */
  lemma WroteThen(acc: Result<seq<Block>>, part: Result<seq<Block>>, start: seq<Block>, mid: seq<Block>,
                  end: seq<Block>, err: Option<string>)
    requires Wrote(acc, start, mid, None)
    requires Wrote(part, mid, end, err)
    ensures Wrote(Then(acc, part), start, end, err)
  {
    if part.Ok? {
      assert start + acc.value + part.value == start + (acc.value + part.value);
    }
  }

  lemma Append2(start: seq<Block>, a: seq<Block>, b: seq<Block>)
    ensures start + a + b == start + (a + b)
  {
  }

  lemma Append3(start: seq<Block>, a: seq<Block>, b: seq<Block>, c: seq<Block>)
    ensures start + a + b + c == start + (a + b + c)
  {
  }

  lemma Append4(start: seq<Block>, a: seq<Block>, b: seq<Block>, c: seq<Block>, d: seq<Block>)
    ensures start + a + b + c + d == start + (a + b + c + d)
  {
  }

  lemma Append5(start: seq<Block>, a: seq<Block>, b: seq<Block>, c: seq<Block>, d: seq<Block>, e: seq<Block>)
    ensures start + a + b + c + d + e == start + (a + b + c + d + e)
  {
  }

  /** Writing one more part that succeeds extends the assembly with its blocks. */
  lemma AssembleNext(parts: seq<Result<seq<Block>>>, k: nat, before: seq<Block>)
    requires k < |parts| && Assemble(parts[..k]) == Ok(before) && parts[k].Ok?
    ensures Assemble(parts[..k + 1]) == Ok(before + parts[k].value)
  {
    assert parts[..k + 1][..k] == parts[..k];
  }

  /** A failing part is the failure of the whole assembly when the parts before it succeed. */
  lemma AssembleStops(parts: seq<Result<seq<Block>>>, k: nat, before: seq<Block>)
    requires k < |parts| && Assemble(parts[..k]) == Ok(before) && parts[k].Err?
    ensures Assemble(parts) == parts[k]
  {
    assert parts[..k + 1][..k] == parts[..k];
    AssembleKeepsFailure(parts, k + 1);
  }

  lemma {:induction false} AssembleKeepsFailure(parts: seq<Result<seq<Block>>>, k: nat)
    requires k <= |parts| && Assemble(parts[..k]).Err?
    ensures Assemble(parts) == Assemble(parts[..k])
    decreases |parts| - k
  {
    if k < |parts| {
      assert parts[..k + 1][..k] == parts[..k];
      AssembleKeepsFailure(parts, k + 1);
    } else {
      assert parts[..k] == parts;
    }
  }

  // ---------------------------------------------------------------------
  // What the document shows

  /** The texts of the title and the section headings (level 0 and 1), in document order. */
  function TopHeadings(blocks: seq<Block>): seq<string>
    decreases |blocks|
  {
    if |blocks| == 0 then []
    else
      var last := blocks[|blocks| - 1];
      TopHeadings(blocks[..|blocks| - 1]) + (if last.Heading? && last.level <= 1 then [last.text] else [])
  }

  predicate NoTopHeading(blocks: seq<Block>) {
    forall j :: 0 <= j < |blocks| ==> !(blocks[j].Heading? && blocks[j].level <= 1)
  }

  lemma {:induction false} TopHeadingsConcat(a: seq<Block>, b: seq<Block>)
    ensures TopHeadings(a + b) == TopHeadings(a) + TopHeadings(b)
    decreases |b|
  {
    if |b| == 0 {
      assert a + b == a;
    } else {
      assert (a + b)[..|a + b| - 1] == a + b[..|b| - 1];
      TopHeadingsConcat(a, b[..|b| - 1]);
    }
  }

  lemma {:induction false} NoTopHeadingNone(blocks: seq<Block>)
    requires NoTopHeading(blocks)
    ensures TopHeadings(blocks) == []
    decreases |blocks|
  {
    if |blocks| > 0 {
      NoTopHeadingNone(blocks[..|blocks| - 1]);
    }
  }

  /** The headings of two parts written one after the other are theirs, in order. */
  lemma ThenHeadings(a: Result<seq<Block>>, b: Result<seq<Block>>)
    requires Then(a, b).Ok?
    ensures a.Ok? && b.Ok?
    ensures TopHeadings(Then(a, b).value) == TopHeadings(a.value) + TopHeadings(b.value)
  {
    TopHeadingsConcat(a.value, b.value);
  }

  lemma NoTopHeadingConcat(a: seq<Block>, b: seq<Block>)
    requires NoTopHeading(a) && NoTopHeading(b)
    ensures NoTopHeading(a + b)
  {
    forall j | 0 <= j < |a + b|
      ensures !((a + b)[j].Heading? && (a + b)[j].level <= 1)
    {
      if j >= |a| {
        assert (a + b)[j] == b[j - |a|];
      }
    }
  }

  lemma TopHeadingsOne(b: Block)
    ensures TopHeadings([b]) == if b.Heading? && b.level <= 1 then [b.text] else []
  {
    assert [b][..0] == [];
  }

  /** A section heading followed by blocks without one. */
  lemma Headed(title: string, a: seq<Block>)
    requires NoTopHeading(a)
    ensures TopHeadings([Heading(1, title)] + a) == [title]
  {
    TopHeadingsConcat([Heading(1, title)], a);
    TopHeadingsOne(Heading(1, title));
    NoTopHeadingNone(a);
  }

  lemma Headed2(title: string, a: seq<Block>, b: seq<Block>)
    requires NoTopHeading(a) && NoTopHeading(b)
    ensures TopHeadings([Heading(1, title)] + a + b) == [title]
  {
    Headed(title, a);
    TopHeadingsConcat([Heading(1, title)] + a, b);
    NoTopHeadingNone(b);
  }

  lemma Headed3(title: string, a: seq<Block>, b: seq<Block>, c: seq<Block>)
    requires NoTopHeading(a) && NoTopHeading(b) && NoTopHeading(c)
    ensures TopHeadings([Heading(1, title)] + a + b + c) == [title]
  {
    Headed2(title, a, b);
    TopHeadingsConcat([Heading(1, title)] + a + b, c);
    NoTopHeadingNone(c);
  }

  lemma Headed4(title: string, a: seq<Block>, b: seq<Block>, c: seq<Block>, d: seq<Block>)
    requires NoTopHeading(a) && NoTopHeading(b) && NoTopHeading(c) && NoTopHeading(d)
    ensures TopHeadings([Heading(1, title)] + a + b + c + d) == [title]
  {
    Headed3(title, a, b, c);
    TopHeadingsConcat([Heading(1, title)] + a + b + c, d);
    NoTopHeadingNone(d);
  }

  lemma UnspecifiedHeading(title: string)
    ensures TopHeadings(Unspecified(title)) == [title]
  {
    Headed(title, [Paragraph(NotSpecified), Paragraph("")]);
    assert Unspecified(title) == [Heading(1, title)] + [Paragraph(NotSpecified), Paragraph("")];
  }

  /** A sub-section: a level-2 heading over blocks without a section heading. */
  lemma SubsectionNoTopHeading(title: string, lines: seq<Block>)
    requires NoTopHeading(lines)
    ensures NoTopHeading([Heading(2, title)] + lines)
  {
    NoTopHeadingConcat([Heading(2, title)], lines);
  }

  lemma {:induction false} AssembleNoTopHeading(parts: seq<Result<seq<Block>>>)
    requires Assemble(parts).Ok?
    requires forall i :: 0 <= i < |parts| && parts[i].Ok? ==> NoTopHeading(parts[i].value)
    ensures NoTopHeading(Assemble(parts).value)
    decreases |parts|
  {
    if |parts| > 0 {
      var init := parts[..|parts| - 1];
      assert forall i :: 0 <= i < |init| ==> init[i] == parts[i];
      AssembleNoTopHeading(init);
      NoTopHeadingConcat(Assemble(init).value, parts[|parts| - 1].value);
    }
  }

  lemma IdentityNoTopHeading(labels: seq<Label>, identity: Value)
    ensures NoTopHeading(IdentityBlocks(labels, identity))
  {
    if Truthy(identity) && identity.Dict? {
      SubsectionNoTopHeading("Identité", Lines(identity.fields, labels));
    }
  }

  lemma FamilyNoTopHeading(labels: seq<Label>, profile: Fields)
    ensures NoTopHeading(FamilyBlocks(labels, profile))
  {
    var situation := SafeGet(profile, "situation_familiale");
    if situation != NotSpecified {
      NoTopHeadingConcat([Heading(2, "Situation familiale")], [Paragraph("Situation : " + situation)]);
      NoTopHeadingConcat([Heading(2, "Situation familiale")] + [Paragraph("Situation : " + situation)], Lines(profile, labels));
    }
  }

  lemma AddressNoTopHeading(labels: seq<Label>, address: Value)
    ensures NoTopHeading(AddressBlocks(labels, address))
  {
    if Truthy(address) && address.Dict? {
      SubsectionNoTopHeading("Adresse", Lines(address.fields, labels));
    }
  }

  lemma PointsNoTopHeading(title: string, v: Value)
    ensures NoTopHeading(PointsBlocks(title, v))
  {
    if Truthy(v) && v != Str(NotSpecified) {
      SubsectionNoTopHeading(title, [Paragraph(PyStr(v))]);
    }
  }

  lemma CompanyNoTopHeading(labels: seq<Label>, company: Value, n: nat)
    requires CompanyEntry(labels, company, n).Ok?
    ensures NoTopHeading(CompanyEntry(labels, company, n).value)
  {
    var h := [CompanyHeading(company.fields, n)];
    NoTopHeadingConcat(h, Lines(company.fields, labels));
    NoTopHeadingConcat(h + Lines(company.fields, labels), [Paragraph("")]);
  }

  lemma FieldPartHeading(title: string, v: Value, labels: seq<Label>)
    requires FieldPart(title, v, labels).Ok?
    ensures TopHeadings(FieldPart(title, v, labels).value) == [title]
  {
    if !Truthy(v) {
      UnspecifiedHeading(title);
    } else {
      Headed2(title, Lines(v.fields, labels), [Paragraph("")]);
    }
  }

  lemma ProfilePartHeading(layout: Layout, v: Value)
    requires ProfilePart(layout, v).Ok?
    ensures TopHeadings(ProfilePart(layout, v).value) == [layout.profileTitle]
  {
    if !Truthy(v) {
      UnspecifiedHeading(layout.profileTitle);
    } else {
      var identity := GetOr(v.fields, "identite", Dict([]));
      var address := GetOr(v.fields, "adresse", Null);
      IdentityNoTopHeading(layout.identityLabels, identity);
      FamilyNoTopHeading(layout.familyLabels, v.fields);
      AddressNoTopHeading(layout.addressLabels, address);
      Headed4(layout.profileTitle, IdentityBlocks(layout.identityLabels, identity),
        FamilyBlocks(layout.familyLabels, v.fields), AddressBlocks(layout.addressLabels, address), [Paragraph("")]);
    }
  }

  lemma CompaniesPartHeading(layout: Layout, v: Value)
    requires CompaniesPart(layout, v).Ok?
    ensures TopHeadings(CompaniesPart(layout, v).value) == [layout.companiesTitle]
  {
    if !Truthy(v) {
      UnspecifiedHeading(layout.companiesTitle);
    } else {
      var parts := CompanyParts(layout.companyLabels, v.items);
      forall i | 0 <= i < |parts| && parts[i].Ok?
        ensures NoTopHeading(parts[i].value)
      {
        CompanyNoTopHeading(layout.companyLabels, v.items[i], i + 1);
      }
      AssembleNoTopHeading(parts);
      Headed(layout.companiesTitle, Assemble(parts).value);
    }
  }

  lemma PlanPartHeading(layout: Layout, v: Value)
    requires PlanPart(layout, v).Ok?
    ensures TopHeadings(PlanPart(layout, v).value) == [layout.planTitle]
  {
    if !Truthy(v) {
      UnspecifiedHeading(layout.planTitle);
    } else {
      var parts := TableParts(v.fields, layout.tableItems);
      var head := PlanHead(layout, v.fields);
      Headed3(layout.planTitle, Lines(v.fields, layout.planLabels), [Paragraph("")], [TableRow(TableHeader)]);
      forall i | 0 <= i < |parts| && parts[i].Ok?
        ensures NoTopHeading(parts[i].value)
      {
      }
      AssembleNoTopHeading(parts);
      NoTopHeadingNone(Assemble(parts).value);
      ThenHeadings(Then(Ok(head), Assemble(parts)), Ok([Paragraph("")]));
      ThenHeadings(Ok(head), Assemble(parts));
      TopHeadingsOne(Paragraph(""));
    }
  }

  lemma AnalysisPartHeading(layout: Layout, v: Value)
    requires AnalysisPart(layout, v).Ok?
    ensures TopHeadings(AnalysisPart(layout, v).value) == [layout.analysisTitle]
  {
    if !Truthy(v) {
      UnspecifiedHeading(layout.analysisTitle);
    } else {
      var strengths := GetOr(v.fields, "points_forts", Str(NotSpecified));
      var concerns := GetOr(v.fields, "points_vigilance", Str(NotSpecified));
      PointsNoTopHeading("Points forts", strengths);
      PointsNoTopHeading("Points de vigilance", concerns);
      Headed4(layout.analysisTitle, Lines(v.fields, layout.analysisLabels),
        PointsBlocks("Points forts", strengths), PointsBlocks("Points de vigilance", concerns), [Paragraph("")]);
    }
  }

  lemma SourcesPartHeading(title: string, v: Value)
    requires SourcesPart(title, v).Ok?
    ensures TopHeadings(SourcesPart(title, v).value) == [title]
  {
    if !Truthy(v) {
      TopHeadingsOne(Heading(1, title));
    } else {
      var text := WrittenText(v).value;
      Headed(title, [Paragraph(text)]);
      assert [Heading(1, title), Paragraph(text)] == [Heading(1, title)] + [Paragraph(text)];
    }
  }

  lemma FirstSectionsHeadings(layout: Layout, data: Fields)
    requires FirstSections(layout, data).Ok?
    ensures TopHeadings(FirstSections(layout, data).value)
      == [layout.projectTitle, layout.profileTitle, layout.incomeTitle, layout.realEstateTitle, layout.movableTitle]
  {
    var project := FieldPart(layout.projectTitle, SectionValue(data, "synthese_projet"), layout.projectLabels);
    var profile := ProfilePart(layout, SectionValue(data, "profil_emprunteur"));
    var income := FieldPart(layout.incomeTitle, SectionValue(data, "revenus"), layout.incomeLabels);
    var realEstate := FieldPart(layout.realEstateTitle, SectionValue(data, "patrimoine_immobilier"), layout.realEstateLabels);
    var movable := FieldPart(layout.movableTitle, SectionValue(data, "patrimoine_mobilier"), layout.movableLabels);
    ChainOk(Then(Then(Then(project, profile), income), realEstate), movable);
    ChainOk(Then(Then(project, profile), income), realEstate);
    ChainOk(Then(project, profile), income);
    ChainOk(project, profile);
    FieldPartHeading(layout.projectTitle, SectionValue(data, "synthese_projet"), layout.projectLabels);
    ProfilePartHeading(layout, SectionValue(data, "profil_emprunteur"));
    FieldPartHeading(layout.incomeTitle, SectionValue(data, "revenus"), layout.incomeLabels);
    FieldPartHeading(layout.realEstateTitle, SectionValue(data, "patrimoine_immobilier"), layout.realEstateLabels);
    FieldPartHeading(layout.movableTitle, SectionValue(data, "patrimoine_mobilier"), layout.movableLabels);
    FiveTitles(project, profile, income, realEstate, movable,
      layout.projectTitle, layout.profileTitle, layout.incomeTitle, layout.realEstateTitle, layout.movableTitle);
  }

  lemma LastSectionsHeadings(layout: Layout, data: Fields)
    requires LastSections(layout, data).Ok?
    ensures TopHeadings(LastSections(layout, data).value)
      == [layout.companiesTitle, layout.planTitle, layout.analysisTitle, layout.sourcesTitle]
  {
    var companies := CompaniesPart(layout, GetOr(data, "societes", List([])));
    var plan := PlanPart(layout, SectionValue(data, "plan_financement"));
    var analysis := AnalysisPart(layout, SectionValue(data, "analyse_financiere"));
    var sources := SourcesPart(layout.sourcesTitle, GetOr(data, "documents_sources", Str("")));
    ChainOk(Then(Then(companies, plan), analysis), sources);
    ChainOk(Then(companies, plan), analysis);
    ChainOk(companies, plan);
    CompaniesPartHeading(layout, GetOr(data, "societes", List([])));
    PlanPartHeading(layout, SectionValue(data, "plan_financement"));
    AnalysisPartHeading(layout, SectionValue(data, "analyse_financiere"));
    SourcesPartHeading(layout.sourcesTitle, GetOr(data, "documents_sources", Str("")));
    FourTitles(companies, plan, analysis, sources, [layout.companiesTitle], layout.planTitle, layout.analysisTitle, layout.sourcesTitle);
  }

  lemma ChainOk(a: Result<seq<Block>>, b: Result<seq<Block>>)
    requires Then(a, b).Ok?
    ensures a.Ok? && b.Ok?
  {
  }

  /** Five parts written in a row, each headed by one title. */
  lemma FiveTitles(a: Result<seq<Block>>, b: Result<seq<Block>>, c: Result<seq<Block>>, d: Result<seq<Block>>,
                   e: Result<seq<Block>>, ta: string, tb: string, tc: string, td: string, te: string)
    requires a.Ok? && b.Ok? && c.Ok? && d.Ok? && e.Ok?
    requires TopHeadings(a.value) == [ta] && TopHeadings(b.value) == [tb] && TopHeadings(c.value) == [tc]
    requires TopHeadings(d.value) == [td] && TopHeadings(e.value) == [te]
    ensures Then(Then(Then(Then(a, b), c), d), e).Ok?
    ensures TopHeadings(Then(Then(Then(Then(a, b), c), d), e).value) == [ta, tb, tc, td, te]
  {
    ThenHeadings(a, b);
    FourTitles(Then(a, b), c, d, e, [ta, tb], tc, td, te);
    TwoThenThree(ta, tb, tc, td, te);
  }

  lemma TwoThenThree(ta: string, tb: string, tc: string, td: string, te: string)
    ensures [ta, tb] + [tc, td, te] == [ta, tb, tc, td, te]
  {
  }

  /** Four parts written in a row, the last three headed by one title each. */
  lemma FourTitles(a: Result<seq<Block>>, b: Result<seq<Block>>, c: Result<seq<Block>>, d: Result<seq<Block>>,
                   ta: seq<string>, tb: string, tc: string, td: string)
    requires a.Ok? && b.Ok? && c.Ok? && d.Ok?
    requires TopHeadings(a.value) == ta && TopHeadings(b.value) == [tb]
    requires TopHeadings(c.value) == [tc] && TopHeadings(d.value) == [td]
    ensures Then(Then(Then(a, b), c), d).Ok?
    ensures TopHeadings(Then(Then(Then(a, b), c), d).value) == ta + [tb, tc, td]
  {
    ThenHeadings(Then(Then(a, b), c), d);
    ThenHeadings(Then(a, b), c);
    ThenHeadings(a, b);
  }

  lemma HeaderHeading(layout: Layout, data: Fields, dossierId: string, now: string)
    ensures TopHeadings(HeaderPart(layout, data, dossierId, now)) == [layout.title]
  {
    var h := HeaderPart(layout, data, dossierId, now);
    assert h == [Heading(0, layout.title)] + h[1..];
    TopHeadingsConcat([Heading(0, layout.title)], h[1..]);
    TopHeadingsOne(Heading(0, layout.title));
    NoTopHeadingNone(h[1..]);
  }

  /**
   * A document that is generated has the title, the eight numbered sections
   * and the sources section, each exactly once and in this order, whatever
   * the synthesis holds.
   */
  lemma ReportHeadingOrder(layout: Layout, data: Fields, dossierId: string, now: string)
    requires ReportBlocks(layout, data, dossierId, now).Ok?
    ensures TopHeadings(ReportBlocks(layout, data, dossierId, now).value)
      == [layout.title, layout.projectTitle, layout.profileTitle, layout.incomeTitle, layout.realEstateTitle,
          layout.movableTitle, layout.companiesTitle, layout.planTitle, layout.analysisTitle, layout.sourcesTitle]
  {
    var body := Then(Then(Ok(HeaderPart(layout, data, dossierId, now)), FirstSections(layout, data)), LastSections(layout, data));
    ThenHeadings(body, Ok(FooterPart(layout)));
    BodyHeadings(layout, data, dossierId, now);
    NoTopHeadingNone(FooterPart(layout));
    TitlesInOrder(layout);
  }

  lemma BodyHeadings(layout: Layout, data: Fields, dossierId: string, now: string)
    requires Then(Then(Ok(HeaderPart(layout, data, dossierId, now)), FirstSections(layout, data)), LastSections(layout, data)).Ok?
    ensures TopHeadings(Then(Then(Ok(HeaderPart(layout, data, dossierId, now)), FirstSections(layout, data)), LastSections(layout, data)).value)
      == [layout.title] + [layout.projectTitle, layout.profileTitle, layout.incomeTitle, layout.realEstateTitle, layout.movableTitle]
        + [layout.companiesTitle, layout.planTitle, layout.analysisTitle, layout.sourcesTitle]
  {
    var header := Ok(HeaderPart(layout, data, dossierId, now));
    var first := FirstSections(layout, data);
    var last := LastSections(layout, data);
    ThenHeadings(Then(header, first), last);
    ThenHeadings(header, first);
    FirstSectionsHeadings(layout, data);
    LastSectionsHeadings(layout, data);
    HeaderHeading(layout, data, dossierId, now);
  }

  lemma TitlesInOrder(layout: Layout)
    ensures [layout.title] + [layout.projectTitle, layout.profileTitle, layout.incomeTitle, layout.realEstateTitle, layout.movableTitle]
      + [layout.companiesTitle, layout.planTitle, layout.analysisTitle, layout.sourcesTitle] + []
      == [layout.title, layout.projectTitle, layout.profileTitle, layout.incomeTitle, layout.realEstateTitle,
          layout.movableTitle, layout.companiesTitle, layout.planTitle, layout.analysisTitle, layout.sourcesTitle]
  {
  }

  // ---------------------------------------------------------------------
  // Sections left empty, sub-sections shown only when present

  /** A section whose value is missing or empty shows its heading and "Non spécifié". */
  lemma EmptySectionsUnspecified(layout: Layout, v: Value, title: string, labels: seq<Label>)
    requires !Truthy(v)
    ensures Unspecified(title) == [Heading(1, title), Paragraph(NotSpecified), Paragraph("")]
    ensures FieldPart(title, v, labels) == Ok(Unspecified(title))
    ensures ProfilePart(layout, v) == Ok(Unspecified(layout.profileTitle))
    ensures CompaniesPart(layout, v) == Ok(Unspecified(layout.companiesTitle))
    ensures PlanPart(layout, v) == Ok(Unspecified(layout.planTitle))
    ensures AnalysisPart(layout, v) == Ok(Unspecified(layout.analysisTitle))
    ensures SourcesPart(title, v) == Ok([Heading(1, title)])
  {
  }

  lemma LinesHaveNoHeading(f: Fields, labels: seq<Label>, h: Block)
    requires h.Heading?
    ensures h !in Lines(f, labels)
  {
  }

  /** A sub-section heading of section 2 is in the section exactly when it is in one of its sub-sections. */
  lemma ProfileHeadingIn(layout: Layout, v: Value, h: Block)
    requires Truthy(v) && ProfilePart(layout, v).Ok? && h.Heading? && h.level == 2
    ensures var p := v.fields; var identity := GetOr(p, "identite", Dict([]));
      (h in ProfilePart(layout, v).value <==>
        h in IdentityBlocks(layout.identityLabels, identity) || h in FamilyBlocks(layout.familyLabels, p)
        || h in AddressBlocks(layout.addressLabels, GetOr(p, "adresse", Null)))
  {
  }

  lemma IdentityHeadingIn(labels: seq<Label>, identity: Value, h: Block)
    requires h.Heading?
    ensures h in IdentityBlocks(labels, identity) <==> Truthy(identity) && identity.Dict? && h == Heading(2, "Identité")
  {
    if Truthy(identity) && identity.Dict? {
      LinesHaveNoHeading(identity.fields, labels, h);
    }
  }

  lemma FamilyHeadingIn(labels: seq<Label>, profile: Fields, h: Block)
    requires h.Heading?
    ensures h in FamilyBlocks(labels, profile) <==>
      SafeGet(profile, "situation_familiale") != NotSpecified && h == Heading(2, "Situation familiale")
  {
    var situation := SafeGet(profile, "situation_familiale");
    if situation != NotSpecified {
      LinesHaveNoHeading(profile, labels, h);
      assert FamilyBlocks(labels, profile)
        == [Heading(2, "Situation familiale")] + [Paragraph("Situation : " + situation)] + Lines(profile, labels);
    }
  }

  lemma AddressHeadingIn(labels: seq<Label>, address: Value, h: Block)
    requires h.Heading?
    ensures h in AddressBlocks(labels, address) <==> Truthy(address) && address.Dict? && h == Heading(2, "Adresse")
  {
    if Truthy(address) && address.Dict? {
      LinesHaveNoHeading(address.fields, labels, h);
    }
  }

  /**
   * Section 2 of a profile that is written: the identity, family and address
   * sub-sections appear exactly when their data is there.
   */
  lemma ProfileSubsectionsShownIff(layout: Layout, v: Value)
    requires Truthy(v) && ProfilePart(layout, v).Ok?
    ensures var p := v.fields; var blocks := ProfilePart(layout, v).value;
      && (Heading(2, "Identité") in blocks <==> Truthy(GetOr(p, "identite", Dict([]))))
      && (Heading(2, "Situation familiale") in blocks <==> SafeGet(p, "situation_familiale") != NotSpecified)
      && (Heading(2, "Adresse") in blocks <==> Truthy(GetOr(p, "adresse", Null)) && GetOr(p, "adresse", Null).Dict?)
  {
    var p := v.fields;
    var identity := GetOr(p, "identite", Dict([]));
    var address := GetOr(p, "adresse", Null);
    var hi, hf, ha := Heading(2, "Identité"), Heading(2, "Situation familiale"), Heading(2, "Adresse");
    ProfileHeadingIn(layout, v, hi);
    ProfileHeadingIn(layout, v, hf);
    ProfileHeadingIn(layout, v, ha);
    IdentityHeadingIn(layout.identityLabels, identity, hi);
    IdentityHeadingIn(layout.identityLabels, identity, hf);
    IdentityHeadingIn(layout.identityLabels, identity, ha);
    FamilyHeadingIn(layout.familyLabels, p, hi);
    FamilyHeadingIn(layout.familyLabels, p, hf);
    FamilyHeadingIn(layout.familyLabels, p, ha);
    AddressHeadingIn(layout.addressLabels, address, hi);
    AddressHeadingIn(layout.addressLabels, address, hf);
    AddressHeadingIn(layout.addressLabels, address, ha);
  }

  /** Section 8 of an analysis that is written: each list of points appears exactly when it is given and not "Non spécifié". */
  lemma PointsShownIff(layout: Layout, v: Value)
    requires Truthy(v) && v.Dict?
    ensures AnalysisPart(layout, v).Ok?
    ensures var strengths := GetOr(v.fields, "points_forts", Str(NotSpecified));
      var concerns := GetOr(v.fields, "points_vigilance", Str(NotSpecified));
      var blocks := AnalysisPart(layout, v).value;
      && (Heading(2, "Points forts") in blocks <==> Truthy(strengths) && strengths != Str(NotSpecified))
      && (Heading(2, "Points de vigilance") in blocks <==> Truthy(concerns) && concerns != Str(NotSpecified))
  {
    var strengths := GetOr(v.fields, "points_forts", Str(NotSpecified));
    var concerns := GetOr(v.fields, "points_vigilance", Str(NotSpecified));
    var lines := Lines(v.fields, layout.analysisLabels);
    var hs, hc := Heading(2, "Points forts"), Heading(2, "Points de vigilance");
    LinesHaveNoHeading(v.fields, layout.analysisLabels, hs);
    LinesHaveNoHeading(v.fields, layout.analysisLabels, hc);
    var blocks := [Heading(1, layout.analysisTitle)] + lines + PointsBlocks("Points forts", strengths)
      + PointsBlocks("Points de vigilance", concerns) + [Paragraph("")];
    assert AnalysisPart(layout, v).value == blocks;
    assert hs in blocks <==> hs in PointsBlocks("Points forts", strengths);
    assert hc in blocks <==> hc in PointsBlocks("Points de vigilance", concerns);
  }

  // ---------------------------------------------------------------------
  // Companies and the financing table

  lemma MulSucc(w: nat, k: nat)
    ensures w * (k + 1) == w * k + w
  {
  }

  lemma {:induction false} MulStep(w: nat, i: nat, m: nat)
    requires i < m
    ensures 0 <= w * i && w * i + w <= w * m
    decreases m
  {
    MulSucc(w, m - 1);
    if i < m - 1 {
      MulStep(w, i, m - 1);
    }
  }

  /**
   * Parts that all succeed with `w` blocks each: the assembly has `w` blocks
   * per part, and part `i` starts at block `w * i`.
   */
  lemma {:induction false} AssembleUniform(parts: seq<Result<seq<Block>>>, w: nat)
    requires w > 0
    requires forall i :: 0 <= i < |parts| ==> parts[i].Ok? && |parts[i].value| == w
    ensures Assemble(parts).Ok?
    ensures |Assemble(parts).value| == w * |parts|
    ensures forall i :: 0 <= i < |parts| ==> 0 <= w * i < w * |parts| && Assemble(parts).value[w * i] == parts[i].value[0]
    decreases |parts|
  {
    var n := |parts|;
    if n > 0 {
      var init := parts[..n - 1];
      AssembleUniform(init, w);
      var before := Assemble(init).value;
      var all := before + parts[n - 1].value;
      MulSucc(w, n - 1);
      forall i | 0 <= i < n
        ensures 0 <= w * i < w * n && all[w * i] == parts[i].value[0]
      {
        MulStep(w, i, n);
        if i < n - 1 {
          MulStep(w, i, n - 1);
          assert init[i] == parts[i];
        }
      }
    }
  }

  /**
   * The companies of a list of dictionaries are numbered 6.1, 6.2, … in list
   * order: company `i` takes `|labels| + 2` blocks, the first being its
   * numbered heading.
   */
  lemma CompanyNumbering(labels: seq<Label>, items: seq<Value>)
    requires forall i :: 0 <= i < |items| ==> items[i].Dict?
    ensures Assemble(CompanyParts(labels, items)).Ok?
    ensures var w := |labels| + 2; var blocks := Assemble(CompanyParts(labels, items)).value;
      && |blocks| == w * |items|
      && forall i :: 0 <= i < |items| ==> 0 <= w * i < |blocks| && blocks[w * i] == CompanyHeading(items[i].fields, i + 1)
  {
    var w := |labels| + 2;
    var parts := CompanyParts(labels, items);
    forall i | 0 <= i < |parts|
      ensures parts[i].Ok? && |parts[i].value| == w && parts[i].value[0] == CompanyHeading(items[i].fields, i + 1)
    {
      CompanyEntryShape(labels, items[i], i + 1);
    }
    AssembleUniform(parts, w);
  }

  /** A company written: its numbered heading, one line per label, a blank paragraph. */
  lemma CompanyEntryShape(labels: seq<Label>, company: Value, n: nat)
    requires company.Dict?
    ensures CompanyEntry(labels, company, n).Ok?
    ensures |CompanyEntry(labels, company, n).value| == |labels| + 2
    ensures CompanyEntry(labels, company, n).value[0] == CompanyHeading(company.fields, n)
  {
  }

  /** The first company that is not a dictionary stops the document with the `.get` error. */
  lemma CompanyListFailsAtFirstNonDict(labels: seq<Label>, items: seq<Value>, k: nat)
    requires k < |items| && !items[k].Dict?
    requires forall i :: 0 <= i < k ==> items[i].Dict?
    ensures Assemble(CompanyParts(labels, items)) == Err(NoGetMessage(items[k]))
  {
    var parts := CompanyParts(labels, items);
    assert parts[..k] == CompanyParts(labels, items[..k]);
    CompanyNumbering(labels, items[..k]);
    AssembleStops(parts, k, Assemble(parts[..k]).value);
  }

  /** The rows of the table as they should read: one per item, its label and its amount's text. */
  function ExpectedRows(plan: Fields, items: seq<Label>): seq<Block>
    requires forall i :: 0 <= i < |items| ==> WrittenText(Amount(plan, items[i].1)).Ok?
  {
    seq(|items|, i requires 0 <= i < |items| => TableRow([items[i].0, WrittenText(Amount(plan, items[i].1)).value]))
  }

  /** When every amount can be written, the table holds one row per item, in order, with the amount's text. */
  lemma {:induction false} TableRowsInOrder(plan: Fields, items: seq<Label>)
    requires forall i :: 0 <= i < |items| ==> WrittenText(Amount(plan, items[i].1)).Ok?
    ensures Assemble(TableParts(plan, items)) == Ok(ExpectedRows(plan, items))
    decreases |items|
  {
    var n := |items|;
    if n > 0 {
      var parts := TableParts(plan, items);
      assert parts[..n - 1] == TableParts(plan, items[..n - 1]);
      TableRowsInOrder(plan, items[..n - 1]);
      assert ExpectedRows(plan, items) == ExpectedRows(plan, items[..n - 1])
        + [TableRow([items[n - 1].0, WrittenText(Amount(plan, items[n - 1].1)).value])];
    }
  }

  /** The first amount python-docx cannot write stops the document with its exception. */
  lemma TableFailsAtFirstRejected(plan: Fields, items: seq<Label>, k: nat)
    requires k < |items| && WrittenText(Amount(plan, items[k].1)).Err?
    requires forall i :: 0 <= i < k ==> WrittenText(Amount(plan, items[i].1)).Ok?
    ensures Assemble(TableParts(plan, items)) == Err(WrittenText(Amount(plan, items[k].1)).error)
  {
    var parts := TableParts(plan, items);
    assert parts[..k] == TableParts(plan, items[..k]);
    TableRowsInOrder(plan, items[..k]);
    AssembleStops(parts, k, ExpectedRows(plan, items[..k]));
  }

  /** A list of names, none of them empty or "\r\n", is written as the names run together. */
  lemma {:induction false} NamesWrittenJoined(names: seq<string>)
    requires forall i :: 0 <= i < |names| ==> names[i] != "" && names[i] != "\r\n"
    ensures ItemsText(Strs(names)) == Ok(Join(names, ""))
    decreases |names|
  {
    if |names| > 0 {
      var items := Strs(names);
      assert items[0] == Str(names[0]) && items[1..] == Strs(names[1..]);
      assert ItemText(items[0]) == Ok(names[0]) by {
        assert names[0] != "" && names[0] != "\r\n";
      }
      NamesWrittenJoined(names[1..]);
      if |names| == 1 {
        assert names[0] + "" == names[0];
      } else {
        assert Join(names, "") == names[0] + Join(names[1..], "");
      }
    }
  }

  /** A dictionary is written as its keys run together, when none of them is empty or "\r\n". */
  lemma DictWrittenAsKeys(m: Fields)
    requires forall i :: 0 <= i < |m| ==> m[i].0 != "" && m[i].0 != "\r\n"
    ensures WrittenText(Dict(m)) == Ok(Join(Keys(m), ""))
  {
    NamesWrittenJoined(Keys(m));
  }

  /** The first item of a list that is not a string raises python-docx's `in` error. */
  lemma {:induction false} ItemsTextFailsAtFirstNonString(items: seq<Value>, k: nat)
    requires k < |items| && !items[k].Str?
    requires forall i :: 0 <= i < k ==> items[i].Str?
    ensures ItemsText(items) == Err(NotInStringMessage(items[k]))
    decreases k
  {
    if k > 0 {
      ItemsTextFailsAtFirstNonString(items[1..], k - 1);
    }
  }

  /**
   * A non-empty list of source names is written under the sources heading as
   * one paragraph holding the names run together.
   */
  lemma SourcesListWritten(title: string, names: seq<string>)
    requires names != []
    requires forall i :: 0 <= i < |names| ==> names[i] != "" && names[i] != "\r\n"
    ensures SourcesPart(title, List(Strs(names))) == Ok([Heading(1, title), Paragraph(Join(names, ""))])
  {
    NamesWrittenJoined(names);
  }

  /**
   * Section 7 of a plan that is written: its labelled lines, then the header
   * row and one row per financing item in order, then a blank paragraph; a
   * missing amount reads "Non spécifié".
   */
  lemma FinancingTable(layout: Layout, plan: Fields)
    requires plan != []
    requires forall i :: 0 <= i < |layout.tableItems| ==> WrittenText(Amount(plan, layout.tableItems[i].1)).Ok?
    ensures PlanPart(layout, Dict(plan)) == Ok(
      [Heading(1, layout.planTitle)] + Lines(plan, layout.planLabels) + [Paragraph("")]
      + [TableRow(["POSTE", "MONTANT"])] + ExpectedRows(plan, layout.tableItems) + [Paragraph("")])
    ensures forall i :: 0 <= i < |layout.tableItems| && !HasKey(plan, layout.tableItems[i].1) ==>
      ExpectedRows(plan, layout.tableItems)[i] == TableRow([layout.tableItems[i].0, NotSpecified])
  {
    TableRowsInOrder(plan, layout.tableItems);
  }

  /** The card's table has the three financing items, in this order. */
  lemma CardTableItems()
    ensures CardLayout().tableItems == [("Apport personnel", "apport_personnel"),
      ("Prêt sollicité", "pret_sollicite"), ("Autres financements", "autres_financements")]
  {
  }

  // ---------------------------------------------------------------------
  // Outcome and file name

  /**
   * `generate_word_document` succeeds exactly when every part is written and
   * the document is saved and registered; a failure carries the message of
   * the first exception behind the fixed prefix.
   */
  lemma WordOutcomeIff(layout: Layout, outputDir: string, data: Fields, dossierId: string, now: string, store: WordStore)
    ensures var r := WordOutcomeOf(layout, outputDir, data, dossierId, now, store);
      var report := ReportBlocks(layout, data, dossierId, now);
      && (r.WordGenerated? <==> report.Ok? && store(RecordOf(outputDir, data, dossierId, report.value)).Ok?)
      && (report.Err? ==> r == WordFailed(WordErrorPrefix + report.error))
      && (r.WordFailed? ==> StartsWith(r.error, WordErrorPrefix))
      && (r.WordGenerated? ==>
           && r.documentGenereId == store(RecordOf(outputDir, data, dossierId, report.value)).value
           && r.fileName == "Carte_Financement_" + dossierId + ".docx"
           && r.filePath == FilePath(outputDir, dossierId)
           && r.dossierId == dossierId
           && r.message == WordSuccessMessage)
  {
    var r := WordOutcomeOf(layout, outputDir, data, dossierId, now, store);
    if r.WordFailed? {
      assert r.error[..|WordErrorPrefix|] == WordErrorPrefix;
    }
  }

  /** The record registered for a generated document: the report's blocks, kind, path and origin. */
  lemma RegisteredRecord(outputDir: string, data: Fields, dossierId: string, blocks: seq<Block>)
    ensures var rec := RecordOf(outputDir, data, dossierId, blocks);
      && rec.blocks == blocks && rec.dossierId == dossierId
      && rec.typeDocument == "Carte de Financement (.docx)"
      && ((forall i :: 0 <= i < |dossierId| ==> dossierId[i] != '/') ==> rec.filePath == outputDir + "/" + rec.fileName)
      && (HasKey(data, "date_generation") && Get(data, "date_generation").value.Str? ==>
            rec.generatedFrom == "Synthèse générée le " + Get(data, "date_generation").value.s)
  {
    if forall i :: 0 <= i < |dossierId| ==> dossierId[i] != '/' {
      PlainFilePath(outputDir, dossierId);
    }
  }

  /** A name without a slash is one segment. */
  lemma {:induction false} SegmentsWithoutSlash(name: string)
    requires forall i :: 0 <= i < |name| ==> name[i] != '/'
    ensures PathSegments(name) == [name]
    decreases |name|
  {
    if |name| > 0 {
      SegmentsWithoutSlash(name[1..]);
      assert [name[0]] + name[1..] == name;
    }
  }

  /** One character in front of a name: a slash starts a new segment, any other extends the first one. */
  lemma SegmentsCons(c: char, rest: string, segments: seq<string>)
    requires PathSegments(rest) == segments
    ensures PathSegments([c] + rest) == if c == '/' then [""] + segments else [[c] + segments[0]] + segments[1..]
  {
    assert ([c] + rest)[0] == c && ([c] + rest)[1..] == rest;
  }

  /** Cutting at a slash: the segments of the two sides, one after the other. */
  lemma {:induction false} SegmentsAtSlash(a: string, b: string)
    ensures PathSegments(a + "/" + b) == PathSegments(a) + PathSegments(b)
    decreases |a|
  {
    var right := PathSegments(b);
    if |a| == 0 {
      assert a + "/" + b == ['/'] + b;
      SegmentsCons('/', b, right);
    } else {
      var c := a[0];
      var tail := a[1..];
      SegmentsAtSlash(tail, b);
      var left := PathSegments(tail);
      var whole := a + "/" + b;
      assert whole == [c] + (tail + "/" + b);
      assert a == [c] + tail;
      SegmentsCons(c, tail + "/" + b, left + right);
      SegmentsCons(c, tail, left);
      if c == '/' {
        SegmentsAssoc([""], left, right);
      } else {
        var first := [[c] + left[0]];
        assert (left + right)[0] == left[0];
        assert (left + right)[1..] == left[1..] + right;
        SegmentsAssoc(first, left[1..], right);
      }
    }
  }

  lemma SegmentsAssoc(x: seq<string>, y: seq<string>, z: seq<string>)
    ensures x + (y + z) == (x + y) + z
  {
  }

  lemma {:induction false} KeptSegmentsConcat(s: seq<string>, t: seq<string>)
    ensures KeptSegments(s + t) == KeptSegments(s) + KeptSegments(t)
    decreases |s|
  {
    if |s| == 0 {
      assert s + t == t;
    } else {
      assert (s + t)[0] == s[0] && (s + t)[1..] == s[1..] + t;
      KeptSegmentsConcat(s[1..], t);
      var head: seq<string> := if s[0] == "" || s[0] == "." then [] else [s[0]];
      assert KeptSegments(s + t) == head + (KeptSegments(s[1..]) + KeptSegments(t));
      assert KeptSegments(s) == head + KeptSegments(s[1..]);
    }
  }

  /** The file name as `pathlib` keeps it, cut where `dossierId` is cut at a slash. */
  lemma FileNameAtSlash(x: string, y: string)
    ensures KeptSegments(PathSegments(FileName(x + "/" + y)))
      == KeptSegments(PathSegments("Carte_Financement_" + x)) + KeptSegments(PathSegments(y + ".docx"))
  {
    assert FileName(x + "/" + y) == ("Carte_Financement_" + x) + "/" + (y + ".docx");
    SegmentsAtSlash("Carte_Financement_" + x, y + ".docx");
    KeptSegmentsConcat(PathSegments("Carte_Financement_" + x), PathSegments(y + ".docx"));
  }

  /** A dossier id without a slash is written to the file of that name, directly under the directory. */
  lemma PlainFilePath(outputDir: string, dossierId: string)
    requires forall i :: 0 <= i < |dossierId| ==> dossierId[i] != '/'
    ensures FilePath(outputDir, dossierId) == outputDir + "/" + FileName(dossierId)
  {
    var name := FileName(dossierId);
    forall i | 0 <= i < |name|
      ensures name[i] != '/'
    {
      if 18 <= i < 18 + |dossierId| {
        assert name[i] == dossierId[i - 18];
      }
    }
    SegmentsWithoutSlash(name);
    assert name != "" && name != ".";
    assert KeptSegments([name]) == [name];
  }

  /**
   * A doubled slash or a "/./" in a dossier id is dropped by `pathlib`, so the
   * id `x + "//" + y` or `x + "/./" + y` is written to the same file as
   * `x + "/" + y`.
   */
  lemma DroppedSegmentAlias(outputDir: string, x: string, y: string, segment: string)
    requires segment == "" || segment == "."
    ensures FilePath(outputDir, x + "/" + segment + "/" + y) == FilePath(outputDir, x + "/" + y)
  {
    var tail := segment + "/" + y;
    assert x + "/" + segment + "/" + y == x + "/" + tail;
    FileNameAtSlash(x, tail);
    assert tail + ".docx" == segment + "/" + (y + ".docx");
    SegmentsAtSlash(segment, y + ".docx");
    SegmentsWithoutSlash(segment);
    KeptSegmentsConcat([segment], PathSegments(y + ".docx"));
    assert KeptSegments([segment]) == [];
    assert KeptSegments(PathSegments(tail + ".docx")) == KeptSegments(PathSegments(y + ".docx"));
    FileNameAtSlash(x, y);
    assert KeptSegments(PathSegments(FileName(x + "/" + tail))) == KeptSegments(PathSegments(FileName(x + "/" + y)));
  }

  /** Distinct dossier ids without a slash are written to distinct paths. */
  lemma FilePathInjective(outputDir: string, a: string, b: string)
    requires forall i :: 0 <= i < |a| ==> a[i] != '/'
    requires forall i :: 0 <= i < |b| ==> b[i] != '/'
    requires FilePath(outputDir, a) == FilePath(outputDir, b)
    ensures a == b
  {
    PlainFilePath(outputDir, a);
    PlainFilePath(outputDir, b);
    assert FileName(a) == FilePath(outputDir, a)[|outputDir| + 1..];
    assert FileName(b) == FilePath(outputDir, b)[|outputDir| + 1..];
    FileNameInjective(a, b);
  }

  /** Distinct dossier ids give distinct file names. */
  lemma FileNameInjective(a: string, b: string)
    requires FileName(a) == FileName(b)
    ensures a == b
  {
    var prefix := "Carte_Financement_";
    assert a == FileName(a)[|prefix|..|FileName(a)| - 5];
    assert b == FileName(b)[|prefix|..|FileName(b)| - 5];
  }
}
