/**
 * The document classifier: a catalogue of type names with their categories,
 * the repair applied to whatever the language model answers, and the keyword
 * fallback used when the model is unavailable or fails. The model itself is a
 * parameter: a function from (truncated text, type listing) to its reply.
 */
module Classifier {
  import opened Wrappers
  import opened Text

  /** A row of the document type table: a unique name and its category. */
  datatype TypeRow = TypeRow(name: string, category: string)

  /** The classification record: type, category, confidence and reasoning. */
  datatype DocumentClassification = DocumentClassification(
    documentType: string,
    category: string,
    confidence: real,
    reasoning: string)
  {
    /** The confidence bound the record's schema declares. */
    predicate WellFormed() {
      0.0 <= confidence <= 1.0
    }
  }

  /** The outcome of `classify_document` (its processing time is not modelled). */
  datatype ClassificationResult = ClassificationResult(
    success: bool,
    classification: DocumentClassification,
    errorMessage: Option<string>)

  /** What invoking the structured-output chain does. */
  datatype ModelReply =
    | Classified(result: DocumentClassification)
    | ParseFailure(message: string)    // the output parser rejected the answer
    | Failure(message: string)         // any other exception

  /** The language model, seen from the classifier: (truncated text, type listing) to a reply. */
  type Model = (string, string) -> ModelReply

  const MaxClassifiedChars: nat := 8000
  const UnidentifiedType: string := "Document non identifié"
  const DefaultCategory: string := "Autre"
  const NoChainMessage: string := "Chaîne LangChain non initialisée"

  /** `categories.get(t, "Autre")`. */
  function CategoryOf(categories: map<string, string>, t: string): string {
    if t in categories then categories[t] else DefaultCategory
  }

  /** An entry whose lower-cased name contains "autre". */
  predicate IsOtherEntry(t: string) {
    Contains(Lower(t), "autre")
  }

  /** Case-insensitive containment in either direction. */
  predicate MatchesLoosely(query: string, t: string) {
    Contains(Lower(t), Lower(query)) || Contains(Lower(query), Lower(t))
  }

  /** The first word of `words` longer than three characters that occurs in `textLower`. */
  function FirstPresentWord(words: seq<string>, textLower: string): (r: Option<nat>)
    ensures r.Some? ==> r.value < |words| && |words[r.value]| > 3 && Contains(textLower, words[r.value])
    ensures r.Some? ==> forall j :: 0 <= j < r.value ==> !(|words[j]| > 3 && Contains(textLower, words[j]))
    ensures r.None? ==> forall j :: 0 <= j < |words| ==> !(|words[j]| > 3 && Contains(textLower, words[j]))
  {
    if |words| == 0 then None
    else if |words[0]| > 3 && Contains(textLower, words[0]) then Some(0)
    else match FirstPresentWord(words[1..], textLower)
      case None => None
      case Some(k) => Some(k + 1)
  }

  /** The keyword of type name `t` that the fallback finds in the text, if any. */
  function KeywordHit(t: string, textLower: string): Option<string> {
    var words := SplitWords(Lower(t));
    match FirstPresentWord(words, textLower)
    case None => None
    case Some(k) => Some(words[k])
  }

  /** Index of the first entry at or after `i` that `hit` accepts. */
  function FirstFrom(hit: string -> bool, types: seq<string>, i: nat): (r: Option<nat>)
    requires i <= |types|
    ensures r.Some? ==> i <= r.value < |types| && hit(types[r.value])
    ensures r.Some? ==> forall j :: i <= j < r.value ==> !hit(types[j])
    ensures r.None? ==> forall j :: i <= j < |types| ==> !hit(types[j])
    decreases |types| - i
  {
    if i == |types| then None
    else if hit(types[i]) then Some(i)
    else FirstFrom(hit, types, i + 1)
  }

  /** Index of the first catalogue entry that loosely matches `query`. */
  function FirstLooseMatch(types: seq<string>, query: string): (r: Option<nat>)
    ensures r.Some? ==> r.value < |types| && MatchesLoosely(query, types[r.value])
    ensures r.Some? ==> forall j :: 0 <= j < r.value ==> !MatchesLoosely(query, types[j])
    ensures r.None? ==> forall j :: 0 <= j < |types| ==> !MatchesLoosely(query, types[j])
  {
    FirstFrom(t => MatchesLoosely(query, t), types, 0)
  }

  /** Index of the first catalogue entry containing "autre". */
  function FirstOtherEntry(types: seq<string>): (r: Option<nat>)
    ensures r.Some? ==> r.value < |types| && IsOtherEntry(types[r.value])
    ensures r.Some? ==> forall j :: 0 <= j < r.value ==> !IsOtherEntry(types[j])
    ensures r.None? ==> forall j :: 0 <= j < |types| ==> !IsOtherEntry(types[j])
  {
    FirstFrom(IsOtherEntry, types, 0)
  }

  /** Index of the first catalogue entry with a keyword present in the text. */
  function FirstKeywordEntry(types: seq<string>, textLower: string): (r: Option<nat>)
    ensures r.Some? ==> r.value < |types| && KeywordHit(types[r.value], textLower).Some?
    ensures r.Some? ==> forall j :: 0 <= j < r.value ==> KeywordHit(types[j], textLower).None?
    ensures r.None? ==> forall j :: 0 <= j < |types| ==> KeywordHit(types[j], textLower).None?
  {
    FirstKeywordFrom(types, textLower, 0)
  }

  /** Index of the first entry at or after `i` with a keyword present in the text. */
  function FirstKeywordFrom(types: seq<string>, textLower: string, i: nat): (r: Option<nat>)
    requires i <= |types|
    ensures r.Some? ==> i <= r.value < |types| && KeywordHit(types[r.value], textLower).Some?
    ensures r.Some? ==> forall j :: i <= j < r.value ==> KeywordHit(types[j], textLower).None?
    ensures r.None? ==> forall j :: i <= j < |types| ==> KeywordHit(types[j], textLower).None?
  {
    FirstFrom(t => KeywordHit(t, textLower).Some?, types, i)
  }

  /** The first entry, or the "unidentified" literal for an empty catalogue. */
  function DefaultType(types: seq<string>): string {
    if |types| > 0 then types[0] else UnidentifiedType
  }

  /** What `_find_closest_match` returns. */
  function ClosestMatch(types: seq<string>, query: string): string {
    match FirstLooseMatch(types, query)
    case Some(i) => types[i]
    case None =>
      match FirstOtherEntry(types)
      case Some(i) => types[i]
      case None => DefaultType(types)
  }

  /** What `_fallback_classification` returns. */
  function Fallback(types: seq<string>, categories: map<string, string>, text: string): DocumentClassification {
    var textLower := Lower(text);
    match FirstKeywordEntry(types, textLower)
    case Some(i) =>
      DocumentClassification(types[i], CategoryOf(categories, types[i]), 0.3,
        "Classification de secours par mot-clé: '" + KeywordHit(types[i], textLower).value + "'")
    case None =>
      match FirstOtherEntry(types)
      case Some(i) =>
        DocumentClassification(types[i], CategoryOf(categories, types[i]), 0.2,
          "Classification de secours: Autre")
      case None =>
        DocumentClassification(DefaultType(types), CategoryOf(categories, DefaultType(types)), 0.1,
          "Classification par défaut (erreur LLM)")
  }

  /** What `_validate_and_correct_result` turns a classification into. */
  function Corrected(types: seq<string>, categories: map<string, string>, c: DocumentClassification): DocumentClassification {
    var t := if c.documentType in types then c.documentType else ClosestMatch(types, c.documentType);
    c.(documentType := t,
       category := CategoryOf(categories, t),
       confidence := if 0.0 <= c.confidence <= 1.0 then c.confidence else 0.5)
  }

  /** The repair `classify_document` applies to the model's answer: the first "autre" entry replaces an unknown type. */
  function SubstituteOther(types: seq<string>, categories: map<string, string>, c: DocumentClassification): DocumentClassification {
    if c.documentType in types then c
    else match FirstOtherEntry(types)
      case Some(i) => c.(documentType := types[i], category := CategoryOf(categories, types[i]))
      case None => c
  }

  /** `text[:8000]`. */
  function Truncated(text: string): (r: string)
    ensures |r| <= MaxClassifiedChars && StartsWith(text, r)
    ensures |text| <= MaxClassifiedChars ==> r == text
  {
    if |text| <= MaxClassifiedChars then text else text[..MaxClassifiedChars]
  }

  /** The type listing put in the prompt: one "- name" line per catalogue entry. */
  function TypeListing(types: seq<string>): string {
    Join(seq(|types|, i requires 0 <= i < |types| => "- " + types[i]), "\n")
  }

  function NamesOf(rows: seq<TypeRow>): (names: seq<string>)
    ensures |names| == |rows| && forall i :: 0 <= i < |rows| ==> names[i] == rows[i].name
  {
    seq(|rows|, i requires 0 <= i < |rows| => rows[i].name)
  }

  /** `{row.name: row.category for row in rows}`: a later row with the same name wins. */
  function CategoryMap(rows: seq<TypeRow>): (m: map<string, string>)
    ensures forall t :: t in m <==> t in NamesOf(rows)
    decreases |rows|
  {
    if |rows| == 0 then map[]
    else
      var init := rows[..|rows| - 1];
      assert forall t :: t in NamesOf(rows) <==> t in NamesOf(init) || t == rows[|rows| - 1].name by {
        assert NamesOf(rows) == NamesOf(init) + [rows[|rows| - 1].name];
      }
      CategoryMap(init)[rows[|rows| - 1].name := rows[|rows| - 1].category]
  }

  /** A fallback keyword is a word of the lower-cased type name, longer than three characters, present in the text. */
  lemma KeywordHitOccurs(t: string, textLower: string)
    requires KeywordHit(t, textLower).Some?
    ensures var w := KeywordHit(t, textLower).value;
      IsWord(w) && |w| > 3 && Contains(Lower(t), w) && Contains(textLower, w)
  {
    var words := SplitWords(Lower(t));
    var k := FirstPresentWord(words, textLower).value;
    assert words[k] in words;
  }

  /** A type name whose words are all three characters or shorter never matches by keyword. */
  lemma ShortWordsNeverHit(t: string, textLower: string)
    requires forall w :: w in SplitWords(Lower(t)) ==> |w| <= 3
    ensures KeywordHit(t, textLower).None?
  {
  }

  /** On a non-empty catalogue the closest match is a catalogue entry; on an empty one it is the literal. */
  lemma ClosestMatchInCatalogue(types: seq<string>, query: string)
    ensures |types| > 0 ==> ClosestMatch(types, query) in types
    ensures |types| == 0 ==> ClosestMatch(types, query) == UnidentifiedType
  {
  }

  /** A query that is itself a catalogue entry is its own closest match only if no earlier entry matches it loosely. */
  lemma ClosestMatchOfEntry(types: seq<string>, i: nat)
    requires i < |types|
    requires forall j :: 0 <= j < i ==> !MatchesLoosely(types[i], types[j])
    ensures ClosestMatch(types, types[i]) == types[i]
  {
    assert MatchesLoosely(types[i], types[i]) by {
      ContainsAt(Lower(types[i]), Lower(types[i]), 0);
    }
  }

  /** The correction yields a well-formed record whose category agrees with the catalogue. */
  lemma CorrectedWellFormed(types: seq<string>, categories: map<string, string>, c: DocumentClassification)
    ensures var r := Corrected(types, categories, c);
      r.WellFormed() && r.category == CategoryOf(categories, r.documentType) && r.reasoning == c.reasoning
    ensures |types| > 0 ==> Corrected(types, categories, c).documentType in types
  {
    ClosestMatchInCatalogue(types, c.documentType);
  }

  /** Correcting an already corrected record changes nothing. */
  lemma CorrectedIdempotent(types: seq<string>, categories: map<string, string>, c: DocumentClassification)
    ensures Corrected(types, categories, Corrected(types, categories, c)) == Corrected(types, categories, c)
  {
    CorrectedWellFormed(types, categories, c);
  }

  /**
   * The fallback always yields a well-formed record whose category comes from
   * the catalogue; its confidence is 0.3 exactly when some entry has a keyword
   * in the text, and 0.1 exactly when neither a keyword nor an "autre" entry
   * is found.
   */
  lemma FallbackProperties(types: seq<string>, categories: map<string, string>, text: string)
    ensures var r := Fallback(types, categories, text);
      r.WellFormed() && r.category == CategoryOf(categories, r.documentType)
      && (|types| > 0 ==> r.documentType in types)
      && (|types| == 0 ==> r.documentType == UnidentifiedType && r.confidence == 0.1)
    ensures Fallback(types, categories, text).confidence == 0.3
      <==> exists j :: 0 <= j < |types| && KeywordHit(types[j], Lower(text)).Some?
    ensures Fallback(types, categories, text).confidence == 0.1
      <==> (forall j :: 0 <= j < |types| ==> KeywordHit(types[j], Lower(text)).None? && !IsOtherEntry(types[j]))
  {
    var textLower := Lower(text);
    match FirstKeywordEntry(types, textLower)
    case Some(i) =>
      assert KeywordHit(types[i], textLower).Some?;
    case None =>
      match FirstOtherEntry(types)
      case Some(i) =>
        assert IsOtherEntry(types[i]);
      case None =>
  }

  /**
   * The repair of the model's answer only ever changes the type and the
   * category, and changes nothing when the type is known or the catalogue
   * has no "autre" entry; the repaired type is in the catalogue exactly when
   * the answer's type already was or the catalogue has an "autre" entry.
   */
  lemma SubstituteOtherProperties(types: seq<string>, categories: map<string, string>, c: DocumentClassification)
    ensures var r := SubstituteOther(types, categories, c);
      r.confidence == c.confidence && r.reasoning == c.reasoning
      && (c.documentType in types || FirstOtherEntry(types).None? ==> r == c)
      && (r.documentType in types <==> c.documentType in types || FirstOtherEntry(types).Some?)
  {
  }

  class LlmClassifier {
    /** The catalogue, in the order the type table returns it. */
    var documentTypes: seq<string>
    /** Type name to category. */
    var categories: map<string, string>
    /** Whether the model chain was built (an API key was configured). */
    const hasChain: bool

    /** Builds the classifier and loads the catalogue; `rows` is `None` when loading raises. */
    constructor(apiKeyPresent: bool, rows: Option<seq<TypeRow>>)
      ensures hasChain == apiKeyPresent
      ensures rows.None? ==> documentTypes == [] && categories == map[]
      ensures rows.Some? ==> documentTypes == NamesOf(rows.value) && categories == CategoryMap(rows.value)
    {
      hasChain := apiKeyPresent;
      if rows.Some? {
        documentTypes := NamesOf(rows.value);
        categories := CategoryMap(rows.value);
      } else {
        documentTypes := [];
        categories := map[];
      }
    }

    /** Replaces the catalogue from the type table; a failed load leaves it empty. */
    method LoadDocumentTypes(rows: Option<seq<TypeRow>>)
      modifies this
      ensures rows.None? ==> documentTypes == [] && categories == map[]
      ensures rows.Some? ==> documentTypes == NamesOf(rows.value) && categories == CategoryMap(rows.value)
    {
      if rows.Some? {
        documentTypes := NamesOf(rows.value);
        categories := CategoryMap(rows.value);
      } else {
        documentTypes := [];
        categories := map[];
      }
    }

    /** Reloads the catalogue: the same as the initial load. */
    method ReloadDocumentTypes(rows: Option<seq<TypeRow>>)
      modifies this
      ensures rows.None? ==> documentTypes == [] && categories == map[]
      ensures rows.Some? ==> documentTypes == NamesOf(rows.value) && categories == CategoryMap(rows.value)
    {
      LoadDocumentTypes(rows);
    }

    /** A copy of the catalogue: a value, so later changes to it cannot reach the classifier. */
    method GetSupportedTypes() returns (r: seq<string>)
      ensures r == documentTypes
    {
      r := documentTypes;
    }

    /** A copy of the category map. */
    method GetCategories() returns (r: map<string, string>)
      ensures r == categories
    {
      r := categories;
    }

    /** Scans the catalogue for the first entry containing "autre". */
    method FindOtherEntry() returns (r: Option<nat>)
      ensures r == FirstOtherEntry(documentTypes)
    {
      var i := 0;
      while i < |documentTypes|
        invariant 0 <= i <= |documentTypes|
        invariant forall j :: 0 <= j < i ==> !IsOtherEntry(documentTypes[j])
      {
        if Contains(Lower(documentTypes[i]), "autre") {
          return Some(i);
        }
        i := i + 1;
      }
      return None;
    }

    /**
     * `_find_closest_match`: the first entry that contains, or is contained in,
     * the query (case-insensitively); else the first "autre" entry; else the
     * first entry; else the "unidentified" literal.
     */
    method FindClosestMatch(documentType: string) returns (r: string)
      ensures r == ClosestMatch(documentTypes, documentType)
      ensures |documentTypes| > 0 ==> r in documentTypes
      ensures |documentTypes| == 0 ==> r == UnidentifiedType
    {
      var query := Lower(documentType);
      var i := 0;
      while i < |documentTypes|
        invariant 0 <= i <= |documentTypes|
        invariant forall j :: 0 <= j < i ==> !MatchesLoosely(documentType, documentTypes[j])
      {
        var candidate := Lower(documentTypes[i]);
        if Contains(candidate, query) || Contains(query, candidate) {
          return documentTypes[i];
        }
        i := i + 1;
      }
      var other := FindOtherEntry();
      if other.Some? {
        return documentTypes[other.value];
      }
      r := if |documentTypes| > 0 then documentTypes[0] else UnidentifiedType;
    }

    /**
     * `_fallback_classification`: keyword search over the catalogue, then the
     * "autre" entry, then the default entry, with falling confidence.
     */
    /** The inner keyword loop of the fallback: the first word longer than three characters found in the text. */
    static method FindKeyword(keywords: seq<string>, textLower: string) returns (r: Option<nat>)
      ensures r == FirstPresentWord(keywords, textLower)
    {
      var k := 0;
      while k < |keywords|
        invariant 0 <= k <= |keywords|
        invariant forall j :: 0 <= j < k ==> !(|keywords[j]| > 3 && Contains(textLower, keywords[j]))
      {
        if |keywords[k]| > 3 && Contains(textLower, keywords[k]) {
          return Some(k);
        }
        k := k + 1;
      }
      return None;
    }

    method FallbackClassification(text: string) returns (r: DocumentClassification)
      ensures r == Fallback(documentTypes, categories, text)
    {
      var textLower := Lower(text);
      var i := 0;
      while i < |documentTypes|
        invariant 0 <= i <= |documentTypes|
        invariant FirstKeywordFrom(documentTypes, textLower, i) == FirstKeywordEntry(documentTypes, textLower)
      {
        var docType := documentTypes[i];
        var keywords := SplitWords(Lower(docType));
        var hit := FindKeyword(keywords, textLower);
        if hit.Some? {
          var keyword := keywords[hit.value];
          return DocumentClassification(docType, CategoryOf(categories, docType), 0.3,
            "Classification de secours par mot-clé: '" + keyword + "'");
        }
        i := i + 1;
      }
      var other := FindOtherEntry();
      if other.Some? {
        var docType := documentTypes[other.value];
        return DocumentClassification(docType, CategoryOf(categories, docType), 0.2,
          "Classification de secours: Autre");
      }
      var defaultType := if |documentTypes| > 0 then documentTypes[0] else UnidentifiedType;
      r := DocumentClassification(defaultType, CategoryOf(categories, defaultType), 0.1,
        "Classification par défaut (erreur LLM)");
    }

    /**
     * `_validate_and_correct_result`: a type outside the catalogue is replaced
     * by its closest match, the category is always reset from the catalogue,
     * and a confidence outside [0, 1] becomes 0.5.
     */
    method ValidateAndCorrectResult(result: DocumentClassification) returns (r: DocumentClassification)
      ensures result.documentType in documentTypes ==> r.documentType == result.documentType
      ensures result.documentType !in documentTypes ==> r.documentType == ClosestMatch(documentTypes, result.documentType)
      ensures r.category == CategoryOf(categories, r.documentType)
      ensures r.confidence == if 0.0 <= result.confidence <= 1.0 then result.confidence else 0.5
      ensures r.reasoning == result.reasoning
      ensures r == Corrected(documentTypes, categories, result)
    {
      r := result;
      if r.documentType !in documentTypes {
        var bestMatch := FindClosestMatch(r.documentType);
        r := r.(documentType := bestMatch);
      }
      var expectedCategory := CategoryOf(categories, r.documentType);
      if r.category != expectedCategory {
        r := r.(category := expectedCategory);
      }
      if !(0.0 <= r.confidence <= 1.0) {
        r := r.(confidence := 0.5);
      }
    }

    /**
     * `classify_document`: the model sees at most the first 8000 characters;
     * an unknown type in its answer is replaced by the first "autre" entry;
     * without a chain, or when the call fails, the keyword fallback runs on
     * the whole text and the result records the error.
     */
    method ClassifyDocument(text: string, model: Model) returns (r: ClassificationResult)
      ensures !hasChain ==> r == ClassificationResult(false, Fallback(documentTypes, categories, text), Some(NoChainMessage))
      ensures hasChain ==>
        var reply := model(Truncated(text), TypeListing(documentTypes));
        match reply
        case Classified(c) => r == ClassificationResult(true, SubstituteOther(documentTypes, categories, c), None)
        case ParseFailure(msg) =>
          r == ClassificationResult(false, Fallback(documentTypes, categories, text), Some("Erreur parsing: " + msg))
        case Failure(msg) => r == ClassificationResult(false, Fallback(documentTypes, categories, text), Some(msg))
    {
      if !hasChain {
        var fallback := FallbackClassification(text);
        return ClassificationResult(false, fallback, Some(NoChainMessage));
      }
      var truncatedText := if |text| <= MaxClassifiedChars then text else text[..MaxClassifiedChars];
      var documentTypesStr := TypeListing(documentTypes);
      var reply := model(truncatedText, documentTypesStr);
      match reply {
        case Classified(c) =>
          var result := c;
          if result.documentType !in documentTypes {
            var other := FindOtherEntry();
            if other.Some? {
              var docType := documentTypes[other.value];
              result := result.(documentType := docType, category := CategoryOf(categories, docType));
            }
          }
          r := ClassificationResult(true, result, None);
        case ParseFailure(msg) =>
          var fallback := FallbackClassification(text);
          r := ClassificationResult(false, fallback, Some("Erreur parsing: " + msg));
        case Failure(msg) =>
          var fallback := FallbackClassification(text);
          r := ClassificationResult(false, fallback, Some(msg));
      }
    }
  }
}
