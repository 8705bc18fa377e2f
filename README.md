# Carte de Financement — a verified model of the decision logic

The application reads scanned administrative and financial documents and classifies each one
against a catalogue of document types. It merges their extracted fields into a borrower's
financing card ("Carte de Financement") and renders that card as a Word document. This project
models the deterministic logic that sits between the external calls:

- **Classifier** (`classifier.dfy`, `LlmClassifier`). It loads the catalogue of type names and
  categories. It repairs whatever the language model answers: the first "autre" entry replaces an
  unknown type, `_validate_and_correct_result` finds the closest match, overwrites the category
  and resets an out-of-range confidence. When the model is missing or fails, it falls back to a
  keyword search over the catalogue.
- **Synthesis routing** (`synthesis_routing.dfy`, `_prepare_documents_data`). Each fetched document
  is filed into one of six sections: by detected category first, then by type-name heuristics,
  with the borrower section as the residual default.
- **Synthesis enrichment** (`synthesis_enrichment.dfy`, `_enhance_documents_data`). It does four
  things:
  - it merges the borrower identity and the project fields;
  - it estimates monthly income from the fiscal reference income;
  - it totals the movable assets written as euro amounts ("12 500 €");
  - it re-wraps the company list.
- **Synthesis flow** (`synthesis.dfy`, `generate_synthesis`). It prepares and enriches the data,
  calls the model, stamps the traceability fields, stores the card and maps each exception to its
  error message.
- **Word report** (`word_report.dfy`, `WordDocumentGenerator`). `_safe_get` is modelled, and so is
  the ordered, conditional sequence of headings, paragraphs and table rows that
  `generate_word_document` appends to a python-docx document. The document is modelled as an
  append-only list of blocks. A text handed to python-docx is written the way python-docx iterates
  it: a list item by item, a dictionary key by key. The file path is built as `pathlib` builds it.
- **API** (`api.dfy`). `POST /upload` checks readiness, extension and size, then writes, extracts,
  classifies and stores, removing the file on failure. `GET /stats` counts the documents per
  category and summarises the five most recent.

Shared pieces:

- `values.dfy`: JSON-like values, and dictionaries as insertion-ordered association lists.
  Assigning to an existing key keeps its position, as Python's `dict` does.
- `text.dfy`: the `str` methods the code relies on.
- `amounts.dfy`: `float()` on plain decimals, `int()` truncation, half-to-even rounding and
  thousands grouping.
- `wrappers.dfy`: `Option` and `Result`.

The language model, OCR, the database, the clock and the file system are parameters: total
functions from their inputs to a value or an exception. Each operation that the code performs
step by step (the catalogue load, the merge and sum loops, the report writer, the upload with its
directory, the statistics loop) is a method. Each method is proved equal to a specification
function, and the promised properties are proved about those functions as lemmas.

Three behaviours of the code are worth stating plainly, because the model keeps them as written:

- The income section keeps the last fiscal reference income and estimate it sees
  (services/synthesis_generator.py:229-255), rather than merging first-set values the way the
  project section does (line 336). See `SynthesisEnrichment.IncomeIsLast`.
- The monthly estimate is `int()` of the income divided by 12, truncated toward zero
  (services/synthesis_generator.py:248).
- An answer whose type is not in the catalogue is replaced by the first "autre" entry. When the
  catalogue has no such entry, the unknown type is returned unchanged
  (services/llm_classifier.py:121-128).

The two defects listed under Findings are also modelled as written in the flow: the identity merge
(services/synthesis_generator.py:211-214) copies no identity key, and a model `ValidationError`
is reported as a data error (lines 505-523). The intended versions are separate definitions
(`SynthesisEnrichment.IdentityInfo`, `Synthesis.ErrorMessage`) with their properties proved.

## Model

| member | source | states |
|---|---|---|
| Classifier.LlmClassifier.constructor | services/llm_classifier.py:22-82 | the chain exists exactly when an API key is configured; the catalogue is the names of the loaded rows in order and the category map is built from them, or both are empty when loading fails |
| Classifier.LlmClassifier.LoadDocumentTypes | services/llm_classifier.py:62-82 | the type list is the row names in table order and the map sends each name to its category (a later duplicate wins); a failed load leaves both empty |
| Classifier.LlmClassifier.ReloadDocumentTypes | services/llm_classifier.py:280-286 | reloading sets the same state as the initial load |
| Classifier.NamesOf | services/llm_classifier.py:73 | one name per row, in row order |
| Classifier.CategoryMap | services/llm_classifier.py:74 | the map's keys are exactly the names of the rows |
| Classifier.LlmClassifier.GetSupportedTypes | services/llm_classifier.py:262-269 | returns the catalogue as a value, leaving the classifier's state unchanged |
| Classifier.LlmClassifier.GetCategories | services/llm_classifier.py:271-278 | returns the category map as a value, leaving the classifier's state unchanged |
| Classifier.FirstFrom | services/llm_classifier.py:201-208 | the first-match scan: the result is the first index at or after the start that the test accepts, and None means no index there is accepted |
| Classifier.FirstLooseMatch | services/llm_classifier.py:198-203 | the first entry whose lower-cased name contains, or is contained in, the lower-cased query; no earlier entry matches; None when none does |
| Classifier.FirstOtherEntry | services/llm_classifier.py:206-208 | the first entry whose lower-cased name contains "autre"; no earlier entry does; None when none does |
| Classifier.FirstPresentWord | services/llm_classifier.py:231-232 | the first word longer than three characters that occurs in the text; no earlier word qualifies |
| Classifier.FirstKeywordEntry | services/llm_classifier.py:227-239 | the first catalogue entry with a keyword in the text; every earlier entry has none; None exactly when no entry has one |
| Classifier.FirstKeywordFrom | services/llm_classifier.py:227-232 | the same search from a given position, the loop invariant of the fallback |
| Classifier.LlmClassifier.FindOtherEntry | services/llm_classifier.py:205-208 | the loop returns the first "autre" entry of the catalogue |
| Classifier.LlmClassifier.FindClosestMatch | services/llm_classifier.py:188-211 | the loops return the first loose match, else the first "autre" entry, else the first entry, else "Document non identifié"; the result is a catalogue entry whenever the catalogue is non-empty |
| Classifier.ClosestMatchInCatalogue | services/llm_classifier.py:205-211 | the closest match is a catalogue member on a non-empty catalogue and the literal "Document non identifié" only on an empty one |
| Classifier.ClosestMatchOfEntry | services/llm_classifier.py:198-203 | an entry is its own closest match when no earlier entry matches it loosely |
| Classifier.LlmClassifier.FallbackClassification | services/llm_classifier.py:213-260 | the loops return the keyword, "autre" or default classification, with confidence 0.3, 0.2 or 0.1 and the category read with default "Autre" |
| Classifier.KeywordHitOccurs | services/llm_classifier.py:224-232 | a fallback keyword is a whitespace-free word of the lower-cased type name, longer than three characters, that occurs in the lower-cased text |
| Classifier.ShortWordsNeverHit | services/llm_classifier.py:232 | a type name whose words are all three characters or shorter never matches by keyword |
| Classifier.FallbackProperties | services/llm_classifier.py:213-260 | the fallback always yields a record within the confidence bound with the catalogue's category; its type is a catalogue member on a non-empty catalogue; confidence is 0.3 exactly when some entry has a keyword in the text, and 0.1 exactly when no entry has a keyword or contains "autre" |
| Classifier.LlmClassifier.ValidateAndCorrectResult | services/llm_classifier.py:160-186 | the in-place corrections give the corrected record: closest match for an unknown type, the catalogue's category, 0.5 for a confidence outside [0, 1] |
| Classifier.CorrectedWellFormed | services/llm_classifier.py:170-186 | after correction the confidence is in [0, 1], the category is the catalogue's (default "Autre"), the reasoning is kept, and the type is a catalogue member when the catalogue is non-empty |
| Classifier.CorrectedIdempotent | services/llm_classifier.py:160-186 | correcting a corrected record changes nothing |
| Classifier.Truncated | services/llm_classifier.py:108 | the text sent to the model is a prefix of at most 8000 characters, the whole text when it is that short |
| Classifier.LlmClassifier.ClassifyDocument | services/llm_classifier.py:84-158 | the model sees the first 8000 characters and the type listing; a reply is repaired by the "autre" substitution with success; a parse failure, another exception or a missing chain gives success false, the keyword fallback on the whole text and the matching error message |
| Classifier.SubstituteOtherProperties | services/llm_classifier.py:121-128 | the repair changes only type and category; a known type, or a catalogue without an "autre" entry, leaves the answer unchanged; the repaired type is in the catalogue exactly when the answer's was or an "autre" entry exists |
| Text.Lower | services/llm_classifier.py:198 | lower-casing keeps the length and maps each character on its own |
| Text.SplitWords | services/llm_classifier.py:230 | every word of `split()` is non-empty, free of whitespace and occurs in the string; there are no words exactly when the string is whitespace only |
| Text.SplitWordsLayout | services/llm_classifier.py:230 | the string is its `split()` words separated by whitespace runs, non-empty between two words |
| Text.SplitWordsUnique | services/llm_classifier.py:230 | any way of reading the string as words separated by whitespace runs has exactly the `split()` words: they are the maximal non-whitespace runs, in order |
| Text.TrimStart | main.py:90 | the stripped text is a suffix that starts with a non-space character, or is empty, and everything removed before it is whitespace |
| Text.TrimEnd | main.py:90 | the stripped text is a prefix that ends with a non-space character, or is empty, and everything removed after it is whitespace |
| Text.StripEmptyIffBlank | main.py:90 | `s.strip()` is empty exactly when `s` is whitespace only |
| Text.RemoveCharRemovesAll | services/synthesis_generator.py:246 | `replace(c, "")` leaves no `c` behind |
| Values.Get | services/synthesis_generator.py:193 | `m.get(k)` finds a value exactly when the key is present, and the value is the one stored under it |
| Values.Put | services/synthesis_generator.py:99 | assignment adds an entry only for a new key |
| Values.PutGetSame | services/synthesis_generator.py:99 | after `m[k] = v`, reading `k` gives `v` |
| Values.PutGetOther | services/synthesis_generator.py:99 | `m[k] = v` leaves every other key's value unchanged |
| Values.PutKeys | services/synthesis_generator.py:99 | an existing key keeps its position; a new key goes last |
| Values.PyStr | services/word_generator.py:69 | `str()` of a string is the string itself, and of any other value (its `repr`) is never empty |
| Values.StrReprProperties | services/word_generator.py:69 | `repr` of a string (inside a list or dict) uses `"` exactly when the string holds a `'` and no `"`, else `'`; the quoted text reads back as the string; printable text without `'` or backslash is quoted unchanged |
| Values.UnescapeEscaped | services/word_generator.py:69 | the escapes `repr` writes (backslash, the quote, `\t`, `\n`, `\r`, `\xNN`) read back to the original characters |
| Values.EscapedPlain | services/word_generator.py:69 | printable characters other than the quote and backslash are written as they are |
| Values.ReprApostropheExample | services/word_generator.py:69 | `repr("Appartement à l'étage")` is the text in double quotes |
| Amounts.Truncate | services/synthesis_generator.py:248 | `int(x)` truncates toward zero: the result is within one of `x`, on its side of zero |
| Amounts.RoundHalfEven | services/synthesis_generator.py:290 | `.0f` rounds to within one half, and a tie goes to the even integer |
| Amounts.NatToStringValue | services/synthesis_generator.py:247 | the decimal rendering of n is all digits and reads back as n |
| Amounts.ParseNatToString | services/synthesis_generator.py:247 | `float(str(n)) == n` for a natural number |
| Amounts.ParseIntToString | services/synthesis_generator.py:247 | `float(str(i)) == i` for an integer |
| Amounts.ParseFloatDecimal | services/synthesis_generator.py:281 | `float("<whole>.<frac>")` is the decimal value of the two digit runs |
| Amounts.ParseDecimal | services/synthesis_generator.py:281 | `float("<n>.<cc>")` is n + cc/100 |
| Amounts.GroupedNatWithoutSeparators | services/synthesis_generator.py:246 | removing the separators from a grouped number gives its plain rendering |
| Amounts.GroupedNatCommaToSpace | services/synthesis_generator.py:248 | `f"{n:,}".replace(",", " ")` is the grouping with spaces |
| Amounts.GroupedNatChars | services/synthesis_generator.py:248 | a grouped number holds only digits and the separator |
| SynthesisRouting.PrepareDocumentsData | services/synthesis_generator.py:55-177 | no fetched document gives the "Aucun document trouvé…" error; otherwise the loop gives the prepared data: each document labelled in order, and each non-empty extraction filed in the section its category or type selects |
| SynthesisRouting.SourceLabels | services/synthesis_generator.py:87 | one "type (filename)" label per document, in order |
| SynthesisRouting.SourcesListEveryDocument | services/synthesis_generator.py:85-92 | the sources list has exactly one label per fetched document, in order, including those with an empty extraction |
| SynthesisRouting.PlaceAddsLabel | services/synthesis_generator.py:87 | each document appends exactly its own label |
| SynthesisRouting.CompaniesInDocumentOrder | services/synthesis_generator.py:110-115 | the company list holds a `{type, data, category}` entry for every company document with an extraction, in document order |
| SynthesisRouting.SectionHoldsLastRouted | services/synthesis_generator.py:98-118 | in each section keyed by type, the entry for a type is the extraction of the last document of that type routed there |
| SynthesisRouting.CategoryTakesPrecedence | services/synthesis_generator.py:98-121 | a known category decides the section, whatever the type name says |
| SynthesisRouting.TaxNoticeOfPartnerGoesToBorrower | services/synthesis_generator.py:98-128 | "Avis d'imposition T+N-1" in category "Associés" goes to the borrower; with no category it goes to income |
| SynthesisEnrichment.FieldsValue | services/synthesis_generator.py:198-208 | a dictionary without "extracted_fields" is its own field set |
| SynthesisEnrichment.ValuesOf | services/synthesis_generator.py:197 | `.values()` gives one value per entry, in order |
| SynthesisEnrichment.FirstSetValue | services/synthesis_generator.py:335-337 | the value found for a key is never "Non spécifié" |
| SynthesisEnrichment.MergeEntryLookup | services/synthesis_generator.py:336-337 | one merge step never replaces a set value, leaves other keys alone, and fills an unset key |
| SynthesisEnrichment.MergeLookup | services/synthesis_generator.py:335-337 | merging never replaces a set value; an unset key takes the first value other than "Non spécifié"; without one it stays unset |
| SynthesisEnrichment.MergeEntriesConcat | services/synthesis_generator.py:322-337 | merging two batches of entries is merging one after the other |
| SynthesisEnrichment.MergeHasKey | services/synthesis_generator.py:335-337 | after merging, a key is present exactly when it was already present or some entry carries it |
| SynthesisEnrichment.MergeInto | services/synthesis_generator.py:335-337 | the loop over one field dictionary performs the merge |
| SynthesisEnrichment.ProjectFirstSetWins | services/synthesis_generator.py:319-342 | in the merged project fields the first value other than "Non spécifié" wins, and a key is present exactly when some extraction has it |
| SynthesisEnrichment.MergeProject | services/synthesis_generator.py:319-342 | the project loop computes the merged project fields |
| SynthesisEnrichment.IdentityEntries | services/synthesis_generator.py:211-214 | only identity keys are taken from an extraction |
| SynthesisEnrichment.IdentityEntriesLookup | services/synthesis_generator.py:211-214 | one extraction offers its own value for a listed key, unless that value is "Non spécifié" |
| SynthesisEnrichment.IdentityFirstSetWins | services/synthesis_generator.py:193-223 | corrected merge (not what the code computes): each identity key holds the first value other than "Non spécifié" any borrower extraction gives it, else it stays unset |
| SynthesisEnrichment.IdentityAddressIsLast | services/synthesis_generator.py:217-218 | in the corrected merge, `adresse_complete` is the dictionary address of the last extraction that has one; the address step is the same as written |
| SynthesisEnrichment.MergeIdentityKeys | services/synthesis_generator.py:211-214 | the key loop as written: a key of the extraction is copied only when the merged identity already holds "Non spécifié" for it |
| SynthesisEnrichment.MergeIdentity | services/synthesis_generator.py:193-223 | the borrower loop computes the identity as written: the guarded key loop, then the address, for each extraction in order |
| SynthesisEnrichment.GuardedKeysNoop | services/synthesis_generator.py:213 | as written, the guard copies nothing while no key holds "Non spécifié" |
| SynthesisEnrichment.IdentityAsWrittenHoldsOnlyAddress | services/synthesis_generator.py:194-218 | as written, the merged identity is empty or holds only `adresse_complete`, the address of the last extraction that has one |
| SynthesisEnrichment.IdentityNameDropped | services/synthesis_generator.py:211-214 | as written, an extraction naming "Dupont" leaves no name; the corrected merge keeps it |
| SynthesisEnrichment.SpacedEurosGrouping | services/synthesis_generator.py:248 | the rendered amount is the number grouped with spaces, then " €" |
| SynthesisEnrichment.CleanGroupedEuros | services/synthesis_generator.py:246 | cleaning "<grouped n> €" leaves the plain digits of n |
| SynthesisEnrichment.CleanGroupedEurosCents | services/synthesis_generator.py:279 | cleaning "<grouped n>,<cc> €" gives "<n>.<cc>" |
| SynthesisEnrichment.IncomeIsLast | services/synthesis_generator.py:229-255 | the fiscal income and the estimate come from the last extraction that gives one; a failed parse keeps the previous estimate |
| SynthesisEnrichment.MonthlyEstimateOfGrouped | services/synthesis_generator.py:242-250 | an income written "<grouped n> €" is estimated at "<grouped n/12> €", the twelfth truncated |
| SynthesisEnrichment.MonthlyEstimateOfReadable | services/synthesis_generator.py:245-248 | a text that reads as x once cleaned is estimated at a twelfth of x |
| SynthesisEnrichment.TwelfthOfWhole | services/synthesis_generator.py:248 | the twelfth of a whole amount is rendered from the integer quotient |
| SynthesisEnrichment.TwelfthTruncated | services/synthesis_generator.py:248 | `int(n / 12)` on a whole amount is the integer quotient |
| SynthesisEnrichment.EstimateIncome | services/synthesis_generator.py:225-255 | the income loop computes the income summary |
| SynthesisEnrichment.AmountOfWholeEuros | services/synthesis_generator.py:276-282 | "<grouped n> €" counts for n |
| SynthesisEnrichment.AmountOfEurosCents | services/synthesis_generator.py:276-282 | "<grouped n>,<cc> €" counts for n + cc/100 |
| SynthesisEnrichment.SentinelIsNoAmount | services/synthesis_generator.py:276 | "Non spécifié" counts for nothing |
| SynthesisEnrichment.WithoutEuroNoAmount | services/synthesis_generator.py:276 | text with no "€" and no "euros" in any case counts for nothing |
| SynthesisEnrichment.WholeEurosExample | services/synthesis_generator.py:276-282 | "12 500 €" counts for 12500 |
| SynthesisEnrichment.EurosCentsExample | services/synthesis_generator.py:276-282 | "3 200,50 €" counts for 3200.5 |
| SynthesisEnrichment.FieldsTotalOfThree | services/synthesis_generator.py:275-284 | the total of three fields is the sum of their amounts, values that do not parse counting zero |
| SynthesisEnrichment.MovableTotalExample | services/synthesis_generator.py:261-284 | "12 500 €", "3 200,50 €" and "Non spécifié" sum to 15700.5 |
| SynthesisEnrichment.TotalTextExample | services/synthesis_generator.py:289-290 | a total of 15700.5 is written "15 700 €" |
| SynthesisEnrichment.SumMovableAssets | services/synthesis_generator.py:257-290 | the nested loops compute the sum of the amounts of every field of every extraction |
| SynthesisEnrichment.TotalWrittenOnlyWhenPositive | services/synthesis_generator.py:289-290 | `total_calcule` is present exactly when the sum is positive, and is then the rounded sum grouped with spaces plus " €" |
| SynthesisEnrichment.CompanyFieldsOfRouted | services/synthesis_generator.py:293-310 | the merged company data are the field sets of the routed company documents, in document order |
| SynthesisEnrichment.MergeCompanies | services/synthesis_generator.py:292-316 | the company loop computes the merged company list |
| SynthesisEnrichment.EnhancedKeepsExtractions | services/synthesis_generator.py:189-344 | every key of every section other than the one the pass adds keeps its value |
| SynthesisEnrichment.EnhanceDocumentsData | services/synthesis_generator.py:179-344 | the section loops in order produce the enriched data: the identity as written, the last income, the movable total, the re-wrapped companies and the first-set project fields |
| Synthesis.GenerateSynthesis | services/synthesis_generator.py:429-533 | the flow gives the outcome of preparing, enriching (identity as written), calling the model, stamping and storing; each exception gets the message of the first handler that catches it, as the handlers are ordered |
| Synthesis.TracedFields | services/synthesis_generator.py:477-480 | the card reads back the dossier id, the date and the joined sources; every other field is the model's |
| Synthesis.SuccessIff | services/synthesis_generator.py:441-503 | a generation succeeds exactly when documents were fetched, the model answered and the insert answered |
| Synthesis.ReportedGeneratedIff | services/synthesis_generator.py:473-503 | once data are prepared, success is exactly a model answer followed by a successful insert |
| Synthesis.GeneratedCardIsTraced | services/synthesis_generator.py:476-503 | a generated card carries the dossier id, the date and one source label per fetched document; it is stored with confidence 0.85 under the returned id and reports the number of requested ids |
| Synthesis.NoDocumentsIsDataError | services/synthesis_generator.py:505-513 | nothing fetched gives the data error naming the missing documents |
| Synthesis.ModelErrorIsReported | services/synthesis_generator.py:505-533 | a model exception becomes the message of the first handler that catches it (a validation error is caught by `except ValueError`), and nothing is stored |
| Synthesis.ValidationErrorReportedAsDataError | services/synthesis_generator.py:505-523 | as written, a validation error is reported with the data-error prefix, never the validation prefix |
| Synthesis.ErrorKindsDistinguished | services/synthesis_generator.py:505-533 | corrected handlers (not what the code does): they tell the three error kinds apart by prefix, and differ from the code as written only on validation errors |
| WordReport.SafeGet | services/word_generator.py:54-69 | the result is never empty, and is "Non spécifié" for a missing key |
| WordReport.SafeGetNotSpecifiedIff | services/word_generator.py:66-69 | the result is "Non spécifié" exactly when the key is missing, the value is None or "", or the value is that string; otherwise it is the value's `str` |
| WordReport.ReprNotSentinel | services/word_generator.py:69 | no value other than a string prints as "Non spécifié" |
| WordReport.Rule | services/word_generator.py:107 | the separator is 80 underscores |
| WordReport.Lines | services/word_generator.py:115-120 | one paragraph per label, in order, the j-th reading "label : value" for the j-th label |
| WordReport.Document.constructor | services/word_generator.py:88 | a new document has no blocks |
| WordReport.Document.AddHeading | services/word_generator.py:33 | a heading is appended and nothing else changes |
| WordReport.Document.AddParagraph | services/word_generator.py:48 | a paragraph is appended and nothing else changes |
| WordReport.Document.AddRow | services/word_generator.py:261-263 | a table row is appended and nothing else changes |
| WordReport.WordDocumentGenerator.constructor | services/word_generator.py:17-22 | documents go to "generated_documents" with the card's layout |
| WordReport.WordDocumentGenerator.AddHeader | services/word_generator.py:90-108 | appends the title, the dossier line, the generation date and the rule |
| WordReport.WordDocumentGenerator.AddLines | services/word_generator.py:115-120 | the loop appends one "label : value" paragraph per label |
| WordReport.WordDocumentGenerator.AddUnspecified | services/word_generator.py:121-124 | an empty section appends its heading, "Non spécifié" and a blank paragraph |
| WordReport.WordDocumentGenerator.AddFieldSection | services/word_generator.py:110-124 | writes sections 1, 3, 4 and 5, or reports the exception |
| WordReport.WordDocumentGenerator.AddIdentity | services/word_generator.py:132-143 | writes the identity sub-section when present |
| WordReport.WordDocumentGenerator.AddFamily | services/word_generator.py:146-151 | writes the family sub-section when the situation is specified |
| WordReport.WordDocumentGenerator.AddAddress | services/word_generator.py:154-161 | writes the address sub-section when it is a non-empty dictionary |
| WordReport.WordDocumentGenerator.AddProfile | services/word_generator.py:126-165 | writes section 2, or reports the exception |
| WordReport.WordDocumentGenerator.AddCompany | services/word_generator.py:219-227 | writes one numbered company, or reports the `.get` error |
| WordReport.WordDocumentGenerator.AddCompanyList | services/word_generator.py:217-227 | the loop writes the companies in order and stops at the first exception |
| WordReport.WordDocumentGenerator.AddCompanies | services/word_generator.py:213-230 | writes section 6, or reports the exception |
| WordReport.WordDocumentGenerator.AddTable | services/word_generator.py:254-263 | the loop appends one row per financing item, with the amount as python-docx writes it, and stops at the first exception |
| WordReport.WordDocumentGenerator.AddPlan | services/word_generator.py:232-268 | writes section 7 with its table, or reports the exception |
| WordReport.WordDocumentGenerator.AddPoints | services/word_generator.py:282-291 | writes a points block when it is shown |
| WordReport.WordDocumentGenerator.AddAnalysis | services/word_generator.py:270-295 | writes section 8, or reports the exception |
| WordReport.WordDocumentGenerator.AddSources | services/word_generator.py:297-301 | writes the sources heading and, when the sources are truthy, the paragraph python-docx makes of them: a string as is, a list item by item, a dictionary key by key, anything else an exception |
| WordReport.NamesWrittenJoined | services/word_generator.py:301 | a list of names, none empty or "\r\n", is written as the names run together |
| WordReport.DictWrittenAsKeys | services/word_generator.py:301 | a dictionary is written as its keys run together |
| WordReport.ItemsTextFailsAtFirstNonString | services/word_generator.py:301 | the first list item that is not a string raises python-docx's `'in <string>'` error |
| WordReport.SourcesListWritten | services/word_generator.py:297-301 | a non-empty list of source names gives the heading and one paragraph of the names run together |
| WordReport.WordDocumentGenerator.AddFooter | services/word_generator.py:303-309 | appends the blank paragraph, the rule and the footer line |
| WordReport.WordDocumentGenerator.AddFirstSections | services/word_generator.py:110-211 | writes sections 1 to 5 in order, stopping at the first exception |
| WordReport.WordDocumentGenerator.AddLastSections | services/word_generator.py:213-301 | writes section 6 to the sources in order, stopping at the first exception |
| WordReport.WordDocumentGenerator.BuildReport | services/word_generator.py:88-309 | the document holds exactly the report's blocks, or the first exception is returned |
| WordReport.WordDocumentGenerator.GenerateWordDocument | services/word_generator.py:71-337 | the method returns the outcome of building the report, then saving and registering it |
| WordReport.FieldPartHeading | services/word_generator.py:110-124 | sections 1, 3, 4 and 5 show exactly their own heading at the top level |
| WordReport.ProfilePartHeading | services/word_generator.py:126-165 | section 2 shows exactly its own heading at the top level |
| WordReport.CompaniesPartHeading | services/word_generator.py:213-230 | section 6 shows exactly its own heading at the top level |
| WordReport.PlanPartHeading | services/word_generator.py:232-268 | section 7 shows exactly its own heading at the top level |
| WordReport.AnalysisPartHeading | services/word_generator.py:270-295 | section 8 shows exactly its own heading at the top level |
| WordReport.SourcesPartHeading | services/word_generator.py:297-301 | the sources part shows exactly its own heading at the top level |
| WordReport.HeaderHeading | services/word_generator.py:91 | the header holds the title as its only top-level heading |
| WordReport.FirstSectionsHeadings | services/word_generator.py:110-211 | sections 1 to 5 give their five headings in order |
| WordReport.LastSectionsHeadings | services/word_generator.py:213-301 | section 6 to the sources give their four headings in order |
| WordReport.ReportHeadingOrder | services/word_generator.py:88-309 | a generated document has the title, the eight sections and the sources section, each exactly once and in order, whatever the synthesis holds |
| WordReport.EmptySectionsUnspecified | services/word_generator.py:114-122 | a missing or empty section shows its heading, "Non spécifié" and a blank line; sections 2, 6, 7 and 8 do the same; sources show only the heading |
| WordReport.ProfileSubsectionsShownIff | services/word_generator.py:130-161 | identity, family and address sub-sections appear exactly when their data are present, specified, or a non-empty dictionary |
| WordReport.PointsShownIff | services/word_generator.py:282-291 | each points heading appears exactly when its value is truthy and not "Non spécifié" |
| WordReport.CompanyNumbering | services/word_generator.py:217-219 | a list of dictionaries is written in order, company i under the heading "6.i <raison sociale>" |
| WordReport.CompanyEntryShape | services/word_generator.py:219-227 | a company is its numbered heading, one line per label and a blank paragraph |
| WordReport.CompanyListFailsAtFirstNonDict | services/word_generator.py:218-219 | the first company that is not a dictionary stops the document with the `.get` error |
| WordReport.TableRowsInOrder | services/word_generator.py:254-263 | when every amount can be written, the table has one row per item, in order, with the amount's text |
| WordReport.TableFailsAtFirstRejected | services/word_generator.py:263 | the first amount python-docx cannot write stops the document with its exception |
| WordReport.FinancingTable | services/word_generator.py:236-263 | section 7 is its lines, the POSTE/MONTANT header row, the item rows in order and a blank line; a missing amount reads "Non spécifié" |
| WordReport.CardTableItems | services/word_generator.py:254-258 | the table items are Apport personnel, Prêt sollicité, Autres financements, in this order |
| WordReport.WordOutcomeIff | services/word_generator.py:82-337 | success exactly when every part is written and the record is stored; a failure carries the first exception behind the fixed prefix; a success reports the stored id, the file name, the `pathlib` path and the dossier |
| WordReport.RegisteredRecord | services/word_generator.py:315-321 | the registered record holds the report, the document kind, the path (directory, slash, file name for an id without a slash) and "Synthèse générée le <date>" |
| WordReport.FileNameInjective | services/word_generator.py:84 | distinct dossier ids give distinct file names |
| WordReport.SegmentsAtSlash | services/word_generator.py:85 | cutting a path at a slash gives the segments of both sides in order |
| WordReport.PlainFilePath | services/word_generator.py:84-85 | a dossier id without a slash is written to `generated_documents/Carte_Financement_<id>.docx` |
| WordReport.FilePathInjective | services/word_generator.py:84-85 | distinct dossier ids without a slash are written to distinct paths |
| WordReport.DroppedSegmentAlias | services/word_generator.py:84-85 | `pathlib` drops a doubled slash or a "/./", so ids differing only by one share a path |
| Api.EndsWithAnyIff | main.py:69 | `endswith(tuple)` holds exactly when one of the suffixes ends the string |
| Api.SupportedIff | main.py:69 | a file is accepted exactly when its lower-cased name ends with a listed extension |
| Api.SupportedIgnoresCase | main.py:69 | the extension check ignores the case of the name |
| Api.SupportedExamples | config.py:35 | "Avis.PDF" and "scan.jpeg" pass; "notes.txt" does not |
| Api.SizeLimitInclusive | main.py:76 | a file of exactly the limit passes, one byte more is refused, and an unknown or zero size always passes |
| Api.TooLargeNamesMegabytes | main.py:79 | a limit of n megabytes is announced as "<n>MB" |
| Api.ServerErrorIffFailure | main.py:117-123 | status 500 is given exactly for unexpected exceptions, and their detail is the prefix followed by the message |
| Api.JoinPath | main.py:83 | the path ends with the file name and starts with the directory unless the name is absolute |
| Api.JoinPathExamples | main.py:83 | "uploads" + "avis.pdf" gives "uploads/avis.pdf"; an absolute name replaces the directory |
| Api.ClassificationData | main.py:99 | the "classification" entry when present, else the whole result |
| Api.UploadDirectory.UploadDocument | main.py:59-123 | returns the upload's answer; the directory gains the path only when the upload is accepted, and a file written then refused is removed |
| Api.ServicesCheckedFirst | main.py:64-65 | services that are not ready give 503 before anything else, leaving the directory untouched |
| Api.StoreAcceptedIff | main.py:95-115 | storing succeeds exactly when the classification data is a dictionary and the insert succeeds |
| Api.ProcessAcceptedIff | main.py:82-115 | after the guards, acceptance is exactly a successful write, a successful extraction, a text that is not blank, and a successful store |
| Api.AcceptedIff | main.py:59-123 | an upload is accepted exactly when every step goes through |
| Api.StoreKeepsIffAccepted | main.py:99-123 | after the write, the file is kept exactly when the upload is accepted |
| Api.ProcessKeepsIffAccepted | main.py:84-123 | from the write on, the file is kept exactly when the upload is accepted |
| Api.FileKeptIffAccepted | main.py:117-123 | the file stays exactly when accepted, and is never written when a guard refuses |
| Api.BlankTextRemovesFile | main.py:90-92 | whitespace-only text removes the stored file and is refused with 400 |
| Api.StoredFromClassification | main.py:99-115 | an accepted upload stores the type, category and confidence of the classification data and answers with the new row's id and the whole classifier result |
| Api.ServerErrorsRemoveFile | main.py:117-123 | every server error comes from an exception after the guards and leaves no file |
| Api.SetCount | main.py:173 | assignment never shortens the counts |
| Api.SetCountOf | main.py:173 | after `categories[c] = n`, c counts n and every other category keeps its count |
| Api.CountOfAbsent | main.py:173 | `categories.get(c, 0)` is 0 for a category not yet seen |
| Api.SetCountHas | main.py:173 | after assignment, the categories present are the old ones plus c |
| Api.SetCountDistinct | main.py:173 | assignment keeps the categories distinct |
| Api.SetCountTotal | main.py:170-173 | assignment changes the total by the new count minus the old |
| Api.TallyDistinctTotal | main.py:170-173 | the tally has distinct categories and its counts sum to the number of documents |
| Api.TallyCountOf | main.py:170-173 | each category counts the documents that have it, and is present exactly when one does |
| Api.TallyCounts | main.py:169-173 | for every category at once: counts equal occurrences, presence equals occurrence, and the total is the number of documents |
| Api.Project | main.py:176-186 | the summary succeeds exactly when every column is present, and then holds the renamed entries in order; otherwise it fails with the KeyError of a missing column |
| Api.MapAllInOrder | main.py:176-186 | the comprehension succeeds exactly when every element does, and then gives each element's result in order |
| Api.GetStats | main.py:157-192 | no documents gives (0, {}, []); otherwise success exactly when the first min(5, n) documents have every column; the total is n, the categories are the tally and sum to n, and the recent list is their summaries in order |

## Left out

- The language model, OCR, the database and the clock are parameters. Together they stand for the
  chain calls, `extract_text`, `get_document_types`, `get_documents_with_extractions`,
  `insert_synthese`, `insert_document`, `insert_document_genere`, `get_documents` and the dossier
  id and date.
- The seeded catalogue in `database.py` is not part of this model; the catalogue is any list of rows.
- Prompt text, `_create_synthesis_prompt` and `format_json_readable` are left out. They build text
  for the model and JSON dumps.
- `json.loads` of an extraction stored as a string is left out: such an extraction is skipped.
- `SynthesisEnrichment.FieldsValue` does not model the `json.loads` branch; a string extraction
  gives no field set.
- `_generate_dossier_id`, `processing_time` and `datetime.now()` are left out; the dossier id and
  dates are parameters.
- `generate_complete_synthesis` is not part of this model. It chains the two modelled operations.
- These endpoints and pieces of `main.py` are not part of this model: `/`, `/health`,
  `/documents`, `/documents/{id}` (get and delete), `/document-types`, the lifespan hook and the
  server start.
- Writing the uploaded bytes is left out: the write is one function that gives an error message
  or nothing.
- `os.remove` cannot fail in the model, and the `os.path.exists` test is folded into the file's
  state.
- `Api.UploadDirectory.UploadDocument` takes `file.filename` as a string; a missing name (`None`)
  is not modelled.
- `Api.UploadDirectory.UploadDocument`: the stored paths are compared as strings. The file system
  makes "uploads/./a.pdf" and "uploads/a.pdf" one file, and "../x.pdf" lands outside the upload
  directory; that aliasing is not modelled.
- `WordReport.FileNameInjective` is about file names. The paths are `pathlib` strings, which drop
  doubled slashes and "." segments (`WordReport.DroppedSegmentAlias`), but keep ".." segments;
  where such a path points on the file system is not modelled.
- `Amounts.ParseFloat` reads only an optional sign, digits and at most one decimal point, with
  surrounding whitespace. `float()` also accepts exponents, `inf`, `nan` and underscores; such
  texts count as unparsable here.
- Values.PyStr: the value type has no float, so a number with a fraction in an extraction or a card
  cannot be represented, and Python's shortest round-trip `repr` of a float is not modelled.
- Values.PyStr: every character beyond U+00FF counts as printable; Python's `repr` escapes the
  non-printable ones (for example U+2028) as `\uNNNN`, which the model does not.
- WordReport.SafeGet: shares the two `Values.PyStr` gaps above, for list and dictionary values.
- Amounts are exact rationals, not binary floats: the ÷12, the sum and the `.0f` rounding are
  exact.
- `Text.Lower` changes case only for ASCII and Latin-1 letters; other Unicode case mappings are
  not modelled.
- `Api.TallyCounts`: category keys are compared as values. Python's `True == 1` makes a boolean
  and an integer category share one key; the model keeps them apart.
- `_enhance_documents_data` copies its input shallowly and so writes into the caller's section
  dictionaries. The model returns a new value. No modelled caller reads the input again, apart
  from the sources list, which the pass does not touch.
- `WordReport.WordDocumentGenerator.GenerateWordDocument` leaves out styles, alignment, bold and
  italic runs and the file write; saving and registering are one store function.
- Paragraph and cell texts keep tabs, carriage returns and newlines as characters. python-docx
  writes them as tab and break elements, and a carriage return reads back as a newline.
- `Classifier.LlmClassifier.ClassifyDocument` passes the model's confidence through unchanged. The
  record schema's [0, 1] bound is enforced by the output parser, and a parser rejection is the
  `ParseFailure` reply.
- `Classifier.LlmClassifier.ClassifyDocument` does not model the processing time.
- `_validate_and_correct_result` is never called by `classify_document`; the model keeps it as a
  separate method, as the code does.
- Async execution, logging and printing are left out.

## Findings

| source | as written | input that shows it | evidently intended | confidence | as-written member | corrected member |
|---|---|---|---|---|---|---|
| services/synthesis_generator.py:213 | an identity key is copied only when the merged identity already holds "Non spécifié" for it, but that map starts empty, so no identity key is ever copied | one borrower extraction `{"nom": "Dupont"}`: `identite_fusionnee` stays `{}` | each identity key takes the first value other than "Non spécifié", as the project merge at line 336 does | not executed; follows from the code as written | SynthesisEnrichment.IdentityNameDropped | SynthesisEnrichment.IdentityFirstSetWins |
| services/synthesis_generator.py:505-523 | `except ValueError` comes before `except ValidationError`, and pydantic's `ValidationError` derives from `ValueError`, so the second handler is unreachable | the model call raises `ValidationError("x")`: the error reads "Erreur de données: x" | "Erreur de validation du modèle: x" | not executed; depends on pydantic's exception hierarchy | Synthesis.ValidationErrorReportedAsDataError | Synthesis.ErrorKindsDistinguished |
