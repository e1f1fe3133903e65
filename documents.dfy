/**
  * The document view: a search over file name and order number, a type
  * filter, and the CMR, Customs and Reports tabs that narrow the filtered
  * list further.
  */
module Documents {
  import opened Text
  import opened Filtering

  /** A document record; `docType` is the record's `type`. */
  datatype Document = Document(
    id: string,
    name: string,
    docType: string,
    orderNumber: string,
    uploadDate: string,
    size: string,
    status: string,
    description: string)

  /** The choices of the type filter besides "all". */
  const DocumentTypes := ["CMR", "Damage Report", "Loading Document", "Customs", "Photos"]

  /** The file name or the order number contains the search term, ignoring case. */
  predicate MatchesSearch(doc: Document, searchTerm: string) {
    IncludesIgnoringCase(doc.name, searchTerm) || IncludesIgnoringCase(doc.orderNumber, searchTerm)
  }

  /** The type filter is "all" or names the document's type exactly. */
  predicate MatchesType(doc: Document, typeFilter: string) {
    typeFilter == "all" || doc.docType == typeFilter
  }

  predicate Shown(doc: Document, searchTerm: string, typeFilter: string) {
    MatchesSearch(doc, searchTerm) && MatchesType(doc, typeFilter)
  }

  /** `filteredDocuments`: the rows of the "All Documents" table. */
  function FilteredDocuments(docs: seq<Document>, searchTerm: string, typeFilter: string): seq<Document> {
    Filter(docs, (doc: Document) => Shown(doc, searchTerm, typeFilter))
  }

  /** The CMR tab: the filtered documents of type "CMR". */
  function CmrTab(docs: seq<Document>, searchTerm: string, typeFilter: string): seq<Document> {
    Filter(FilteredDocuments(docs, searchTerm, typeFilter), (doc: Document) => doc.docType == "CMR")
  }

  /** The Customs tab: the filtered documents of type "Customs". */
  function CustomsTab(docs: seq<Document>, searchTerm: string, typeFilter: string): seq<Document> {
    Filter(FilteredDocuments(docs, searchTerm, typeFilter), (doc: Document) => doc.docType == "Customs")
  }

  /** A type the Reports tab lists: one containing "Report" or "Loading", with case. */
  predicate IsReportType(docType: string) {
    Includes(docType, "Report") || Includes(docType, "Loading")
  }

  /** The Reports tab: the filtered documents of a report type. */
  function ReportsTab(docs: seq<Document>, searchTerm: string, typeFilter: string): seq<Document> {
    Filter(FilteredDocuments(docs, searchTerm, typeFilter), (doc: Document) => IsReportType(doc.docType))
  }

  /** The table keeps the documents' order and only drops rows. */
  lemma FilteredDocumentsIsSubsequence(docs: seq<Document>, searchTerm: string, typeFilter: string)
    ensures IsSubsequence(FilteredDocuments(docs, searchTerm, typeFilter), docs)
  {
    FilterIsSubsequence(docs, (doc: Document) => Shown(doc, searchTerm, typeFilter));
  }

  /** A document is shown exactly when it is in the list and passes both the search and the type filter. */
  lemma FilteredDocumentsMembership(docs: seq<Document>, searchTerm: string, typeFilter: string, x: Document)
    ensures x in FilteredDocuments(docs, searchTerm, typeFilter) <==>
            x in docs && MatchesSearch(x, searchTerm) && MatchesType(x, typeFilter)
  {
    FilterMembership(docs, (doc: Document) => Shown(doc, searchTerm, typeFilter), x);
  }

  /** With nothing typed and "all" selected, every document is shown. */
  lemma EmptySearchShowsAll(docs: seq<Document>)
    ensures FilteredDocuments(docs, "", "all") == docs
  {
    forall i | 0 <= i < |docs|
      ensures Shown(docs[i], "", "all")
    {
      IncludesEmpty(Lower(docs[i].name));
    }
    FilterKeepsAll(docs, (doc: Document) => Shown(doc, "", "all"));
  }

  /** The CMR tab lists exactly the filtered documents of type "CMR", in the table's order. */
  lemma CmrTabContents(docs: seq<Document>, searchTerm: string, typeFilter: string, x: Document)
    ensures x in CmrTab(docs, searchTerm, typeFilter) <==>
            x in FilteredDocuments(docs, searchTerm, typeFilter) && x.docType == "CMR"
    ensures IsSubsequence(CmrTab(docs, searchTerm, typeFilter), FilteredDocuments(docs, searchTerm, typeFilter))
  {
    var shown := FilteredDocuments(docs, searchTerm, typeFilter);
    FilterMembership(shown, (doc: Document) => doc.docType == "CMR", x);
    FilterIsSubsequence(shown, (doc: Document) => doc.docType == "CMR");
  }

  /** The Customs tab lists exactly the filtered documents of type "Customs", in the table's order. */
  lemma CustomsTabContents(docs: seq<Document>, searchTerm: string, typeFilter: string, x: Document)
    ensures x in CustomsTab(docs, searchTerm, typeFilter) <==>
            x in FilteredDocuments(docs, searchTerm, typeFilter) && x.docType == "Customs"
    ensures IsSubsequence(CustomsTab(docs, searchTerm, typeFilter), FilteredDocuments(docs, searchTerm, typeFilter))
  {
    var shown := FilteredDocuments(docs, searchTerm, typeFilter);
    FilterMembership(shown, (doc: Document) => doc.docType == "Customs", x);
    FilterIsSubsequence(shown, (doc: Document) => doc.docType == "Customs");
  }

  /** The Reports tab lists exactly the filtered documents of a report type, in the table's order. */
  lemma ReportsTabContents(docs: seq<Document>, searchTerm: string, typeFilter: string, x: Document)
    ensures x in ReportsTab(docs, searchTerm, typeFilter) <==>
            x in FilteredDocuments(docs, searchTerm, typeFilter) && IsReportType(x.docType)
    ensures IsSubsequence(ReportsTab(docs, searchTerm, typeFilter), FilteredDocuments(docs, searchTerm, typeFilter))
  {
    var shown := FilteredDocuments(docs, searchTerm, typeFilter);
    FilterMembership(shown, (doc: Document) => IsReportType(doc.docType), x);
    FilterIsSubsequence(shown, (doc: Document) => IsReportType(doc.docType));
  }

  /** With a type other than "CMR" selected, the CMR tab is empty. */
  lemma CmrTabEmptyUnderOtherType(docs: seq<Document>, searchTerm: string, typeFilter: string)
    requires typeFilter != "all" && typeFilter != "CMR"
    ensures CmrTab(docs, searchTerm, typeFilter) == []
  {
    var shown := FilteredDocuments(docs, searchTerm, typeFilter);
    forall x | x in shown
      ensures x.docType != "CMR"
    {
      FilteredDocumentsMembership(docs, searchTerm, typeFilter, x);
    }
    FilterKeepsNone(shown, (doc: Document) => doc.docType == "CMR");
  }

  /** Under "all" or "CMR", the CMR tab is the search applied to the CMR documents directly. */
  lemma CmrTabIsOneFilter(docs: seq<Document>, searchTerm: string, typeFilter: string)
    requires typeFilter == "all" || typeFilter == "CMR"
    ensures CmrTab(docs, searchTerm, typeFilter) ==
            Filter(docs, (doc: Document) => MatchesSearch(doc, searchTerm) && doc.docType == "CMR")
  {
    FilterCompose(docs,
      (doc: Document) => Shown(doc, searchTerm, typeFilter),
      (doc: Document) => doc.docType == "CMR",
      (doc: Document) => MatchesSearch(doc, searchTerm) && doc.docType == "CMR");
  }

  /** Of the selectable types, exactly "Damage Report" and "Loading Document" are report types. */
  lemma ReportTypesAmongChoices()
    ensures IsReportType(DocumentTypes[1]) && IsReportType(DocumentTypes[2])
    ensures !IsReportType(DocumentTypes[0]) && !IsReportType(DocumentTypes[3]) && !IsReportType(DocumentTypes[4])
  {
    DamageReportIsReport();
    assert StartsWith("Loading Document", "Loading");
    IncludesAt("CMR", "Report");
    IncludesAt("CMR", "Loading");
    NotReportType("Customs");
    NotReportType("Photos");
  }

  lemma DamageReportIsReport()
    ensures Includes("Damage Report", "Report")
  {
    assert OccursAt("Damage Report", "Report", 7);
    IncludesAt("Damage Report", "Report");
  }

  /** A type without the letters 'R' and 'L' is not a report type. */
  lemma NotReportType(docType: string)
    requires 'R' !in docType && 'L' !in docType
    ensures !IsReportType(docType)
  {
    LeadingLetterAbsent(docType, "Report");
    LeadingLetterAbsent(docType, "Loading");
  }

  /** A string that lacks the first letter of `sub` does not contain `sub`. */
  lemma LeadingLetterAbsent(s: string, sub: string)
    requires |sub| > 0 && sub[0] !in s
    ensures !Includes(s, sub)
  {
    IncludesAt(s, sub);
    forall i | 0 <= i && i + |sub| <= |s|
      ensures !OccursAt(s, sub, i)
    {
      assert s[i..i + |sub|][0] == s[i];
    }
  }
}
