/**
 * SolrRecordSearch: turns a list of record types and a search (rows, start
 * and the search terms of its include part) into a Solr query, sends it, and
 * turns the result page, or the failure, into what the caller receives.
 */
module RecordSearch {
  import opened Wrappers
  import opened JavaStrings
  import opened CoraData
  import opened Solr

  const NUMBER_OF_ROWS_TO_RETURN: int := 100
  const DEFAULT_START: int := 0
  const UNDEFINED_FIELD: string := "undefined field"
  const SEARCH_ERROR_PREFIX: string := "Error searching for records: "

  // ---------------------------------------------------------------------
  // Inputs
  // ---------------------------------------------------------------------

  /** An atomic child of the search's include part: a search term id and the value searched for. */
  datatype SearchDataElement = SearchDataElement(nameInData: string, value: string)

  /** The search data group: its optional `rows` and `start` children and the children of include/includePart. */
  datatype SearchData = SearchData(rows: Option<string>, start: Option<string>, includePart: seq<SearchDataElement>)

  /**
   * A stored search term: its `searchTermType`, the id of its `indexTerm`,
   * and, read only for linked-data terms, the id of the `linkedOn` index
   * term and the record type in `searchInRecordType`.
   */
  datatype SearchTerm = SearchTerm(searchTermType: string, indexTerm: string, linkedOn: string, searchInRecordType: string)

  /** A stored collect index term, reduced to its extraData. */
  datatype CollectIndexTerm = CollectIndexTerm(indexType: string, indexFieldName: string)

  /**
   * The search storage: search terms and collect index terms by id. Looking
   * up an unknown id throws; `unknownIdMessage` is that exception's message.
   */
  datatype SearchStorage = SearchStorage(
    searchTerms: map<string, SearchTerm>,
    collectIndexTerms: map<string, CollectIndexTerm>,
    unknownIdMessage: string)

  function GetSearchTerm(storage: SearchStorage, id: string): Result<SearchTerm, string> {
    if id in storage.searchTerms then Ok(storage.searchTerms[id]) else Err(storage.unknownIdMessage)
  }

  function GetCollectIndexTerm(storage: SearchStorage, id: string): Result<CollectIndexTerm, string> {
    if id in storage.collectIndexTerms then Ok(storage.collectIndexTerms[id]) else Err(storage.unknownIdMessage)
  }

  // ---------------------------------------------------------------------
  // Outputs
  // ---------------------------------------------------------------------

  /** What the search returns: the total number of matches and the records of this page, in order. */
  datatype SpiderReadResult = SpiderReadResult(totalNumberOfMatches: int, listOfDataGroups: seq<BookkeeperDataGroup>)

  datatype SolrSearchException = SolrSearchException(message: string)

  function EmptySearchResult(): SpiderReadResult {
    SpiderReadResult(0, [])
  }

  // ---------------------------------------------------------------------
  // Field names
  // ---------------------------------------------------------------------

  /** The suffix that encodes an index type in a Solr field name, as the search side chooses it. */
  function ChooseSuffixFromIndexType(indexType: string): (suffix: string)
    ensures suffix == "_t" <==>
      indexType !in {"indexTypeString", "indexTypeBoolean", "indexTypeDate", "indexTypeNumber"}
  {
    if indexType == "indexTypeString" then "_s"
    else if indexType == "indexTypeBoolean" then "_b"
    else if indexType == "indexTypeDate" then "_dt"
    else if indexType == "indexTypeNumber" then "_l"
    else "_t"
  }

  /** The physical Solr field of a collect index term. */
  function ExtractFieldName(collectIndexTerm: CollectIndexTerm): (name: string)
    ensures var fieldName := collectIndexTerm.indexFieldName;
      && |name| > |fieldName| + 1
      && name[..|fieldName|] == fieldName
      && name[|fieldName|..] == ChooseSuffixFromIndexType(collectIndexTerm.indexType)
  {
    collectIndexTerm.indexFieldName + ChooseSuffixFromIndexType(collectIndexTerm.indexType)
  }

  /**
   * The search side's suffix table, every row of it, including the
   * fall-through for indexTypeId, and the field name of any index field
   * name with any index type: the name, then the type's suffix.
   */
  lemma SuffixTable(indexFieldName: string, indexType: string)
    ensures ChooseSuffixFromIndexType("indexTypeString") == "_s"
    ensures ChooseSuffixFromIndexType("indexTypeBoolean") == "_b"
    ensures ChooseSuffixFromIndexType("indexTypeDate") == "_dt"
    ensures ChooseSuffixFromIndexType("indexTypeNumber") == "_l"
    ensures ChooseSuffixFromIndexType("indexTypeId") == "_t"
    ensures ExtractFieldName(CollectIndexTerm(indexType, indexFieldName)) == indexFieldName + ChooseSuffixFromIndexType(indexType)
  {
    var name := ExtractFieldName(CollectIndexTerm(indexType, indexFieldName));
    assert name == name[..|indexFieldName|] + name[|indexFieldName|..];
  }

  // ---------------------------------------------------------------------
  // Paging
  // ---------------------------------------------------------------------

  /** rows as Integer.valueOf reads it, or 100 when there is no rows child. */
  function GetNumberOfRowsToReadOrDefault(searchData: SearchData): (r: Result<int, string>)
    ensures searchData.rows.None? ==> r == Ok(NUMBER_OF_ROWS_TO_RETURN)
    ensures r.Ok? ==> INTEGER_MIN_VALUE <= r.value <= INTEGER_MAX_VALUE
    ensures r.Err? ==> searchData.rows.Some? && r.error == NumberFormatMessage(searchData.rows.value)
  {
    if searchData.rows.Some? then IntegerValueOf(searchData.rows.value) else Ok(NUMBER_OF_ROWS_TO_RETURN)
  }

  /** start as Integer.valueOf reads it, or 0 when there is no start child. */
  function GetStartRowToReadFromOrDefault(searchData: SearchData): (r: Result<int, string>)
    ensures searchData.start.None? ==> r == Ok(DEFAULT_START)
    ensures r.Ok? ==> INTEGER_MIN_VALUE <= r.value <= INTEGER_MAX_VALUE
    ensures r.Err? ==> searchData.start.Some? && r.error == NumberFormatMessage(searchData.start.value)
  {
    if searchData.start.Some? then IntegerValueOf(searchData.start.value) else Ok(DEFAULT_START)
  }

  /**
   * rows is 100 and start is 0 when absent; a child written as the decimal
   * text of a 32-bit number gives that number, unchanged (start is not
   * shifted); text that Integer.valueOf rejects fails with its message.
   */
  lemma PagingParameters(searchData: SearchData, n: int)
    requires INTEGER_MIN_VALUE <= n <= INTEGER_MAX_VALUE
    ensures searchData.rows.None? ==> GetNumberOfRowsToReadOrDefault(searchData) == Ok(100)
    ensures searchData.start.None? ==> GetStartRowToReadFromOrDefault(searchData) == Ok(0)
    ensures searchData.rows == Some(IntegerToString(n)) ==> GetNumberOfRowsToReadOrDefault(searchData) == Ok(n)
    ensures searchData.start == Some(IntegerToString(n)) ==> GetStartRowToReadFromOrDefault(searchData) == Ok(n)
    ensures searchData.rows.Some? && GetNumberOfRowsToReadOrDefault(searchData).Err? ==>
      GetNumberOfRowsToReadOrDefault(searchData).error == NumberFormatMessage(searchData.rows.value)
    ensures searchData.start.Some? && GetStartRowToReadFromOrDefault(searchData).Err? ==>
      GetStartRowToReadFromOrDefault(searchData).error == NumberFormatMessage(searchData.start.value)
  {
    IntegerValueOfToString(n);
  }

  // ---------------------------------------------------------------------
  // Filter query
  // ---------------------------------------------------------------------

  /** Each record type prefixed with `type:`, in list order. */
  function AddTypeToRecordTypes(recordTypes: seq<string>): (r: seq<string>)
    ensures |r| == |recordTypes|
    ensures forall i :: 0 <= i < |r| ==> r[i] == "type:" + recordTypes[i]
    decreases |recordTypes|
  {
    if recordTypes == [] then []
    else AddTypeToRecordTypes(recordTypes[..|recordTypes| - 1]) + ["type:" + recordTypes[|recordTypes| - 1]]
  }

  /** The one filter query added for the record types. */
  function FilterQuery(recordTypes: seq<string>): string {
    Join(" OR ", AddTypeToRecordTypes(recordTypes))
  }

  /**
   * The filter query is empty for no types, `type:t` for one, and each
   * further type adds ` OR type:t` at the end, so types appear in list order.
   */
  lemma FilterQueryShape(recordTypes: seq<string>, recordType: string)
    ensures FilterQuery([]) == ""
    ensures FilterQuery([recordType]) == "type:" + recordType
    ensures recordTypes != [] ==>
      FilterQuery(recordTypes + [recordType]) == FilterQuery(recordTypes) + " OR type:" + recordType
  {
    var withType := AddTypeToRecordTypes(recordTypes + [recordType]);
    assert (recordTypes + [recordType])[..|recordTypes|] == recordTypes;
    assert withType[..|withType| - 1] == AddTypeToRecordTypes(recordTypes);
  }

  /**
   * Every `type:t` occurs in the filter query, and, read from the front, the
   * query is the first `type:t` followed by ` OR type:t` for each later type.
   */
  lemma FilterQueryNamesEveryType(recordTypes: seq<string>, k: nat)
    requires k < |recordTypes|
    ensures Contains(FilterQuery(recordTypes), "type:" + recordTypes[k])
    ensures FilterQuery(recordTypes) ==
      "type:" + recordTypes[0] + Prefixed(" OR ", AddTypeToRecordTypes(recordTypes)[1..])
  {
    JoinContainsParts(" OR ", AddTypeToRecordTypes(recordTypes), k);
    JoinFromFront(" OR ", AddTypeToRecordTypes(recordTypes));
  }

  // ---------------------------------------------------------------------
  // Query per search term
  // ---------------------------------------------------------------------

  /** `field:(value)`, the value inserted as it is. */
  function CreateQueryForFinal(indexFieldName: string, value: string): (query: string)
    ensures |query| == |indexFieldName| + |value| + 3
    ensures query[..|indexFieldName| + 2] == indexFieldName + ":("
    ensures query[|indexFieldName| + 2..|query| - 1] == value
    ensures query[|query| - 1] == ')'
  {
    indexFieldName + ":(" + value + ")"
  }

  /** The join query `{!join from=ids to=<linked field>}<field>:<value> AND type:<record type>`. */
  function CreateQueryForLinkedData(linkedOnIndexFieldName: string, indexFieldName: string, value: string, recordType: string): (query: string)
    ensures var head := "{!join from=ids to=" + linkedOnIndexFieldName + "}";
      var tail := " AND type:" + recordType;
      && |query| == |head| + |indexFieldName| + 1 + |value| + |tail|
      && query[..|head|] == head
      && query[|head|..|head| + |indexFieldName| + 1] == indexFieldName + ":"
      && query[|head| + |indexFieldName| + 1..|query| - |tail|] == value
      && query[|query| - |tail|..] == tail
  {
    var query := "{!join from=ids to=" + linkedOnIndexFieldName + "}" + indexFieldName + ":" + value;
    query + " AND type:" + recordType
  }

  predicate SearchTypeIsLinkedData(searchTerm: SearchTerm) {
    searchTerm.searchTermType == "linkedData"
  }

  /**
   * The q that one search term sets: look up the search term, then its index
   * term's field, then, for a linked-data term, the field it is linked on.
   */
  function QueryForSearchTerm(storage: SearchStorage, element: SearchDataElement): (r: Result<string, string>)
    ensures r.Err? ==> r.error == storage.unknownIdMessage
    ensures r.Err? <==>
      || element.nameInData !in storage.searchTerms
      || storage.searchTerms[element.nameInData].indexTerm !in storage.collectIndexTerms
      || (SearchTypeIsLinkedData(storage.searchTerms[element.nameInData])
          && storage.searchTerms[element.nameInData].linkedOn !in storage.collectIndexTerms)
  {
    match GetSearchTerm(storage, element.nameInData)
    case Err(m) => Err(m)
    case Ok(searchTerm) =>
      match GetCollectIndexTerm(storage, searchTerm.indexTerm)
      case Err(m) => Err(m)
      case Ok(indexTerm) =>
        var indexFieldName := ExtractFieldName(indexTerm);
        if SearchTypeIsLinkedData(searchTerm) then
          match GetCollectIndexTerm(storage, searchTerm.linkedOn)
          case Err(m) => Err(m)
          case Ok(linkedOnTerm) =>
            Ok(CreateQueryForLinkedData(ExtractFieldName(linkedOnTerm), indexFieldName, element.value, searchTerm.searchInRecordType))
        else
          Ok(CreateQueryForFinal(indexFieldName, element.value))
  }

  /**
   * A term whose type is not linkedData gives the plain query on its index
   * term's field; a linkedData term gives the join on the field it is linked
   * on, restricted to its searchInRecordType.
   */
  lemma QueryForResolvedSearchTerm(storage: SearchStorage, element: SearchDataElement)
    requires element.nameInData in storage.searchTerms
    requires storage.searchTerms[element.nameInData].indexTerm in storage.collectIndexTerms
    requires SearchTypeIsLinkedData(storage.searchTerms[element.nameInData]) ==>
      storage.searchTerms[element.nameInData].linkedOn in storage.collectIndexTerms
    ensures var searchTerm := storage.searchTerms[element.nameInData];
      var field := ExtractFieldName(storage.collectIndexTerms[searchTerm.indexTerm]);
      QueryForSearchTerm(storage, element) ==
        if searchTerm.searchTermType == "linkedData" then
          var linkedOnField := ExtractFieldName(storage.collectIndexTerms[searchTerm.linkedOn]);
          Ok("{!join from=ids to=" + linkedOnField + "}" + field + ":" + element.value + " AND type:" + searchTerm.searchInRecordType)
        else
          Ok(field + ":(" + element.value + ")")
  {
  }

  // ---------------------------------------------------------------------
  // All search terms: each one sets q, replacing what was there
  // ---------------------------------------------------------------------

  /** The q left after a run of search terms, and the message of the lookup that threw, if one did. */
  datatype TermsOutcome = TermsOutcome(q: Option<string>, error: Option<string>)

  /** Processing `elements` in order, starting from q; the first failing lookup ends the run. */
  function QueryAfterTerms(storage: SearchStorage, elements: seq<SearchDataElement>, q: Option<string>): TermsOutcome
    decreases |elements|
  {
    if elements == [] then TermsOutcome(q, None)
    else
      var before := QueryAfterTerms(storage, elements[..|elements| - 1], q);
      if before.error.Some? then before
      else match QueryForSearchTerm(storage, elements[|elements| - 1])
        case Err(m) => TermsOutcome(before.q, Some(m))
        case Ok(query) => TermsOutcome(Some(query), None)
  }

  /** One more term after a successful run: its failure is reported with q kept, or its query replaces q. */
  lemma NextTerm(storage: SearchStorage, elements: seq<SearchDataElement>, q: Option<string>, i: nat)
    requires i < |elements|
    requires QueryAfterTerms(storage, elements[..i], q).error.None?
    ensures var before := QueryAfterTerms(storage, elements[..i], q);
      QueryAfterTerms(storage, elements[..i + 1], q) ==
        match QueryForSearchTerm(storage, elements[i])
        case Err(m) => TermsOutcome(before.q, Some(m))
        case Ok(query) => TermsOutcome(Some(query), None)
  {
    assert elements[..i + 1][..i] == elements[..i];
  }

  /** Once a prefix of the terms has failed, the later terms change nothing. */
  lemma {:induction false} FailureEndsTerms(storage: SearchStorage, elements: seq<SearchDataElement>, q: Option<string>, k: nat)
    requires k <= |elements|
    requires QueryAfterTerms(storage, elements[..k], q).error.Some?
    ensures QueryAfterTerms(storage, elements, q) == QueryAfterTerms(storage, elements[..k], q)
    decreases |elements| - k
  {
    if k < |elements| {
      var shorter := elements[..|elements| - 1];
      assert shorter[..k] == elements[..k];
      FailureEndsTerms(storage, shorter, q, k);
    } else {
      assert elements[..k] == elements;
    }
  }

  /** In a successful run, every term resolved. */
  lemma {:induction false} SucceededRunResolves(storage: SearchStorage, elements: seq<SearchDataElement>, q: Option<string>, j: nat)
    requires j < |elements|
    requires QueryAfterTerms(storage, elements, q).error.None?
    ensures QueryForSearchTerm(storage, elements[j]).Ok?
    decreases |elements|
  {
    LastTermStep(storage, elements, q);
    if j < |elements| - 1 {
      var shorter := elements[..|elements| - 1];
      SucceededRunResolves(storage, shorter, q, j);
      assert shorter[j] == elements[j];
    }
  }

  /** In a failed run, some term did not resolve. */
  lemma {:induction false} FailedRunHasFailingTerm(storage: SearchStorage, elements: seq<SearchDataElement>, q: Option<string>)
    returns (k: nat)
    requires QueryAfterTerms(storage, elements, q).error.Some?
    ensures k < |elements| && QueryForSearchTerm(storage, elements[k]).Err?
    decreases |elements|
  {
    var shorter := elements[..|elements| - 1];
    LastTermStep(storage, elements, q);
    if QueryAfterTerms(storage, shorter, q).error.Some? {
      k := FailedRunHasFailingTerm(storage, shorter, q);
      assert shorter[k] == elements[k];
    } else {
      k := |elements| - 1;
    }
  }

  /** The run succeeds exactly when every term's lookups succeed. */
  lemma TermsSucceedIffAllResolve(storage: SearchStorage, elements: seq<SearchDataElement>, q: Option<string>)
    ensures QueryAfterTerms(storage, elements, q).error.None? <==>
      forall j :: 0 <= j < |elements| ==> QueryForSearchTerm(storage, elements[j]).Ok?
  {
    if QueryAfterTerms(storage, elements, q).error.None? {
      forall j | 0 <= j < |elements|
        ensures QueryForSearchTerm(storage, elements[j]).Ok?
      {
        SucceededRunResolves(storage, elements, q, j);
      }
    } else {
      var k := FailedRunHasFailingTerm(storage, elements, q);
    }
  }

  /** A run succeeds exactly when the run without its last term succeeds and the last term resolves. */
  lemma LastTermStep(storage: SearchStorage, elements: seq<SearchDataElement>, q: Option<string>)
    requires elements != []
    ensures QueryAfterTerms(storage, elements, q).error.None? <==>
      QueryAfterTerms(storage, elements[..|elements| - 1], q).error.None? &&
      QueryForSearchTerm(storage, elements[|elements| - 1]).Ok?
  {
  }

  /** When terms fail, the error reported is that of the first failing term. */
  lemma {:induction false} FirstFailingTermReported(storage: SearchStorage, elements: seq<SearchDataElement>, q: Option<string>, k: nat)
    requires k < |elements|
    requires forall j :: 0 <= j < k ==> QueryForSearchTerm(storage, elements[j]).Ok?
    requires QueryForSearchTerm(storage, elements[k]).Err?
    ensures QueryAfterTerms(storage, elements, q).error == Some(QueryForSearchTerm(storage, elements[k]).error)
  {
    var prefix := elements[..k + 1];
    assert prefix[..k] == elements[..k];
    TermsSucceedIffAllResolve(storage, elements[..k], q);
    FailureEndsTerms(storage, elements, q, k + 1);
  }

  /**
   * Each term replaces q rather than adding to it: after a successful run
   * q is the query of the last term alone, whatever came before.
   */
  lemma {:induction false} LastTermDecides(storage: SearchStorage, elements: seq<SearchDataElement>, q: Option<string>)
    requires elements != []
    requires QueryAfterTerms(storage, elements, q).error.None?
    ensures QueryForSearchTerm(storage, elements[|elements| - 1]).Ok?
    ensures QueryAfterTerms(storage, elements, q).q == Some(QueryForSearchTerm(storage, elements[|elements| - 1]).value)
    ensures QueryAfterTerms(storage, elements, q) == QueryAfterTerms(storage, [elements[|elements| - 1]], None)
  {
    var last := [elements[|elements| - 1]];
    assert last[..0] == [];
  }

  /** No search terms leave q as it was. */
  lemma NoTermsKeepQuery(storage: SearchStorage, q: Option<string>)
    ensures QueryAfterTerms(storage, [], q) == TermsOutcome(q, None)
  {
  }

  // ---------------------------------------------------------------------
  // The whole query
  // ---------------------------------------------------------------------

  /** The query as far as it was built, and the message of the exception that stopped it, if one did. */
  datatype BuiltQuery = BuiltQuery(query: SolrQuery, error: Option<string>)

  /** rows, then start, then the filter query, then q from the search terms, stopping at the first exception. */
  function BuildSolrQuery(recordTypes: seq<string>, searchData: SearchData, storage: SearchStorage): BuiltQuery {
    var empty := NewSolrQuery();
    match GetNumberOfRowsToReadOrDefault(searchData)
    case Err(m) => BuiltQuery(empty, Some(m))
    case Ok(rows) =>
      var withRows := empty.(rows := Some(rows));
      match GetStartRowToReadFromOrDefault(searchData)
      case Err(m) => BuiltQuery(withRows, Some(m))
      case Ok(start) =>
        var withStart := withRows.(start := Some(start));
        var filtered := withStart.(filterQueries := withStart.filterQueries + [FilterQuery(recordTypes)]);
        var terms := QueryAfterTerms(storage, searchData.includePart, filtered.q);
        BuiltQuery(filtered.(q := terms.q), terms.error)
  }

  /**
   * With readable paging, the query carries rows and start as read, exactly
   * one filter query, and the q of the search terms.
   */
  lemma BuildSolrQueryParameters(recordTypes: seq<string>, searchData: SearchData, storage: SearchStorage)
    requires GetNumberOfRowsToReadOrDefault(searchData).Ok?
    requires GetStartRowToReadFromOrDefault(searchData).Ok?
    ensures var built := BuildSolrQuery(recordTypes, searchData, storage);
      var terms := QueryAfterTerms(storage, searchData.includePart, None);
      && built.query.rows == Some(GetNumberOfRowsToReadOrDefault(searchData).value)
      && built.query.start == Some(GetStartRowToReadFromOrDefault(searchData).value)
      && built.query.filterQueries == [FilterQuery(recordTypes)]
      && built.query.q == terms.q
      && built.error == terms.error
  {
  }

  /** A search without rows and start asks for 100 rows from offset 0. */
  lemma DefaultPaging(recordTypes: seq<string>, searchData: SearchData, storage: SearchStorage)
    requires searchData.rows.None? && searchData.start.None?
    ensures BuildSolrQuery(recordTypes, searchData, storage).query.rows == Some(NUMBER_OF_ROWS_TO_RETURN)
    ensures BuildSolrQuery(recordTypes, searchData, storage).query.start == Some(DEFAULT_START)
  {
  }

  /** An unreadable rows stops the search before anything is set, with Integer.valueOf's message. */
  lemma MalformedRows(recordTypes: seq<string>, searchData: SearchData, storage: SearchStorage)
    requires searchData.rows.Some? && IntegerValueOf(searchData.rows.value).Err?
    ensures BuildSolrQuery(recordTypes, searchData, storage) ==
      BuiltQuery(NewSolrQuery(), Some(NumberFormatMessage(searchData.rows.value)))
  {
  }

  // ---------------------------------------------------------------------
  // Failures
  // ---------------------------------------------------------------------

  /** The message mentions `undefined field` somewhere. */
  predicate IsUndefinedFieldError(message: string): (b: bool)
    ensures b <==> exists i :: OccursAt(message, UNDEFINED_FIELD, i)
  {
    ContainsIff(message, UNDEFINED_FIELD);
    Contains(message, UNDEFINED_FIELD)
  }

  /** Any exception: an undefined-field one becomes an empty result, any other a SolrSearchException. */
  function HandleErrors(message: string): (r: Result<SpiderReadResult, SolrSearchException>)
    ensures r.Ok? <==> Contains(message, "undefined field")
    ensures r.Ok? ==> r.value.totalNumberOfMatches == 0 && r.value.listOfDataGroups == []
    ensures r.Err? ==> r.error.message == "Error searching for records: " + message
  {
    if IsUndefinedFieldError(message) then Ok(EmptySearchResult())
    else Err(SolrSearchException(SEARCH_ERROR_PREFIX + message))
  }

  /** Solr's complaint about a field no record has populated yet is an empty result, not a failure. */
  lemma UndefinedFieldFromServerIsEmptyResult(server: string, field: string)
    ensures HandleErrors("Error from server at " + server + ": undefined field " + field) == Ok(EmptySearchResult())
  {
    var message := "Error from server at " + server + ": undefined field " + field;
    assert message == ("Error from server at " + server + ": ") + UNDEFINED_FIELD + (" " + field);
    ContainsPart("Error from server at " + server + ": ", UNDEFINED_FIELD, " " + field);
  }

  /**
   * A NumberFormatException is classified by the text that could not be
   * read: it is an undefined-field error exactly when that text contains
   * `undefined field`.
   */
  lemma NumberFormatClassification(s: string)
    ensures IsUndefinedFieldError(NumberFormatMessage(s)) <==> Contains(s, UNDEFINED_FIELD)
  {
    var message := NumberFormatMessage(s);
    var t := UNDEFINED_FIELD;
    ContainsIff(message, t);
    ContainsIff(s, t);
    if Contains(s, t) {
      var i :| OccursAt(s, t, i);
      assert message[19 + i..19 + i + |t|] == s[i..i + |t|];
      assert OccursAt(message, t, 19 + i);
    }
    if Contains(message, t) {
      var i :| OccursAt(message, t, i);
      OccurrenceInNumberFormatMessage(s, i);
    }
  }

  /** `undefined field` has no quote, so in the message it can only occur inside the quoted text. */
  lemma OccurrenceInNumberFormatMessage(s: string, i: int)
    requires OccursAt(NumberFormatMessage(s), UNDEFINED_FIELD, i)
    ensures OccursAt(s, UNDEFINED_FIELD, i - 19)
  {
    var message := NumberFormatMessage(s);
    var t := UNDEFINED_FIELD;
    assert |message| == |s| + 20 && |t| == 15;
    assert message[..19] == "For input string: \"";
    assert '"' !in t;
    forall j | 0 <= j < 4
      ensures !OccursAt(message, t, j)
    {
      assert message[j] == message[..19][j];
      assert message[j] != t[0];
    }
    forall j | 4 <= j < 19
      ensures !OccursAt(message, t, j)
    {
      assert message[18] == '"';
      assert message[j..j + |t|][18 - j] == message[18];
    }
    forall j | 19 + |s| - |t| < j <= 19 + |s|
      ensures !OccursAt(message, t, j)
    {
      if j + |t| <= |message| {
        assert message[19 + |s|] == '"';
        assert message[j..j + |t|][19 + |s| - j] == message[19 + |s|];
      }
    }
    assert 19 <= i <= 19 + |s| - |t|;
    assert s[i - 19..i - 19 + |t|] == message[i..i + |t|];
  }

  /**
   * An unreadable rows value makes the search fail with
   * `Error searching for records: For input string: "<rows>"`, unless the
   * value itself contains `undefined field`, which gives an empty result.
   */
  lemma MalformedRowsOutcome(recordTypes: seq<string>, searchData: SearchData, storage: SearchStorage)
    requires searchData.rows.Some? && IntegerValueOf(searchData.rows.value).Err?
    ensures var outcome := SearchOutcome(BuildSolrQuery(recordTypes, searchData, storage), None, SolrDocumentList(0, []));
      if Contains(searchData.rows.value, UNDEFINED_FIELD) then outcome == Ok(EmptySearchResult())
      else outcome == Err(SolrSearchException(SEARCH_ERROR_PREFIX + NumberFormatMessage(searchData.rows.value)))
  {
    NumberFormatClassification(searchData.rows.value);
  }

  // ---------------------------------------------------------------------
  // The result page
  // ---------------------------------------------------------------------

  /** The record stored in each document, in document order. */
  function DecodedRecords(documents: seq<SolrDocument>): (records: seq<BookkeeperDataGroup>)
    ensures |records| == |documents|
    ensures forall i :: 0 <= i < |documents| ==>
      records[i] == ConvertJsonStringToDataGroup(documents[i].recordAsJson)
    decreases |documents|
  {
    if documents == [] then []
    else DecodedRecords(documents[..|documents| - 1]) + [ConvertJsonStringToDataGroup(documents[|documents| - 1].recordAsJson)]
  }

  function SearchResultFromSolrResults(results: SolrDocumentList): SpiderReadResult {
    SpiderReadResult(results.numFound, DecodedRecords(results.documents))
  }

  /** One record per document, in order, and the total the page reports. */
  method CreateSpiderSearchResultFromSolrResults(results: SolrDocumentList) returns (r: SpiderReadResult)
    ensures r.totalNumberOfMatches == results.numFound
    ensures |r.listOfDataGroups| == |results.documents|
    ensures forall i :: 0 <= i < |results.documents| ==>
      r.listOfDataGroups[i] == ConvertJsonStringToDataGroup(results.documents[i].recordAsJson)
  {
    r := EmptySearchResult();
    r := r.(totalNumberOfMatches := results.numFound);
    var documents := results.documents;
    var i := 0;
    while i < |documents|
      invariant 0 <= i <= |documents|
      invariant r.totalNumberOfMatches == results.numFound
      invariant |r.listOfDataGroups| == i
      invariant forall j :: 0 <= j < i ==>
        r.listOfDataGroups[j] == ConvertJsonStringToDataGroup(documents[j].recordAsJson)
    {
      var dataGroup := ConvertJsonStringToDataGroup(documents[i].recordAsJson);
      r := r.(listOfDataGroups := r.listOfDataGroups + [dataGroup]);
      i := i + 1;
    }
  }

  /** What the search call returns, given the query built, what the client's query call throws, and its response. */
  function SearchOutcome(built: BuiltQuery, failure: Option<SolrException>, response: SolrDocumentList): Result<SpiderReadResult, SolrSearchException> {
    if built.error.Some? then HandleErrors(built.error.value)
    else if failure.Some? then HandleErrors(failure.value.message)
    else Ok(SearchResultFromSolrResults(response))
  }

  // ---------------------------------------------------------------------
  // The searcher
  // ---------------------------------------------------------------------

  class SolrRecordSearch {
    const solrClientProvider: SolrClientProvider
    const searchStorage: SearchStorage
    /** The query of the latest call; the model starts from an empty query where Java starts from null. */
    var solrQuery: SolrQuery
    var solrClient: SolrClient?

    constructor CreateSolrRecordSearchUsingSolrClientProviderAndSearchStorage(solrClientProvider: SolrClientProvider, searchStorage: SearchStorage)
      ensures this.solrClientProvider == solrClientProvider && this.searchStorage == searchStorage
      ensures solrQuery == NewSolrQuery() && solrClient == null
    {
      this.solrClientProvider := solrClientProvider;
      this.searchStorage := searchStorage;
      solrQuery := NewSolrQuery();
      solrClient := null;
    }

    /**
     * Builds and sends the query. The client receives one query call when
     * the query could be built and none otherwise; the result follows
     * SearchOutcome.
     */
    method SearchUsingListOfRecordTypesToSearchInAndSearchData(recordTypes: seq<string>, searchData: SearchData)
      returns (r: Result<SpiderReadResult, SolrSearchException>)
      modifies this, solrClientProvider.client`trace
      ensures solrClient == solrClientProvider.client
      ensures var built := BuildSolrQuery(recordTypes, searchData, searchStorage);
        var client := solrClientProvider.client;
        && solrQuery == built.query
        && client.trace == old(client.trace) + (if built.error.None? then [QueryRequest(built.query)] else [])
        && r == SearchOutcome(built, FailureAt(client.failFrom, client.failMessage, |old(client.trace)|), client.response)
    {
      var outcome := TryToSearch(recordTypes, searchData);
      match outcome
      case Ok(result) =>
        r := Ok(result);
      case Err(message) =>
        r := HandleErrors(message);
    }

    method TryToSearch(recordTypes: seq<string>, searchData: SearchData) returns (r: Result<SpiderReadResult, string>)
      modifies this, solrClientProvider.client`trace
      ensures solrClient == solrClientProvider.client
      ensures var built := BuildSolrQuery(recordTypes, searchData, searchStorage);
        var client := solrClientProvider.client;
        var failure := FailureAt(client.failFrom, client.failMessage, |old(client.trace)|);
        && solrQuery == built.query
        && (built.error.Some? ==> client.trace == old(client.trace) && r == Err(built.error.value))
        && (built.error.None? ==> client.trace == old(client.trace) + [QueryRequest(built.query)])
        && (built.error.None? && failure.Some? ==> r == Err(failure.value.message))
        && (built.error.None? && failure.None? ==> r == Ok(SearchResultFromSolrResults(client.response)))
    {
      solrClient := solrClientProvider.GetSolrClient();
      solrQuery := NewSolrQuery();
      var rows := GetNumberOfRowsToReadOrDefault(searchData);
      if rows.Err? {
        return Err(rows.error);
      }
      solrQuery := solrQuery.(rows := Some(rows.value));
      var start := GetStartRowToReadFromOrDefault(searchData);
      if start.Err? {
        return Err(start.error);
      }
      solrQuery := solrQuery.(start := Some(start.value));
      AddRecordTypesToFilterQuery(recordTypes);
      var failure := AddSearchTermsToQuery(searchData);
      if failure.Some? {
        return Err(failure.value);
      }
      r := SearchInSolr();
    }

    method AddRecordTypesToFilterQuery(recordTypes: seq<string>)
      modifies this`solrQuery
      ensures solrQuery == old(solrQuery).(filterQueries := old(solrQuery).filterQueries + [FilterQuery(recordTypes)])
    {
      var recordTypesWithType := AddTypeToRecordTypes(recordTypes);
      var filterQuery := Join(" OR ", recordTypesWithType);
      solrQuery := solrQuery.(filterQueries := solrQuery.filterQueries + [filterQuery]);
    }

    /** Each search term in turn sets q; the first lookup that throws ends the loop. */
    method AddSearchTermsToQuery(searchData: SearchData) returns (failure: Option<string>)
      modifies this`solrQuery
      ensures var terms := QueryAfterTerms(searchStorage, searchData.includePart, old(solrQuery.q));
        solrQuery == old(solrQuery).(q := terms.q) && failure == terms.error
    {
      var elements := searchData.includePart;
      var i := 0;
      while i < |elements|
        invariant 0 <= i <= |elements|
        invariant var terms := QueryAfterTerms(searchStorage, elements[..i], old(solrQuery.q));
          solrQuery == old(solrQuery).(q := terms.q) && terms.error.None?
      {
        var query := QueryForSearchTerm(searchStorage, elements[i]);
        NextTerm(searchStorage, elements, old(solrQuery.q), i);
        if query.Err? {
          FailureEndsTerms(searchStorage, elements, old(solrQuery.q), i + 1);
          return Some(query.error);
        }
        solrQuery := solrQuery.(q := Some(query.value));
        i := i + 1;
      }
      assert elements[..i] == elements;
      failure := None;
    }

    method SearchInSolr() returns (r: Result<SpiderReadResult, string>)
      requires solrClient == solrClientProvider.client
      modifies solrClientProvider.client`trace
      ensures var client := solrClientProvider.client;
        var failure := FailureAt(client.failFrom, client.failMessage, |old(client.trace)|);
        && client.trace == old(client.trace) + [QueryRequest(solrQuery)]
        && (failure.Some? ==> r == Err(failure.value.message))
        && (failure.None? ==> r == Ok(SearchResultFromSolrResults(client.response)))
    {
      var response := solrClient.Query(solrQuery);
      match response
      case Err(e) =>
        r := Err(e.message);
      case Ok(results) =>
        var result := CreateSpiderSearchResultFromSolrResults(results);
        assert result.listOfDataGroups == DecodedRecords(results.documents);
        r := Ok(result);
    }
  }
}
