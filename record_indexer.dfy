/**
 * SolrRecordIndexer: builds one Solr document from the ids a record is
 * known under, its collected data (id, type and collected index terms) and
 * the record's JSON, sends it with or without an explicit commit, and
 * deletes a record's document.
 */
module RecordIndexer {
  import opened Wrappers
  import opened JavaStrings
  import opened CoraData
  import opened Solr

  const INDEX_ERROR_PREFIX: string := "Error while indexing record with type: "
  const DELETE_ERROR_PREFIX: string := "Error while deleting index for record with type: "

  // ---------------------------------------------------------------------
  // Collected data
  // ---------------------------------------------------------------------

  /** A collectedDataTerm child of the index group: its extraData's field name and index type, and its value. */
  datatype CollectedDataTerm = CollectedDataTerm(indexFieldName: string, indexType: string, collectTermValue: string)

  /**
   * The collected data of a record: its `id` and `type` children and, when
   * the `index` group is present, that group's collectedDataTerm children.
   */
  datatype CollectedData = CollectedData(id: string, recordType: string, index: Option<seq<CollectedDataTerm>>)

  /** There is an index group and it has at least one collectedDataTerm. */
  predicate DataGroupHasIndexTerms(collectedData: CollectedData): (b: bool)
    ensures b <==> collectedData.index.Some? && exists term :: term in collectedData.index.value
  {
    var found := collectedData.index.Some? && collectedData.index.value != [];
    if found then
      assert collectedData.index.value[0] in collectedData.index.value;
      found
    else found
  }

  // ---------------------------------------------------------------------
  // Field names
  // ---------------------------------------------------------------------

  /** The suffix that encodes an index type in a Solr field name, as the indexing side chooses it. */
  function ChooseSuffixFromIndexType(indexType: string): (suffix: string)
    ensures suffix == "_s" <==> indexType == "indexTypeString" || indexType == "indexTypeId"
    ensures suffix == "_t" <==>
      indexType !in {"indexTypeString", "indexTypeId", "indexTypeBoolean", "indexTypeDate", "indexTypeNumber"}
  {
    if indexType == "indexTypeString" || indexType == "indexTypeId" then "_s"
    else if indexType == "indexTypeBoolean" then "_b"
    else if indexType == "indexTypeDate" then "_dt"
    else if indexType == "indexTypeNumber" then "_l"
    else "_t"
  }

  /** The physical Solr field a collected term is indexed under. */
  function ExtractFieldName(term: CollectedDataTerm): (name: string)
    ensures |name| > |term.indexFieldName| + 1
    ensures name[..|term.indexFieldName|] == term.indexFieldName
    ensures name[|term.indexFieldName|..] == ChooseSuffixFromIndexType(term.indexType)
    ensures name[|name| - 1] in {'s', 'b', 't', 'l'}
  {
    term.indexFieldName + ChooseSuffixFromIndexType(term.indexType)
  }

  /** The indexing side's suffix table, every row of it. */
  lemma SuffixTable()
    ensures ChooseSuffixFromIndexType("indexTypeString") == "_s"
    ensures ChooseSuffixFromIndexType("indexTypeId") == "_s"
    ensures ChooseSuffixFromIndexType("indexTypeBoolean") == "_b"
    ensures ChooseSuffixFromIndexType("indexTypeDate") == "_dt"
    ensures ChooseSuffixFromIndexType("indexTypeNumber") == "_l"
  {
  }

  /** The fields the indexer itself writes. */
  predicate IsReservedField(name: string) {
    name == "id" || name == "ids" || name == "type" || name == "recordAsJson"
  }

  /** A suffixed field name never collides with a reserved field, so terms cannot add values to them. */
  lemma TermFieldIsNotReserved(term: CollectedDataTerm)
    ensures !IsReservedField(ExtractFieldName(term))
  {
    var suffix := ChooseSuffixFromIndexType(term.indexType);
    var name := ExtractFieldName(term);
    assert name[|name| - 1] == suffix[|suffix| - 1];
    assert name[|name| - 2] == suffix[|suffix| - 2];
  }

  // ---------------------------------------------------------------------
  // The document
  // ---------------------------------------------------------------------

  /** The values of the terms indexed under `name`, in the order the terms were supplied. */
  function ValuesFor(terms: seq<CollectedDataTerm>, name: string): seq<string>
    decreases |terms|
  {
    if terms == [] then []
    else
      var last := terms[|terms| - 1];
      ValuesFor(terms[..|terms| - 1], name) + (if ExtractFieldName(last) == name then [last.collectTermValue] else [])
  }

  lemma {:induction false} NoTermWritesReservedField(terms: seq<CollectedDataTerm>, name: string)
    requires IsReservedField(name)
    ensures ValuesFor(terms, name) == []
    decreases |terms|
  {
    if terms != [] {
      NoTermWritesReservedField(terms[..|terms| - 1], name);
      TermFieldIsNotReserved(terms[|terms| - 1]);
    }
  }

  /** addField(name, v) for each v in order. */
  function AddValues(document: SolrInputDocument, name: string, values: seq<string>): SolrInputDocument
    decreases |values|
  {
    if values == [] then document
    else AddField(AddValues(document, name, values[..|values| - 1]), name, values[|values| - 1])
  }

  /** The values land, in order, after those already under `name`; every other field is untouched. */
  lemma {:induction false} AddValuesValues(document: SolrInputDocument, name: string, values: seq<string>, field: string)
    ensures Values(AddValues(document, name, values), field) ==
      Values(document, field) + (if field == name then values else [])
    ensures WellFormed(document) ==> WellFormed(AddValues(document, name, values))
    decreases |values|
  {
    if values != [] {
      AddValuesValues(document, name, values[..|values| - 1], field);
      assert values[..|values| - 1] + [values[|values| - 1]] == values;
    }
  }

  /** addField(physical name, value) for each term in order. */
  function AddIndexTermFields(document: SolrInputDocument, terms: seq<CollectedDataTerm>): SolrInputDocument
    decreases |terms|
  {
    if terms == [] then document
    else
      var last := terms[|terms| - 1];
      AddField(AddIndexTermFields(document, terms[..|terms| - 1]), ExtractFieldName(last), last.collectTermValue)
  }

  /** Each field gains exactly the values of the terms indexed under it, in supplied order. */
  lemma {:induction false} AddIndexTermFieldsValues(document: SolrInputDocument, terms: seq<CollectedDataTerm>, field: string)
    ensures Values(AddIndexTermFields(document, terms), field) == Values(document, field) + ValuesFor(terms, field)
    ensures WellFormed(document) ==> WellFormed(AddIndexTermFields(document, terms))
    decreases |terms|
  {
    if terms != [] {
      var shorter := terms[..|terms| - 1];
      var last := terms[|terms| - 1];
      var before := AddIndexTermFields(document, shorter);
      AddIndexTermFieldsValues(document, shorter, field);
      assert AddIndexTermFields(document, terms) == AddField(before, ExtractFieldName(last), last.collectTermValue);
      assert ValuesFor(terms, field) ==
        ValuesFor(shorter, field) + (if ExtractFieldName(last) == field then [last.collectTermValue] else []);
    }
  }

  /** id, the ids, type, the index terms, then recordAsJson, added in that order to a new document. */
  function BuildDocument(recordType: string, id: string, ids: seq<string>, terms: seq<CollectedDataTerm>, json: string): SolrInputDocument {
    var withId := AddField(EmptyDocument(), "id", recordType + "_" + id);
    var withIds := AddValues(withId, "ids", ids);
    var withType := AddField(withIds, "type", recordType);
    var withTerms := AddIndexTermFields(withType, terms);
    AddField(withTerms, "recordAsJson", json)
  }

  /** The values of one field of the built document. */
  function DocumentValues(recordType: string, id: string, ids: seq<string>, terms: seq<CollectedDataTerm>, json: string, field: string): seq<string> {
    if field == "id" then [recordType + "_" + id]
    else if field == "ids" then ids
    else if field == "type" then [recordType]
    else if field == "recordAsJson" then [json]
    else ValuesFor(terms, field)
  }

  lemma BuildDocumentField(recordType: string, id: string, ids: seq<string>, terms: seq<CollectedDataTerm>, json: string, field: string)
    ensures Values(BuildDocument(recordType, id, ids, terms, json), field) == DocumentValues(recordType, id, ids, terms, json, field)
  {
    var withId := AddField(EmptyDocument(), "id", recordType + "_" + id);
    var withIds := AddValues(withId, "ids", ids);
    var withType := AddField(withIds, "type", recordType);
    var withTerms := AddIndexTermFields(withType, terms);
    AddValuesValues(withId, "ids", ids, field);
    AddIndexTermFieldsValues(withType, terms, field);
    assert Values(withTerms, field) == Values(withType, field) + ValuesFor(terms, field);
    if IsReservedField(field) {
      NoTermWritesReservedField(terms, field);
      assert Values(withTerms, field) == Values(withType, field);
    }
  }

  /** No field of the built document is present without values. */
  lemma BuildDocumentWellFormed(recordType: string, id: string, ids: seq<string>, terms: seq<CollectedDataTerm>, json: string)
    ensures WellFormed(BuildDocument(recordType, id, ids, terms, json))
  {
    var withId := AddField(EmptyDocument(), "id", recordType + "_" + id);
    var withIds := AddValues(withId, "ids", ids);
    var withType := AddField(withIds, "type", recordType);
    AddValuesValues(withId, "ids", ids, "");
    AddIndexTermFieldsValues(withType, terms, "");
  }

  /**
   * The built document: id is `type_id`, ids holds every supplied id in
   * order, type is the type, recordAsJson the record's JSON, every other
   * field holds exactly the values of the terms indexed under it in supplied
   * order (several terms with one physical name make one multi-valued field),
   * and no field is present without values.
   */
  lemma DocumentFields(recordType: string, id: string, ids: seq<string>, terms: seq<CollectedDataTerm>, json: string)
    ensures var document := BuildDocument(recordType, id, ids, terms, json);
      && Values(document, "id") == [recordType + "_" + id]
      && Values(document, "ids") == ids
      && Values(document, "type") == [recordType]
      && Values(document, "recordAsJson") == [json]
      && (forall name :: !IsReservedField(name) ==> Values(document, name) == ValuesFor(terms, name))
      && (forall name :: name in document.fields <==> Values(document, name) != [])
  {
    var document := BuildDocument(recordType, id, ids, terms, json);
    BuildDocumentWellFormed(recordType, id, ids, terms, json);
    BuildDocumentField(recordType, id, ids, terms, json, "id");
    BuildDocumentField(recordType, id, ids, terms, json, "ids");
    BuildDocumentField(recordType, id, ids, terms, json, "type");
    BuildDocumentField(recordType, id, ids, terms, json, "recordAsJson");
    forall name | !IsReservedField(name)
      ensures Values(document, name) == ValuesFor(terms, name)
    {
      BuildDocumentField(recordType, id, ids, terms, json, name);
    }
  }

  /** Two terms with one physical name make one field holding both values, in supplied order. */
  lemma SharedFieldKeepsOrder(recordType: string, id: string, ids: seq<string>, first: CollectedDataTerm, second: CollectedDataTerm, json: string)
    requires ExtractFieldName(first) == ExtractFieldName(second)
    ensures Values(BuildDocument(recordType, id, ids, [first, second], json), ExtractFieldName(first)) ==
      [first.collectTermValue, second.collectTermValue]
  {
    BuildDocumentField(recordType, id, ids, [first, second], json, ExtractFieldName(first));
    TermFieldIsNotReserved(first);
    assert [first, second][..1] == [first];
    assert [first][..0] == [];
    assert ValuesFor([first], ExtractFieldName(first)) == [first.collectTermValue];
  }

  // ---------------------------------------------------------------------
  // Transport
  // ---------------------------------------------------------------------

  datatype SolrIndexException = SolrIndexException(message: string, cause: SolrException)

  /** The calls an indexing sends: add, then commit only when explicit. */
  function IndexRequests(document: SolrInputDocument, performExplicitCommit: bool): seq<Request> {
    [AddRequest(document)] + (if performExplicitCommit then [CommitRequest] else [])
  }

  /** The calls a deletion sends: deleteById of the composite id, then commit, always. */
  function DeleteRequests(recordType: string, id: string): seq<Request> {
    [DeleteByIdRequest(recordType + "_" + id), CommitRequest]
  }

  /** The exception an indexing failure is rethrown as: it names the type, the id and the original message, and keeps the original. */
  function IndexingFailure(recordType: string, id: string, cause: SolrException): (e: SolrIndexException)
    ensures |e.message| >= |INDEX_ERROR_PREFIX| && e.message[..|INDEX_ERROR_PREFIX|] == INDEX_ERROR_PREFIX
    ensures Contains(e.message, recordType) && Contains(e.message, id) && Contains(e.message, cause.message)
    ensures e.cause == cause
  {
    WrappedMessageCarriesContext(INDEX_ERROR_PREFIX, recordType, id, cause.message);
    SolrIndexException(INDEX_ERROR_PREFIX + recordType + " and id: " + id + " " + cause.message, cause)
  }

  /** The exception a deletion failure is rethrown as: it names the type, the id and the original message, and keeps the original. */
  function DeletionFailure(recordType: string, id: string, cause: SolrException): (e: SolrIndexException)
    ensures |e.message| >= |DELETE_ERROR_PREFIX| && e.message[..|DELETE_ERROR_PREFIX|] == DELETE_ERROR_PREFIX
    ensures Contains(e.message, recordType) && Contains(e.message, id) && Contains(e.message, cause.message)
    ensures e.cause == cause
  {
    WrappedMessageCarriesContext(DELETE_ERROR_PREFIX, recordType, id, cause.message);
    SolrIndexException(DELETE_ERROR_PREFIX + recordType + " and id: " + id + " " + cause.message, cause)
  }

  function IndexOutcome(recordType: string, id: string, failure: Option<SolrException>): Outcome<SolrIndexException> {
    if failure.Some? then Fail(IndexingFailure(recordType, id, failure.value)) else Pass
  }

  function DeleteOutcome(recordType: string, id: string, failure: Option<SolrException>): Outcome<SolrIndexException> {
    if failure.Some? then Fail(DeletionFailure(recordType, id, failure.value)) else Pass
  }

  /** The message shape of IndexingFailure and DeletionFailure names the record type, the id and the original message. */
  lemma {:induction false} WrappedMessageCarriesContext(prefix: string, recordType: string, id: string, message: string)
    ensures var m := prefix + recordType + " and id: " + id + " " + message;
      Contains(m, recordType) && Contains(m, id) && Contains(m, message)
  {
    ContainsSuffix(prefix, recordType);
    ContainsExtendRight(prefix + recordType, " and id: ", recordType);
    ContainsExtendRight(prefix + recordType + " and id: ", id, recordType);
    ContainsExtendRight(prefix + recordType + " and id: " + id, " ", recordType);
    ContainsExtendRight(prefix + recordType + " and id: " + id + " ", message, recordType);
    ContainsSuffix(prefix + recordType + " and id: ", id);
    ContainsExtendRight(prefix + recordType + " and id: " + id, " ", id);
    ContainsExtendRight(prefix + recordType + " and id: " + id + " ", message, id);
    ContainsSuffix(prefix + recordType + " and id: " + id + " ", message);
  }

  /**
   * What the client receives when a document is indexed at trace position
   * `position`: add then commit (explicit) or add alone; a throwing add ends
   * the sequence before any commit; a commit that throws comes after the add.
   */
  lemma IndexTransmission(document: SolrInputDocument, performExplicitCommit: bool, position: nat, failFrom: Option<nat>, failMessage: string)
    ensures var t := Transmit(IndexRequests(document, performExplicitCommit), position, failFrom, failMessage);
      && (failFrom.None? ==> t == Transmission(IndexRequests(document, performExplicitCommit), None))
      && (failFrom.Some? && failFrom.value <= position ==> t == Transmission([AddRequest(document)], Some(SolrException(failMessage))))
      && (failFrom == Some(position + 1) && performExplicitCommit ==>
            t == Transmission([AddRequest(document), CommitRequest], Some(SolrException(failMessage))))
      && (failFrom.Some? && failFrom.value > position && !performExplicitCommit ==> t == Transmission([AddRequest(document)], None))
  {
    var requests := IndexRequests(document, performExplicitCommit);
    var t := Transmit(requests, position, failFrom, failMessage);
    if failFrom.Some? && failFrom.value <= position {
      assert t.sent == requests[..1];
    }
    if failFrom == Some(position + 1) && performExplicitCommit {
      assert t.sent == requests[..2];
    }
  }

  /** A deletion sends deleteById(type_id) and then commit; a throwing delete ends the sequence before the commit. */
  lemma DeleteTransmission(recordType: string, id: string, position: nat, failFrom: Option<nat>, failMessage: string)
    ensures var t := Transmit(DeleteRequests(recordType, id), position, failFrom, failMessage);
      && (failFrom.None? ==> t.sent == [DeleteByIdRequest(recordType + "_" + id), CommitRequest] && t.failure.None?)
      && (failFrom.Some? && failFrom.value <= position ==>
            t == Transmission([DeleteByIdRequest(recordType + "_" + id)], Some(SolrException(failMessage))))
  {
    var requests := DeleteRequests(recordType, id);
    var t := Transmit(requests, position, failFrom, failMessage);
    if failFrom.Some? && failFrom.value <= position {
      assert t.sent == requests[..1];
    }
  }

  // ---------------------------------------------------------------------
  // The indexer
  // ---------------------------------------------------------------------

  class SolrRecordIndexer {
    const solrClientProvider: SolrClientProvider
    // Per-call state; the model starts from blank values where Java starts from null.
    var id: string
    var recordType: string
    var collectedData: CollectedData
    var document: SolrInputDocument
    var ids: seq<string>

    constructor CreateSolrRecordIndexerUsingSolrClientProvider(solrClientProvider: SolrClientProvider)
      ensures this.solrClientProvider == solrClientProvider
      ensures id == "" && recordType == "" && collectedData == CollectedData("", "", None)
      ensures document == EmptyDocument() && ids == []
    {
      this.solrClientProvider := solrClientProvider;
      id := "";
      recordType := "";
      collectedData := CollectedData("", "", None);
      document := EmptyDocument();
      ids := [];
    }

    /** Indexes the record and commits explicitly. */
    method IndexData(ids: seq<string>, collectedData: CollectedData, dataRecord: DataGroup) returns (outcome: Outcome<SolrIndexException>)
      modifies this, solrClientProvider.client`trace
      ensures this.ids == ids && this.collectedData == collectedData
      ensures var client := solrClientProvider.client;
        !DataGroupHasIndexTerms(collectedData) ==>
          && outcome == Pass && client.trace == old(client.trace)
          && id == old(id) && recordType == old(recordType) && document == old(document)
      ensures DataGroupHasIndexTerms(collectedData) ==>
        var client := solrClientProvider.client;
        var terms := collectedData.index.value;
        var built := BuildDocument(collectedData.recordType, collectedData.id, ids, terms, ConvertDataGroupToJsonString(dataRecord));
        var t := Transmit(IndexRequests(built, true), |old(client.trace)|, client.failFrom, client.failMessage);
        && id == collectedData.id && recordType == collectedData.recordType && document == built
        && client.trace == old(client.trace) + t.sent
        && outcome == IndexOutcome(collectedData.recordType, collectedData.id, t.failure)
    {
      this.ids := ids;
      this.collectedData := collectedData;
      outcome := PossiblyIndexData(dataRecord, true);
    }

    /** Indexes the record and leaves the commit to the caller. */
    method IndexDataWithoutExplicitCommit(ids: seq<string>, collectedData: CollectedData, dataRecord: DataGroup) returns (outcome: Outcome<SolrIndexException>)
      modifies this, solrClientProvider.client`trace
      ensures this.ids == ids && this.collectedData == collectedData
      ensures var client := solrClientProvider.client;
        !DataGroupHasIndexTerms(collectedData) ==>
          && outcome == Pass && client.trace == old(client.trace)
          && id == old(id) && recordType == old(recordType) && document == old(document)
      ensures DataGroupHasIndexTerms(collectedData) ==>
        var client := solrClientProvider.client;
        var terms := collectedData.index.value;
        var built := BuildDocument(collectedData.recordType, collectedData.id, ids, terms, ConvertDataGroupToJsonString(dataRecord));
        var t := Transmit(IndexRequests(built, false), |old(client.trace)|, client.failFrom, client.failMessage);
        && id == collectedData.id && recordType == collectedData.recordType && document == built
        && client.trace == old(client.trace) + t.sent
        && outcome == IndexOutcome(collectedData.recordType, collectedData.id, t.failure)
    {
      this.ids := ids;
      this.collectedData := collectedData;
      outcome := PossiblyIndexData(dataRecord, false);
    }

    method PossiblyIndexData(dataRecord: DataGroup, performExplicitCommit: bool) returns (outcome: Outcome<SolrIndexException>)
      modifies this`id, this`recordType, this`document, solrClientProvider.client`trace
      ensures var client := solrClientProvider.client;
        !DataGroupHasIndexTerms(collectedData) ==>
          && outcome == Pass && client.trace == old(client.trace)
          && id == old(id) && recordType == old(recordType) && document == old(document)
      ensures DataGroupHasIndexTerms(collectedData) ==>
        var client := solrClientProvider.client;
        var terms := collectedData.index.value;
        var built := BuildDocument(collectedData.recordType, collectedData.id, ids, terms, ConvertDataGroupToJsonString(dataRecord));
        var t := Transmit(IndexRequests(built, performExplicitCommit), |old(client.trace)|, client.failFrom, client.failMessage);
        && id == collectedData.id && recordType == collectedData.recordType && document == built
        && client.trace == old(client.trace) + t.sent
        && outcome == IndexOutcome(collectedData.recordType, collectedData.id, t.failure)
    {
      if DataGroupHasIndexTerms(collectedData) {
        outcome := IndexDataKnownToContainDataToIndex(dataRecord, performExplicitCommit);
      } else {
        outcome := Pass;
      }
    }

    method IndexDataKnownToContainDataToIndex(dataRecord: DataGroup, performExplicitCommit: bool) returns (outcome: Outcome<SolrIndexException>)
      requires collectedData.index.Some?
      modifies this`id, this`recordType, this`document, solrClientProvider.client`trace
      ensures var client := solrClientProvider.client;
        var terms := collectedData.index.value;
        var built := BuildDocument(collectedData.recordType, collectedData.id, ids, terms, ConvertDataGroupToJsonString(dataRecord));
        var t := Transmit(IndexRequests(built, performExplicitCommit), |old(client.trace)|, client.failFrom, client.failMessage);
        && id == collectedData.id && recordType == collectedData.recordType && document == built
        && client.trace == old(client.trace) + t.sent
        && outcome == IndexOutcome(collectedData.recordType, collectedData.id, t.failure)
    {
      document := EmptyDocument();
      ExtractRecordIdentification();
      AddIdToDocument();
      AddTypeToDocument();
      AddIndexTerms();
      var json := ConvertDataGroupToJsonString(dataRecord);
      document := AddField(document, "recordAsJson", json);
      outcome := SendDocumentToSolr(performExplicitCommit);
    }

    method ExtractRecordIdentification()
      modifies this`id, this`recordType
      ensures id == collectedData.id && recordType == collectedData.recordType
    {
      id := collectedData.id;
      recordType := collectedData.recordType;
    }

    /** id as `type_id`, then every id of `ids` under the repeated field `ids`. */
    method AddIdToDocument()
      modifies this`document
      ensures document == AddValues(AddField(old(document), "id", recordType + "_" + id), "ids", ids)
    {
      document := AddField(document, "id", recordType + "_" + id);
      ghost var withId := document;
      var i := 0;
      while i < |ids|
        invariant 0 <= i <= |ids|
        invariant document == AddValues(withId, "ids", ids[..i])
      {
        assert ids[..i + 1][..i] == ids[..i];
        assert AddValues(withId, "ids", ids[..i + 1]) == AddField(AddValues(withId, "ids", ids[..i]), "ids", ids[i]);
        document := AddField(document, "ids", ids[i]);
        i := i + 1;
      }
      assert ids[..i] == ids;
    }

    method AddTypeToDocument()
      modifies this`document
      ensures document == AddField(old(document), "type", recordType)
    {
      document := AddField(document, "type", recordType);
    }

    /** Each collected term's value under its physical field name, in order. */
    method AddIndexTerms()
      requires collectedData.index.Some?
      modifies this`document
      ensures document == AddIndexTermFields(old(document), collectedData.index.value)
    {
      var allIndexTermGroups := collectedData.index.value;
      var i := 0;
      while i < |allIndexTermGroups|
        invariant 0 <= i <= |allIndexTermGroups|
        invariant document == AddIndexTermFields(old(document), allIndexTermGroups[..i])
      {
        var term := allIndexTermGroups[i];
        assert allIndexTermGroups[..i + 1][..i] == allIndexTermGroups[..i];
        assert AddIndexTermFields(old(document), allIndexTermGroups[..i + 1]) ==
          AddField(AddIndexTermFields(old(document), allIndexTermGroups[..i]), ExtractFieldName(term), term.collectTermValue);
        document := AddField(document, ExtractFieldName(term), term.collectTermValue);
        i := i + 1;
      }
      assert allIndexTermGroups[..i] == allIndexTermGroups;
    }

    /** add, then commit when explicit; any exception is rethrown as a SolrIndexException. */
    method SendDocumentToSolr(performExplicitCommit: bool) returns (outcome: Outcome<SolrIndexException>)
      modifies solrClientProvider.client`trace
      ensures var client := solrClientProvider.client;
        var t := Transmit(IndexRequests(document, performExplicitCommit), |old(client.trace)|, client.failFrom, client.failMessage);
        client.trace == old(client.trace) + t.sent && outcome == IndexOutcome(recordType, id, t.failure)
    {
      var solrClient := solrClientProvider.GetSolrClient();
      ghost var position := |solrClient.trace|;
      var failure := solrClient.Add(document);
      if failure.None? && performExplicitCommit {
        failure := solrClient.Commit();
      }
      ghost var requests := IndexRequests(document, performExplicitCommit);
      assert requests[1..] == (if performExplicitCommit then [CommitRequest] else []);
      if failure.Some? {
        outcome := Fail(IndexingFailure(recordType, id, failure.value));
      } else {
        outcome := Pass;
      }
    }

    /** deleteById(type_id) and then commit, always; any exception is rethrown as a SolrIndexException. */
    method DeleteFromIndex(recordType: string, id: string) returns (outcome: Outcome<SolrIndexException>)
      modifies solrClientProvider.client`trace
      ensures var client := solrClientProvider.client;
        var t := Transmit(DeleteRequests(recordType, id), |old(client.trace)|, client.failFrom, client.failMessage);
        client.trace == old(client.trace) + t.sent && outcome == DeleteOutcome(recordType, id, t.failure)
    {
      var solrClient := solrClientProvider.GetSolrClient();
      var failure := solrClient.DeleteById(recordType + "_" + id);
      if failure.None? {
        failure := solrClient.Commit();
      }
      ghost var requests := DeleteRequests(recordType, id);
      assert requests[1..] == [CommitRequest];
      if failure.Some? {
        outcome := Fail(DeletionFailure(recordType, id, failure.value));
      } else {
        outcome := Pass;
      }
    }
  }
}
