/**
 * How the indexing side and the search side fit together: the physical
 * field name a collected term is indexed under and the one a search term
 * queries, and the record a search hands back for a document the indexer
 * wrote.
 */
module Agreement {
  import opened Wrappers
  import opened CoraData
  import opened Solr
  import Search = RecordSearch
  import Index = RecordIndexer

  /**
   * Both sides pick the same suffix for every index type except
   * indexTypeId, which the indexer writes as `_s` and the search side
   * looks up as `_t`.
   */
  lemma SuffixesAgreeExceptForId(indexType: string)
    ensures Search.ChooseSuffixFromIndexType(indexType) == Index.ChooseSuffixFromIndexType(indexType)
      <==> indexType != "indexTypeId"
  {
  }

  /**
   * A search on a collect index term targets the field the indexer wrote
   * the matching collected term to, unless its index type is indexTypeId.
   */
  lemma {:induction false} FieldNamesAgreeExceptForId(indexFieldName: string, indexType: string, collectTermValue: string)
    ensures Search.ExtractFieldName(Search.CollectIndexTerm(indexType, indexFieldName))
      == Index.ExtractFieldName(Index.CollectedDataTerm(indexFieldName, indexType, collectTermValue))
      <==> indexType != "indexTypeId"
  {
    var searched := Search.ExtractFieldName(Search.CollectIndexTerm(indexType, indexFieldName));
    var indexed := Index.ExtractFieldName(Index.CollectedDataTerm(indexFieldName, indexType, collectTermValue));
    SuffixesAgreeExceptForId(indexType);
    if indexType == "indexTypeId" {
      assert searched[|searched| - 1] == 't' && indexed[|indexed| - 1] == 's';
    }
  }

  /**
   * The plain query built for a search term whose index term is stored with
   * the same field name and type as a collected term queries that term's
   * physical field, as long as the type is not indexTypeId.
   */
  lemma PlainQueryTargetsIndexedField(storage: Search.SearchStorage, element: Search.SearchDataElement, term: Index.CollectedDataTerm)
    requires element.nameInData in storage.searchTerms
    requires !Search.SearchTypeIsLinkedData(storage.searchTerms[element.nameInData])
    requires storage.searchTerms[element.nameInData].indexTerm in storage.collectIndexTerms
    requires storage.collectIndexTerms[storage.searchTerms[element.nameInData].indexTerm]
      == Search.CollectIndexTerm(term.indexType, term.indexFieldName)
    requires term.indexType != "indexTypeId"
    ensures Search.QueryForSearchTerm(storage, element) == Ok(Index.ExtractFieldName(term) + ":(" + element.value + ")")
  {
    Search.QueryForResolvedSearchTerm(storage, element);
    FieldNamesAgreeExceptForId(term.indexFieldName, term.indexType, term.collectTermValue);
  }

  /**
   * A document the indexer built stores the record's JSON exactly once, and
   * a search decodes exactly that text: the JSON is passed through unchanged.
   */
  lemma IndexedJsonIsWhatSearchDecodes(recordType: string, id: string, ids: seq<string>, terms: seq<Index.CollectedDataTerm>, dataRecord: DataGroup)
    ensures var json := ConvertDataGroupToJsonString(dataRecord);
      var document := Index.BuildDocument(recordType, id, ids, terms, json);
      var stored := Values(document, "recordAsJson");
      |stored| == 1 && Search.DecodedRecords([SolrDocument(stored[0])]) == [ConvertJsonStringToDataGroup(json)]
  {
    Index.DocumentFields(recordType, id, ids, terms, ConvertDataGroupToJsonString(dataRecord));
  }
}
