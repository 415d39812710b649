# cora-solrsearch in Dafny

This project models the Solr layer of Cora, which has three parts:

- **SolrRecordIndexer** takes the ids a record is known under, the record's collected data and the record's JSON, turns them into one Solr input document and sends it. The collected data holds the record's id, its type and its collected index terms.
  - The document holds `id` = `type_id`, the repeated field `ids`, `type`, one field per collected term, and `recordAsJson`.
  - Each term's field name is its index field name plus a suffix that encodes its index type.
  - The document is sent with `add`, followed by `commit` when the commit is explicit.
  - Deleting a record sends `deleteById(type_id)` and then always `commit`.
  - Every client failure is rethrown as a `SolrIndexException`. Its message names the record type, the id and the original message, and it keeps the original exception as its cause.
- **SolrRecordIndexerFactory** makes a new indexer on every call. It shares one client provider per Solr URL among all the indexers for that URL.
- **SolrRecordSearch** builds a `SolrQuery` from a list of record types and the search data, then sends it.
  - The search data holds optional `rows` and `start` texts and the include part's search terms.
  - The query gets rows and start, one filter query `type:A OR type:B …`, and a `q` from each search term.
  - Each search term is resolved through the search storage. It becomes either a plain query `field:(value)` or a join query `{!join from=ids to=<linked field>}field:value AND type:<record type>`.
  - Each returned document's `recordAsJson` is decoded back into a record.
  - Any exception that contains `undefined field` yields an empty result. Any other exception becomes a `SolrSearchException` whose message is `Error searching for records: ` followed by the original message.

The three Java classes become Dafny classes with the same fields. Their methods update those fields and are proved against functions of the inputs and the old state:

- `BuildDocument` and `IndexRequests` specify the indexer.
- `BuildSolrQuery`, `QueryAfterTerms` and `SearchOutcome` specify the search.
- A map of providers whose every entry was made for its own URL specifies the factory.

The Solr client is a recording class. It keeps every `add`, `commit`, `deleteById` and `query` call it receives, in order. It can be set to throw from a given call position on, and a call that throws is still recorded. `Transmit` describes a Java try block around consecutive client calls: the calls made stop at the first one that throws.

Behaviour of the code worth noting:

- Search values are inserted as they are. Nothing is escaped, including `:` in a plain query.
- `start` is passed to Solr unchanged and defaults to 0. It is not a 1-based value shifted by one.
- Every search term sets `q` and replaces the previous one. Terms are not combined with `AND`, so only the last term counts (`LastTermDecides`).
- A `rows` or `start` that `Integer.valueOf` cannot read does not fall back to the default. The `NumberFormatException` ends the search and is classified like any other exception (`MalformedRowsOutcome`).
- The indexer writes `indexTypeId` terms to `_s` fields, while the search side looks them up as `_t` fields (`Agreement.FieldNamesAgreeExceptForId`).
- `ids` holds exactly the ids supplied. The canonical id is not added to it.
- The per-call working state lives in fields of the indexer and the searcher: the id, the type, the document, the query and the client.

## Model

| member | source | states |
|---|---|---|
| JavaStrings.ContainsIff | src/main/java/se/uu/ub/cora/solrsearch/SolrRecordSearch.java:275-277 | `Contains` (String.contains) holds exactly when the text occurs at some index of the message |
| JavaStrings.IntegerValueOf | src/main/java/se/uu/ub/cora/solrsearch/SolrRecordSearch.java:114-117 | A parsed value lies in the 32-bit range. The text starts with a digit or a sign, and every later character is a digit. Every failure carries the message `For input string: "<s>"` |
| JavaStrings.IntegerValueOfRejects | src/main/java/se/uu/ub/cora/solrsearch/SolrRecordSearch.java:114-117 | The empty text, a lone sign, a first character that is neither digit nor sign, and any later non-digit all fail |
| JavaStrings.IntegerValueOfDigits | src/main/java/se/uu/ub/cora/solrsearch/SolrRecordSearch.java:114-117 | A run of digits reads as its decimal value when that fits in 32 bits, and fails otherwise |
| JavaStrings.IntegerValueOfSignedDigits | src/main/java/se/uu/ub/cora/solrsearch/SolrRecordSearch.java:114-117 | `+` then digits reads as the digits' value, and `-` then digits as its negation, each when it fits in 32 bits; otherwise the text fails |
| JavaStrings.LeadingZeroIgnored | src/main/java/se/uu/ub/cora/solrsearch/SolrRecordSearch.java:114-117 | Leading zeros do not change a numeral's value, so `007` reads as 7 |
| JavaStrings.IntegerValueOfToString | src/main/java/se/uu/ub/cora/solrsearch/SolrRecordSearch.java:114-117 | Integer.valueOf reads back every 32-bit number that Integer.toString writes |
| JavaStrings.JoinFromFront | src/main/java/se/uu/ub/cora/solrsearch/SolrRecordSearch.java:119-123 | String.join is the first part followed by each later part with the separator before it |
| JavaStrings.JoinContainsParts | src/main/java/se/uu/ub/cora/solrsearch/SolrRecordSearch.java:119-123 | Every part occurs in the joined text |
| Solr.AddField | src/main/java/se/uu/ub/cora/solrindex/SolrRecordIndexer.java:112-115 | addField appends the value to the field's values, keeping the earlier ones and their order. Every other field is unchanged, and no field is ever left empty |
| Solr.Transmit | src/main/java/se/uu/ub/cora/solrindex/SolrRecordIndexer.java:140-157 | The calls made are a prefix of those intended. All of them are made when none throws. A failure happens exactly when a call at or past the failing position is intended, and the sequence stops right after the first call that throws |
| Solr.TransmitToHealthyClient | src/main/java/se/uu/ub/cora/solrindex/SolrRecordIndexer.java:140-157 | A client that never throws receives every call, and nothing fails |
| Solr.SolrClient.Add | src/main/java/se/uu/ub/cora/solrindex/SolrRecordIndexer.java:143 | The document is recorded after the earlier calls. The call throws exactly when its position is at or past the failing position |
| Solr.SolrClient.Commit | src/main/java/se/uu/ub/cora/solrindex/SolrRecordIndexer.java:155 | A commit is recorded after the earlier calls. The call throws exactly when its position is at or past the failing position |
| Solr.SolrClient.DeleteById | src/main/java/se/uu/ub/cora/solrindex/SolrRecordIndexer.java:182 | The deletion of the given id is recorded after the earlier calls. The call throws exactly when its position is at or past the failing position |
| Solr.SolrClient.Query | src/main/java/se/uu/ub/cora/solrsearch/SolrRecordSearch.java:240-244 | The query is recorded. The call returns the client's results, or the exception when this call throws |
| Solr.SolrClientProvider.UsingBaseUrl | src/test/java/se/uu/ub/cora/solr/SolrClientProviderTest.java:47-50 | The provider keeps the base URL and owns a new client that has received nothing yet |
| Solr.SolrClientProvider.GetSolrClient | src/test/java/se/uu/ub/cora/solr/SolrClientProviderTest.java:58-65 | Every call returns the same client instance |
| RecordSearch.ChooseSuffixFromIndexType | src/main/java/se/uu/ub/cora/solrsearch/SolrRecordSearch.java:205-217 | The suffix is `_t` exactly when the type is none of string, boolean, date and number |
| RecordSearch.ExtractFieldName | src/main/java/se/uu/ub/cora/solrsearch/SolrRecordSearch.java:196-203 | The field name starts with the index field name and ends with the suffix of the index type, which is at least two characters long |
| RecordSearch.SuffixTable | src/main/java/se/uu/ub/cora/solrsearch/SolrRecordSearch.java:196-217 | The search side's suffix for each index type: `_s`, `_b`, `_dt` and `_l`, with `_t` for indexTypeId. For any index field name and index type, the field name is the index field name followed by that type's suffix |
| RecordSearch.GetNumberOfRowsToReadOrDefault | src/main/java/se/uu/ub/cora/solrsearch/SolrRecordSearch.java:100-105 | Without a rows child, rows is 100. A value read lies in the 32-bit range. A failure comes only from a rows child, with Integer.valueOf's message for its text |
| RecordSearch.GetStartRowToReadFromOrDefault | src/main/java/se/uu/ub/cora/solrsearch/SolrRecordSearch.java:107-112 | Without a start child, start is 0. A value read lies in the 32-bit range. A failure comes only from a start child, with Integer.valueOf's message for its text |
| RecordSearch.PagingParameters | src/main/java/se/uu/ub/cora/solrsearch/SolrRecordSearch.java:100-117 | Without a rows child, rows is 100; without a start child, start is 0. A child holding the decimal text of a 32-bit number gives that number unchanged. Text that Integer.valueOf rejects fails with its message |
| RecordSearch.AddTypeToRecordTypes | src/main/java/se/uu/ub/cora/solrsearch/SolrRecordSearch.java:125-131 | There is one entry per record type, in list order, each `type:` followed by the type |
| RecordSearch.FilterQueryNamesEveryType | src/main/java/se/uu/ub/cora/solrsearch/SolrRecordSearch.java:119-131 | Every `type:t` occurs in the filter query. Read from the front, the query is the first `type:t` followed by ` OR type:t` for each later type |
| RecordSearch.FilterQueryShape | src/main/java/se/uu/ub/cora/solrsearch/SolrRecordSearch.java:119-131 | The filter query is empty for no types and `type:t` for one type. Each further type appends ` OR type:t` |
| RecordSearch.CreateQueryForFinal | src/main/java/se/uu/ub/cora/solrsearch/SolrRecordSearch.java:167-178 | The plain query is the field, then `:(`, then the value exactly as given, then `)` |
| RecordSearch.CreateQueryForLinkedData | src/main/java/se/uu/ub/cora/solrsearch/SolrRecordSearch.java:155-165 | The join query is a join head on the linked field, then `field:`, then the value as given, then ` AND type:` and the record type |
| RecordSearch.QueryForSearchTerm | src/main/java/se/uu/ub/cora/solrsearch/SolrRecordSearch.java:141-194 | A search term fails exactly when its name, its index term or (for linkedData) its linkedOn term is unknown to the storage, and the error is the storage's message |
| RecordSearch.QueryForResolvedSearchTerm | src/main/java/se/uu/ub/cora/solrsearch/SolrRecordSearch.java:141-194 | A resolved term gives the exact join string when it is linkedData, and `field:(value)` otherwise |
| RecordSearch.NextTerm | src/main/java/se/uu/ub/cora/solrsearch/SolrRecordSearch.java:133-139 | After a successful run, one more term either fails with its message and q kept, or replaces q with its query |
| RecordSearch.FailureEndsTerms | src/main/java/se/uu/ub/cora/solrsearch/SolrRecordSearch.java:133-139 | Once a term has thrown, the terms after it change nothing |
| RecordSearch.SucceededRunResolves | src/main/java/se/uu/ub/cora/solrsearch/SolrRecordSearch.java:133-139 | In a run of terms that succeeded, every term resolved |
| RecordSearch.FailedRunHasFailingTerm | src/main/java/se/uu/ub/cora/solrsearch/SolrRecordSearch.java:133-139 | A run of terms that failed has a term that does not resolve |
| RecordSearch.TermsSucceedIffAllResolve | src/main/java/se/uu/ub/cora/solrsearch/SolrRecordSearch.java:133-139 | Adding the terms succeeds exactly when every term resolves |
| RecordSearch.LastTermStep | src/main/java/se/uu/ub/cora/solrsearch/SolrRecordSearch.java:133-139 | A run succeeds exactly when the run without its last term succeeds and the last term resolves |
| RecordSearch.FirstFailingTermReported | src/main/java/se/uu/ub/cora/solrsearch/SolrRecordSearch.java:133-139 | The error reported is that of the first term that fails |
| RecordSearch.LastTermDecides | src/main/java/se/uu/ub/cora/solrsearch/SolrRecordSearch.java:133-139 | After a successful run, q is the last term's query alone, the same as running that term by itself |
| RecordSearch.NoTermsKeepQuery | src/main/java/se/uu/ub/cora/solrsearch/SolrRecordSearch.java:133-139 | An include part without terms leaves q as it was |
| RecordSearch.BuildSolrQueryParameters | src/main/java/se/uu/ub/cora/solrsearch/SolrRecordSearch.java:85-98 | With readable paging, the query carries rows and start as read, exactly one filter query, and the q and error of the terms |
| RecordSearch.DefaultPaging | src/main/java/se/uu/ub/cora/solrsearch/SolrRecordSearch.java:100-112 | A search without rows and start asks for 100 rows from offset 0 |
| RecordSearch.MalformedRows | src/main/java/se/uu/ub/cora/solrsearch/SolrRecordSearch.java:85-117 | An unreadable rows stops the build before anything is set, with Integer.valueOf's message |
| RecordSearch.IsUndefinedFieldError | src/main/java/se/uu/ub/cora/solrsearch/SolrRecordSearch.java:275-277 | The test holds exactly when `undefined field` occurs at some index of the message |
| RecordSearch.HandleErrors | src/main/java/se/uu/ub/cora/solrsearch/SolrRecordSearch.java:78-83 | The result is empty exactly when the message contains `undefined field`. Otherwise it is a SolrSearchException whose message is `Error searching for records: ` followed by the original message |
| RecordSearch.UndefinedFieldFromServerIsEmptyResult | src/main/java/se/uu/ub/cora/solrsearch/SolrRecordSearch.java:275-283 | Solr's "undefined field" complaint gives the empty result |
| RecordSearch.NumberFormatClassification | src/main/java/se/uu/ub/cora/solrsearch/SolrRecordSearch.java:73-83 | A NumberFormatException counts as an undefined-field error exactly when the unreadable text itself contains `undefined field` |
| RecordSearch.MalformedRowsOutcome | src/main/java/se/uu/ub/cora/solrsearch/SolrRecordSearch.java:67-117 | An unreadable rows makes the search fail with `Error searching for records: For input string: "<rows>"`, unless the text contains `undefined field` |
| RecordSearch.DecodedRecords | src/main/java/se/uu/ub/cora/solrsearch/SolrRecordSearch.java:253-263 | There is one record per returned document, in document order, each decoded from that document's recordAsJson |
| RecordSearch.CreateSpiderSearchResultFromSolrResults | src/main/java/se/uu/ub/cora/solrsearch/SolrRecordSearch.java:246-263 | The loop returns Solr's total and one decoded record per document, in order |
| RecordSearch.SolrRecordSearch.CreateSolrRecordSearchUsingSolrClientProviderAndSearchStorage | src/main/java/se/uu/ub/cora/solrsearch/SolrRecordSearch.java:57-65 | The searcher keeps the provider and the storage |
| RecordSearch.SolrRecordSearch.SearchUsingListOfRecordTypesToSearchInAndSearchData | src/main/java/se/uu/ub/cora/solrsearch/SolrRecordSearch.java:67-76 | The client receives exactly one query call, carrying the built query, when the query could be built, and none otherwise. The result is SearchOutcome, so an exception thrown while building or querying goes through HandleErrors |
| RecordSearch.SolrRecordSearch.TryToSearch | src/main/java/se/uu/ub/cora/solrsearch/SolrRecordSearch.java:85-98 | The query field ends as the built query. A build error is returned without contacting Solr; otherwise the query is sent, and its failure or decoded results are returned |
| RecordSearch.SolrRecordSearch.AddRecordTypesToFilterQuery | src/main/java/se/uu/ub/cora/solrsearch/SolrRecordSearch.java:119-123 | Exactly one filter query is appended to the query |
| RecordSearch.SolrRecordSearch.AddSearchTermsToQuery | src/main/java/se/uu/ub/cora/solrsearch/SolrRecordSearch.java:133-139 | The loop leaves q and the error as QueryAfterTerms says and changes nothing else in the query |
| RecordSearch.SolrRecordSearch.SearchInSolr | src/main/java/se/uu/ub/cora/solrsearch/SolrRecordSearch.java:235-244 | The current query is sent once. The exception's message or the decoded page is returned |
| RecordIndexer.DataGroupHasIndexTerms | src/main/java/se/uu/ub/cora/solrindex/SolrRecordIndexer.java:68-72 | The test holds exactly when there is an index group and it holds at least one collectedDataTerm |
| RecordIndexer.ChooseSuffixFromIndexType | src/main/java/se/uu/ub/cora/solrindex/SolrRecordIndexer.java:126-138 | The suffix is `_s` exactly for string and id. It is `_t` exactly when the type is none of string, id, boolean, date and number |
| RecordIndexer.SuffixTable | src/main/java/se/uu/ub/cora/solrindex/SolrRecordIndexer.java:126-138 | The indexing side's suffix table, row by row |
| RecordIndexer.ExtractFieldName | src/main/java/se/uu/ub/cora/solrindex/SolrRecordIndexer.java:117-124 | The field name starts with the index field name and ends with the suffix of the index type. Its last character is `s`, `b`, `t` or `l` |
| RecordIndexer.TermFieldIsNotReserved | src/main/java/se/uu/ub/cora/solrindex/SolrRecordIndexer.java:117-124 | A suffixed field name is never `id`, `ids`, `type` or `recordAsJson` |
| RecordIndexer.NoTermWritesReservedField | src/main/java/se/uu/ub/cora/solrindex/SolrRecordIndexer.java:103-124 | No collected term adds a value to a reserved field |
| RecordIndexer.AddValuesValues | src/main/java/se/uu/ub/cora/solrindex/SolrRecordIndexer.java:91-97 | Repeated addField calls on one name append the values, in order, to that field only; every other field is unchanged. The indexer uses it for the ids under `ids` |
| RecordIndexer.AddIndexTermFieldsValues | src/main/java/se/uu/ub/cora/solrindex/SolrRecordIndexer.java:103-115 | Each field gains exactly the values of the terms indexed under it, in the order the terms were supplied |
| RecordIndexer.BuildDocumentField | src/main/java/se/uu/ub/cora/solrindex/SolrRecordIndexer.java:74-115 | Every field of the built document holds what DocumentValues says |
| RecordIndexer.BuildDocumentWellFormed | src/main/java/se/uu/ub/cora/solrindex/SolrRecordIndexer.java:74-115 | No field of the built document is present without values |
| RecordIndexer.DocumentFields | src/main/java/se/uu/ub/cora/solrindex/SolrRecordIndexer.java:74-115 | `id` is `type_id`. `ids` holds the supplied ids in order. `type` holds the type and `recordAsJson` holds the record's JSON. Every other field holds exactly its terms' values, and a field is present exactly when it has values |
| RecordIndexer.SharedFieldKeepsOrder | src/main/java/se/uu/ub/cora/solrindex/SolrRecordIndexer.java:107-115 | Two terms with one physical name make one field with both values, in the order supplied |
| RecordIndexer.WrappedMessageCarriesContext | src/main/java/se/uu/ub/cora/solrindex/SolrRecordIndexer.java:146-148 | A wrapped message contains the record type, the id and the original message |
| RecordIndexer.IndexingFailure | src/main/java/se/uu/ub/cora/solrindex/SolrRecordIndexer.java:145-149 | An indexing failure's message starts with `Error while indexing record with type: ` and contains the type, the id and the original message. The original exception is kept as its cause |
| RecordIndexer.DeletionFailure | src/main/java/se/uu/ub/cora/solrindex/SolrRecordIndexer.java:172-176 | A deletion failure's message starts with `Error while deleting index for record with type: ` and contains the type, the id and the original message. The original exception is kept as its cause |
| RecordIndexer.IndexTransmission | src/main/java/se/uu/ub/cora/solrindex/SolrRecordIndexer.java:140-157 | The indexer sends add, then commit only when the commit is explicit. A throwing add sends no commit, and a throwing commit comes after the add |
| RecordIndexer.DeleteTransmission | src/main/java/se/uu/ub/cora/solrindex/SolrRecordIndexer.java:168-184 | A delete sends deleteById(type_id) followed by commit. A throwing delete sends no commit |
| RecordIndexer.SolrRecordIndexer.CreateSolrRecordIndexerUsingSolrClientProvider | src/main/java/se/uu/ub/cora/solrindex/SolrRecordIndexer.java:46-53 | The indexer keeps the provider |
| RecordIndexer.SolrRecordIndexer.IndexData | src/main/java/se/uu/ub/cora/solrindex/SolrRecordIndexer.java:55-60 | Without index terms, nothing is sent and nothing but the stored ids and collected data changes. With terms, the built document is sent with an explicit commit, and any failure is wrapped |
| RecordIndexer.SolrRecordIndexer.IndexDataWithoutExplicitCommit | src/main/java/se/uu/ub/cora/solrindex/SolrRecordIndexer.java:191-198 | Works like IndexData, except that only the add is sent |
| RecordIndexer.SolrRecordIndexer.PossiblyIndexData | src/main/java/se/uu/ub/cora/solrindex/SolrRecordIndexer.java:62-72 | Indexes exactly when the collected data has an index group with at least one collectedDataTerm |
| RecordIndexer.SolrRecordIndexer.IndexDataKnownToContainDataToIndex | src/main/java/se/uu/ub/cora/solrindex/SolrRecordIndexer.java:74-84 | The document field ends as BuildDocument of the collected data and the record's JSON. The client trace grows by what Transmit sends |
| RecordIndexer.SolrRecordIndexer.ExtractRecordIdentification | src/main/java/se/uu/ub/cora/solrindex/SolrRecordIndexer.java:86-89 | id and type are taken from the collected data |
| RecordIndexer.SolrRecordIndexer.AddIdToDocument | src/main/java/se/uu/ub/cora/solrindex/SolrRecordIndexer.java:91-97 | The loop adds `id` = `type_id` and then every id under `ids` |
| RecordIndexer.SolrRecordIndexer.AddTypeToDocument | src/main/java/se/uu/ub/cora/solrindex/SolrRecordIndexer.java:99-101 | `type` is added |
| RecordIndexer.SolrRecordIndexer.AddIndexTerms | src/main/java/se/uu/ub/cora/solrindex/SolrRecordIndexer.java:103-115 | The loop adds every collected term's value under its physical field name, in order |
| RecordIndexer.SolrRecordIndexer.SendDocumentToSolr | src/main/java/se/uu/ub/cora/solrindex/SolrRecordIndexer.java:140-157 | The trace grows by Transmit of the index requests, and a failure comes back as an indexing failure |
| RecordIndexer.SolrRecordIndexer.DeleteFromIndex | src/main/java/se/uu/ub/cora/solrindex/SolrRecordIndexer.java:168-184 | The trace grows by Transmit of deleteById(type_id) and commit, and a failure comes back as a deletion failure |
| RecordIndexerFactory.SolrRecordIndexerFactory.constructor | src/main/java/se/uu/ub/cora/solrindex/SolrRecordIndexerFactory.java:30 | The factory starts with no providers |
| RecordIndexerFactory.SolrRecordIndexerFactory.Factor | src/main/java/se/uu/ub/cora/solrindex/SolrRecordIndexerFactory.java:32-37 | A known URL reuses its provider and leaves the map unchanged. A new URL adds a fresh provider for that URL. The indexer is new and uses the URL's provider, and every provider in the map belongs to its own URL |
| RecordIndexerFactory.FactorTwice | src/test/java/se/uu/ub/cora/solrindex/SolrRecordIndexerFactoryTest.java:50-76 | Two factored indexers are distinct, and they share a provider exactly when they were asked for the same URL |
| RecordIndexerFactory.DistinctUrlsDistinctProviders | src/main/java/se/uu/ub/cora/solrindex/SolrRecordIndexerFactory.java:30-37 | Different URLs never share a provider |
| Agreement.SuffixesAgreeExceptForId | src/main/java/se/uu/ub/cora/solrsearch/SolrRecordSearch.java:205-217 | The search side and the indexing side choose the same suffix for every index type except indexTypeId |
| Agreement.FieldNamesAgreeExceptForId | src/main/java/se/uu/ub/cora/solrsearch/SolrRecordSearch.java:196-217 | A search targets the field the indexer wrote exactly when the index type is not indexTypeId |
| Agreement.PlainQueryTargetsIndexedField | src/main/java/se/uu/ub/cora/solrsearch/SolrRecordSearch.java:167-173 | A plain search term queries the indexer's physical field for the same index term |
| Agreement.IndexedJsonIsWhatSearchDecodes | src/main/java/se/uu/ub/cora/solrsearch/SolrRecordSearch.java:259-263 | A document the indexer built stores the record's JSON exactly once, and the search hands that text unchanged to the JSON-to-data converter |

## Left out

- The JSON parser and the data-to-JSON and JSON-to-data converters are not part of this model. The indexer's DataGroup and the search result's bookkeeper DataGroup are unrelated types, each represented by the JSON it is written as or read from. No round trip from an indexed record to a searched record is promised, only that the JSON is passed through unchanged.
- RecordSearch.DecodedRecords: decoding is total. A stored JSON text that fails to parse or convert is not modelled; in Java that exception would go through HandleErrors like any other.
- RecordSearch.HandleErrors: every exception carries a text message. An exception whose message is null, which makes isUndefinedFieldError throw a NullPointerException, is not modelled. The same holds in the indexer, where Java would write the text `null` into the wrapped message.
- DataGroup navigation is left out: missing children, wrong casts and the exceptions they throw. The collected data, the search data and the storage's entries are datatypes that always hold the children the code reads.
- Solr's own behaviour is left out: the network, the HTTP client, query parsing, ranking and the stored field types. The client is a recording stand-in with configurable failures and a configurable response.
- The search storage is a map from id to definition. An unknown id throws an exception with one configured message, because the storage implementation is not part of this model.
- `getSearchStorage` and `getSolrClientProvider` are left out. They only return a field, which the model's classes expose as constants.
- Concurrency is left out: the thread safety of `HashMap.computeIfAbsent` and concurrent use of one indexer or searcher.
- JavaStrings.IntegerValueOf accepts only ASCII digits, whereas Java also accepts other Unicode decimal digits.
- A returned document without `recordAsJson` (a null value) is not modelled. Every result document carries its JSON.
- RecordSearch.CreateSpiderSearchResultFromSolrResults keeps Solr's `numFound` as an unbounded integer, whereas Java holds it in a `long`.
- Fields that Java initialises to null are modelled with blank initial values: the searcher's query, and the indexer's id, type, collected data, document and ids.
- The exception that `getSolrClient` could throw while creating a client is not modelled.
