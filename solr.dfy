/**
 * The part of SolrJ the core talks to: the input document it fills, the
 * query it parameterises, the result page it reads, and the client that
 * receives add, commit, deleteById and query calls. The client is a
 * recording stand-in for the network: it keeps the calls it receives, in
 * order, and can be set to throw from a given call on.
 */
module Solr {
  import opened Wrappers

  // ---------------------------------------------------------------------
  // SolrInputDocument
  // ---------------------------------------------------------------------

  /** A document to index: each field name with its values, in the order they were added. */
  datatype SolrInputDocument = SolrInputDocument(fields: map<string, seq<string>>)

  function EmptyDocument(): SolrInputDocument {
    SolrInputDocument(map[])
  }

  /** The values of field `name`; none when the field is absent. */
  function Values(document: SolrInputDocument, name: string): seq<string> {
    if name in document.fields then document.fields[name] else []
  }

  /** Every field that is present holds at least one value. */
  predicate WellFormed(document: SolrInputDocument) {
    forall name :: name in document.fields ==> document.fields[name] != []
  }

  /** `SolrInputDocument.addField`: a repeated name makes the field multi-valued, keeping order. */
  function AddField(document: SolrInputDocument, name: string, value: string): (r: SolrInputDocument)
    ensures Values(r, name) == Values(document, name) + [value]
    ensures forall other :: other != name ==> Values(r, other) == Values(document, other)
    ensures WellFormed(document) ==> WellFormed(r)
  {
    SolrInputDocument(document.fields[name := Values(document, name) + [value]])
  }

  // ---------------------------------------------------------------------
  // SolrQuery and the result page
  // ---------------------------------------------------------------------

  /** The parameters of a SolrQuery the core sets: rows, start, the filter queries and q. */
  datatype SolrQuery = SolrQuery(rows: Option<int>, start: Option<int>, filterQueries: seq<string>, q: Option<string>)

  /** `new SolrQuery()`: nothing set. */
  function NewSolrQuery(): SolrQuery {
    SolrQuery(None, None, [], None)
  }

  /** A returned document, reduced to the stored value of its `recordAsJson` field. */
  datatype SolrDocument = SolrDocument(recordAsJson: string)

  /** `QueryResponse.getResults()`: the total number of matches and the documents of this page. */
  datatype SolrDocumentList = SolrDocumentList(numFound: int, documents: seq<SolrDocument>)

  // ---------------------------------------------------------------------
  // SolrClient
  // ---------------------------------------------------------------------

  /** One call received by the client. */
  datatype Request =
    | AddRequest(document: SolrInputDocument)
    | CommitRequest
    | DeleteByIdRequest(id: string)
    | QueryRequest(query: SolrQuery)

  /** A SolrServerException or IOException thrown by the client. */
  datatype SolrException = SolrException(message: string)

  /** What the call at `position` in the client's trace throws, if anything. */
  function FailureAt(failFrom: Option<nat>, failMessage: string, position: nat): Option<SolrException> {
    if failFrom.Some? && failFrom.value <= position then Some(SolrException(failMessage)) else None
  }

  /** The calls made, and the exception that ended the sequence early, if any. */
  datatype Transmission = Transmission(sent: seq<Request>, failure: Option<SolrException>)

  /**
   * Issuing `requests` one after another, the first at trace position
   * `position`, stopping at the first call that throws (a Java try block
   * around consecutive client calls).
   */
  function Transmit(requests: seq<Request>, position: nat, failFrom: Option<nat>, failMessage: string): (t: Transmission)
    ensures t.sent <= requests
    ensures t.failure.None? ==> t.sent == requests
    ensures t.failure.Some? <==> requests != [] && failFrom.Some? && failFrom.value < position + |requests|
    ensures t.failure.Some? ==> t.failure == Some(SolrException(failMessage))
    ensures t.failure.Some? ==> |t.sent| == (if failFrom.value <= position then 1 else failFrom.value - position + 1)
    decreases |requests|
  {
    if requests == [] then Transmission([], None)
    else match FailureAt(failFrom, failMessage, position)
      case Some(e) => Transmission([requests[0]], Some(e))
      case None =>
        var rest := Transmit(requests[1..], position + 1, failFrom, failMessage);
        assert requests == [requests[0]] + requests[1..];
        Transmission([requests[0]] + rest.sent, rest.failure)
  }

  /** A client that records every call it receives; calls from trace position `failFrom` on throw `failMessage`. */
  class SolrClient {
    var trace: seq<Request>
    var failFrom: Option<nat>
    var failMessage: string
    var response: SolrDocumentList

    constructor ()
      ensures trace == [] && failFrom == None && failMessage == ""
      ensures response == SolrDocumentList(0, [])
    {
      trace := [];
      failFrom := None;
      failMessage := "";
      response := SolrDocumentList(0, []);
    }

    method Add(document: SolrInputDocument) returns (failure: Option<SolrException>)
      modifies this`trace
      ensures trace == old(trace) + [AddRequest(document)]
      ensures failure == FailureAt(failFrom, failMessage, |old(trace)|)
    {
      failure := FailureAt(failFrom, failMessage, |trace|);
      trace := trace + [AddRequest(document)];
    }

    method Commit() returns (failure: Option<SolrException>)
      modifies this`trace
      ensures trace == old(trace) + [CommitRequest]
      ensures failure == FailureAt(failFrom, failMessage, |old(trace)|)
    {
      failure := FailureAt(failFrom, failMessage, |trace|);
      trace := trace + [CommitRequest];
    }

    method DeleteById(id: string) returns (failure: Option<SolrException>)
      modifies this`trace
      ensures trace == old(trace) + [DeleteByIdRequest(id)]
      ensures failure == FailureAt(failFrom, failMessage, |old(trace)|)
    {
      failure := FailureAt(failFrom, failMessage, |trace|);
      trace := trace + [DeleteByIdRequest(id)];
    }

    /** `query(solrQuery).getResults()`: the configured response, unless this call throws. */
    method Query(query: SolrQuery) returns (r: Result<SolrDocumentList, SolrException>)
      modifies this`trace
      ensures trace == old(trace) + [QueryRequest(query)]
      ensures FailureAt(failFrom, failMessage, |old(trace)|).None? ==> r == Ok(response)
      ensures FailureAt(failFrom, failMessage, |old(trace)|).Some? ==> r == Err(SolrException(failMessage))
    {
      var failure := FailureAt(failFrom, failMessage, |trace|);
      trace := trace + [QueryRequest(query)];
      r := if failure.Some? then Err(failure.value) else Ok(response);
    }
  }

  /** SolrClientProviderImp: one long-lived client per base URL. */
  class SolrClientProvider {
    const baseUrl: string
    const client: SolrClient

    constructor UsingBaseUrl(baseUrl: string)
      ensures this.baseUrl == baseUrl && fresh(client)
      ensures client.trace == [] && client.failFrom == None
    {
      this.baseUrl := baseUrl;
      client := new SolrClient();
    }

    method GetSolrClient() returns (solrClient: SolrClient)
      ensures solrClient == client
    {
      solrClient := client;
    }
  }

  /** A client that never throws receives every request, and the sequence completes. */
  lemma TransmitToHealthyClient(requests: seq<Request>, position: nat, failMessage: string)
    ensures Transmit(requests, position, None, failMessage) == Transmission(requests, None)
  {
  }
}
