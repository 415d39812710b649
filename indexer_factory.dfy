/**
 * SolrRecordIndexerFactory: hands out a new indexer per call, sharing one
 * client provider per Solr URL among all indexers for that URL.
 */
module RecordIndexerFactory {
  import opened Solr
  import opened RecordIndexer

  class SolrRecordIndexerFactory {
    /** The provider made for each URL asked for so far. */
    var solrClientProviders: map<string, SolrClientProvider>

    /** Every provider in the map was made for the URL it is stored under. */
    ghost predicate Valid()
      reads this, set url | url in solrClientProviders :: solrClientProviders[url]
    {
      forall url :: url in solrClientProviders ==> solrClientProviders[url].baseUrl == url
    }

    constructor ()
      ensures solrClientProviders == map[] && Valid()
    {
      solrClientProviders := map[];
    }

    /**
     * `computeIfAbsent`: a URL seen before reuses its provider and leaves the
     * map as it was; a new URL gets a fresh provider for that URL, added to
     * the map. Either way the indexer is new and uses the URL's provider.
     */
    method Factor(solrUrl: string) returns (indexer: SolrRecordIndexer)
      requires Valid()
      modifies this
      ensures Valid()
      ensures solrUrl in solrClientProviders && indexer.solrClientProvider == solrClientProviders[solrUrl]
      ensures indexer.solrClientProvider.baseUrl == solrUrl
      ensures fresh(indexer)
      ensures solrUrl in old(solrClientProviders) ==> solrClientProviders == old(solrClientProviders)
      ensures solrUrl !in old(solrClientProviders) ==>
        && fresh(solrClientProviders[solrUrl])
        && solrClientProviders == old(solrClientProviders)[solrUrl := solrClientProviders[solrUrl]]
    {
      if solrUrl !in solrClientProviders {
        var provider := new SolrClientProvider.UsingBaseUrl(solrUrl);
        solrClientProviders := solrClientProviders[solrUrl := provider];
      }
      indexer := new SolrRecordIndexer.CreateSolrRecordIndexerUsingSolrClientProvider(solrClientProviders[solrUrl]);
    }
  }

  /**
   * A usage scenario, not a member of the factory: two factorings give
   * distinct indexers that share a provider exactly when they ask for the
   * same URL.
   */
  method FactorTwice(factory: SolrRecordIndexerFactory, firstUrl: string, secondUrl: string)
    returns (first: SolrRecordIndexer, second: SolrRecordIndexer)
    requires factory.Valid()
    modifies factory
    ensures factory.Valid()
    ensures first != second
    ensures first.solrClientProvider == second.solrClientProvider <==> firstUrl == secondUrl
  {
    first := factory.Factor(firstUrl);
    second := factory.Factor(secondUrl);
  }

  /** Different URLs never share a provider. */
  lemma DistinctUrlsDistinctProviders(factory: SolrRecordIndexerFactory, firstUrl: string, secondUrl: string)
    requires factory.Valid()
    requires firstUrl in factory.solrClientProviders && secondUrl in factory.solrClientProviders
    requires firstUrl != secondUrl
    ensures factory.solrClientProviders[firstUrl] != factory.solrClientProviders[secondUrl]
  {
  }
}
