/**
 * The vector store, only as far as the rest of the system sees it: its five
 * collections, the metadata a document is added with, and a store object
 * that records every document handed to it. Text splitting, embeddings and
 * similarity search are not modelled; searches are a function of the
 * agents' environment.
 */
module VectorStore {
  import opened Wrappers

  /** The collections: supplier_history, item_history, analysis_examples,
      request_examples and email_examples. */
  datatype Collection = SupplierHistory | ItemHistory | AnalysisExamples | RequestExamples | EmailExamples

  /** The metadata of an ingested document besides its `doc_type`. */
  datatype Metadata = NoMetadata | SupplierName(name: string) | ItemCode(code: Option<string>)

  datatype Ingestion = Ingestion(collection: Collection, text: string, metadata: Metadata)

  /** The store. `outcome` says whether adding a document raises (`Some`
      with the exception text) or not; `ingested` is every `ingest_*` call
      made so far, in order. */
  class Store {
    const outcome: Ingestion -> Option<string>
    var ingested: seq<Ingestion>

    constructor (outcome: Ingestion -> Option<string>)
      ensures this.outcome == outcome && ingested == []
    {
      this.outcome := outcome;
      ingested := [];
    }

    /** `ingest_supplier_history`, `ingest_item_history` and the three
        `ingest_*_examples`, by collection. */
    method Ingest(d: Ingestion) returns (error: Option<string>)
      modifies this
      ensures ingested == old(ingested) + [d]
      ensures error == outcome(d)
    {
      ingested := ingested + [d];
      error := outcome(d);
    }
  }
}
