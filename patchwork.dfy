/** The shared records and constants of the engine (the private header). */
module Patchwork {
  import opened Strings

  const PluginName := "patchwork"

  /** Default score threshold when the configuration gives none. */
  const Threshold := 40

  /** Default S3 fetch limit, in kilobytes. */
  const DefaultFetchLimit := 2 * 1024

  const AboutMax := 6

  const MimeNQuads := "application/n-quads"

  const NsRdf := "http://www.w3.org/1999/02/22-rdf-syntax-ns#"
  const NsRdfs := "http://www.w3.org/2000/01/rdf-schema#"
  const NsFoaf := "http://xmlns.com/foaf/0.1/"
  const NsOwl := "http://www.w3.org/2002/07/owl#"
  const NsDcterms := "http://purl.org/dc/terms/"
  const NsDcmitype := "http://purl.org/dc/dcmitype/"
  const NsMime := "http://purl.org/NET/mediatypes/"
  const NsXhtml := "http://www.w3.org/1999/xhtml/vocab#"
  const NsVoid := "http://rdfs.org/ns/void#"
  const NsFormats := "http://www.w3.org/ns/formats/"
  const NsOsd := "http://a9.com/-/spec/opensearch/1.1/"

  const RdfType := NsRdf + "type"
  const RdfsLabel := NsRdfs + "label"
  const OwlSameAs := NsOwl + "sameAs"
  const VoidDataset := NsVoid + "Dataset"
  const DcmiCollection := NsDcmitype + "Collection"

  /** The query mode; the source's enumeration values are 0 and 1. */
  datatype QueryMode = Default | Autocomplete
  {
    function Code(): (n: int)
      ensures n == 0 <==> this == Default
      ensures n == 1 <==> this == Autocomplete
    {
      match this
      case Default => 0
      case Autocomplete => 1
    }
  }

  /** A partition: a well-known path, its display title and its class filter. */
  datatype IndexEntry = IndexEntry(uri: string, title: Option<string>, qclass: Option<string>)

  /** A short name for a media class URI. */
  datatype MediaMatch = MediaMatch(name: string, uri: string)
}
