/**
 * Statements as the server handles them: subject, predicate, object and an
 * optional graph (fields `subj`, `pred`, `obj`, as `predicate` and `object` are Dafny keywords), with the vocabulary terms the stores read and write.
 */
module Rdf {
  import opened Wrappers
  import opened Calendar

  /**
   * An object term: an IRI, a plain literal, an integer literal, a boolean
   * literal, or the plain literal the server writes for a moment, whose
   * text is the moment's `toISOString()` (`Calendar.Iso(at)`).
   */
  datatype Term = Iri(iri: string) | Lit(lexical: string) | IntLit(n: int) | BoolLit(b: bool) | TimeLit(at: Instant)

  /** A quad; `graph` is None for the default graph or an absent `graph` property. */
  datatype Triple = Triple(subj: string, pred: string, obj: Term, graph: Option<string>)

  /** JavaScript truthiness of a quad's graph: present and not the empty string. */
  predicate HasGraph(t: Triple) {
    t.graph.Some? && t.graph.value != ""
  }

  const RdfType := "http://www.w3.org/1999/02/22-rdf-syntax-ns#type"
  const GeneratedAtTime := "http://www.w3.org/ns/prov#generatedAtTime"
  const VacantSpaces := "http://vocab.datex.org/terms#parkingNumberOfVacantSpaces"
  const Mean := "http://datapiloten.be/vocab/timeseries#mean"
  const SampleSize := "http://datapiloten.be/vocab/timeseries#sampleSize"

  const RangeFragment := "http://w3id.org/multidimensional-interface/ontology#RangeFragment"
  const RangeGate := "http://w3id.org/multidimensional-interface/ontology#RangeGate"
  const Initial := "http://w3id.org/multidimensional-interface/ontology#initial"
  const Final := "http://w3id.org/multidimensional-interface/ontology#final"
  const HasRangeGate := "http://w3id.org/multidimensional-interface/ontology#hasRangeGate"

  const HydraSearch := "http://www.w3.org/ns/hydra/core#search"
  const HydraIriTemplate := "http://www.w3.org/ns/hydra/core#IriTemplate"
  const HydraTemplate := "http://www.w3.org/ns/hydra/core#template"
  const HydraVariableRepresentation := "http://www.w3.org/ns/hydra/core#variableRepresentation"
  const HydraBasicRepresentation := "http://www.w3.org/ns/hydra/core#BasicRepresentation"
  const HydraMapping := "http://www.w3.org/ns/hydra/core#mapping"
  const HydraIriTemplateMapping := "http://www.w3.org/ns/hydra/core#IriTemplateMapping"
  const HydraVariable := "http://www.w3.org/ns/hydra/core#variable"
  const HydraRequired := "http://www.w3.org/ns/hydra/core#required"
  const HydraProperty := "http://www.w3.org/ns/hydra/core#property"
  const HydraPrevious := "http://www.w3.org/ns/hydra/core#previous"
  const HydraNext := "http://www.w3.org/ns/hydra/core#next"

  /** The predicates the levels rewrite are pairwise distinct. */
  lemma PredicatesDistinct()
    ensures VacantSpaces != GeneratedAtTime && VacantSpaces != Mean && VacantSpaces != SampleSize
    ensures VacantSpaces != Initial && VacantSpaces != Final && VacantSpaces != HasRangeGate
    ensures GeneratedAtTime != Mean && GeneratedAtTime != SampleSize && GeneratedAtTime != Initial
    ensures GeneratedAtTime != Final && GeneratedAtTime != HasRangeGate
    ensures Mean != SampleSize && Mean != Initial && Mean != Final && Mean != HasRangeGate
    ensures SampleSize != Initial && SampleSize != Final && SampleSize != HasRangeGate
    ensures Initial != Final && Initial != HasRangeGate && Final != HasRangeGate
    ensures RdfType != VacantSpaces && RdfType != GeneratedAtTime && RdfType != Mean && RdfType != SampleSize
    ensures RdfType != Initial && RdfType != Final && RdfType != HasRangeGate
  {
  }
}
