/**
  The RDF/JS data model as the quad store sees it: four kinds of term, quads
  built from them, and arbitrary values handed to the validators.
 */
module Terms {

  /** The term kinds a quad position may hold. A literal carries its language
      tag ("" when it has none) and the IRI of its datatype. */
  datatype Term =
    | NamedNode(value: string)
    | BlankNode(value: string)
    | Literal(value: string, language: string, datatypeIri: string)
    | DefaultGraph

  /** An RDF quad. The fields are the RDF/JS `subject`, `predicate`, `object`
      and `graph`; `predicate` and `object` are reserved words in Dafny, so
      those two are named `pred` and `obj`. */
  datatype Quad = Quad(subject: Term, pred: Term, obj: Term, graph: Term)

  /** Any value a caller may pass where a term or a quad is expected: the
      validators are total, so a non-term or non-quad value must be
      representable. `FalsyValue` is any of JavaScript's falsy values
      (`undefined`, an omitted argument, `null`, `false`, `0`, `""`, `NaN`);
      `OtherValue` is any other truthy value that is neither a term nor a quad. */
  datatype Value =
    | TermValue(term: Term)
    | QuadValue(quad: Quad)
    | FalsyValue
    | OtherValue

  /** JavaScript truthiness, as an `if` on the value tests it. */
  predicate Truthy(v: Value)
  {
    !v.FalsyValue?
  }
}
