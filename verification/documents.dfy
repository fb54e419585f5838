/**
  Stored documents of the `quads` collection and the collection's query
  primitive: a filter with one equality clause per populated position.
 */
module Documents {
  import opened Wrappers
  import opened Terms
  import opened Validation

  /** A document of the `quads` collection: the four terms stored verbatim. */
  datatype QuadDoc = QuadDoc(subject: Term, pred: Term, obj: Term, graph: Term)

  /** `_docToQuad`: the quad a stored document stands for. */
  function DocToQuad(doc: QuadDoc): Quad
  {
    Quad(doc.subject, doc.pred, doc.obj, doc.graph)
  }

  /** `_quadToDoc`: the document that stores a quad; it is also the exact
      filter used to upsert, delete and probe that quad. */
  function QuadToDoc(quad: Quad): (doc: QuadDoc)
    ensures DocToQuad(doc) == quad
  {
    QuadDoc(quad.subject, quad.pred, quad.obj, quad.graph)
  }

  lemma DocRoundTrip(doc: QuadDoc)
    ensures QuadToDoc(DocToQuad(doc)) == doc
  {
  }

  /** The documents of a batch of quads, position by position (the `bulkQuery`
      of `add` and the filters of `delete` and `has`). */
  function Docs(quads: seq<Quad>): (docs: seq<QuadDoc>)
    ensures |docs| == |quads|
    ensures forall i :: 0 <= i < |quads| ==> DocToQuad(docs[i]) == quads[i]
  {
    seq(|quads|, i requires 0 <= i < |quads| => QuadToDoc(quads[i]))
  }

  /** Only documents of valid quads are ever written. */
  predicate ValidDoc(doc: QuadDoc)
  {
    ValidQuad(QuadValue(DocToQuad(doc)))
  }

  /** A find filter: `None` on a position adds no clause for it. */
  datatype FindQuery = FindQuery(subject: Option<Term>, pred: Option<Term>, obj: Option<Term>, graph: Option<Term>)

  const EmptyQuery := FindQuery(None, None, None, None)

  predicate Clause(field: Option<Term>, t: Term)
  {
    field.None? || field.value == t
  }

  predicate Matches(query: FindQuery, doc: QuadDoc)
  {
    Clause(query.subject, doc.subject) && Clause(query.pred, doc.pred) &&
    Clause(query.obj, doc.obj) && Clause(query.graph, doc.graph)
  }

  /** The collection's `find`: every stored document that satisfies the filter. */
  function Find(docs: set<QuadDoc>, query: FindQuery): set<QuadDoc>
  {
    set doc | doc in docs && Matches(query, doc)
  }

  /** A whole document used as a filter. */
  function ExactQuery(doc: QuadDoc): (query: FindQuery)
    ensures forall other :: Matches(query, other) <==> other == doc
  {
    FindQuery(Some(doc.subject), Some(doc.pred), Some(doc.obj), Some(doc.graph))
  }

  /** Finding by a whole document yields that document exactly when it is stored. */
  lemma FindExact(docs: set<QuadDoc>, doc: QuadDoc)
    ensures Find(docs, ExactQuery(doc)) == if doc in docs then {doc} else {}
  {
  }

  /** The empty filter finds the whole collection. */
  lemma FindEmpty(docs: set<QuadDoc>)
    ensures Find(docs, EmptyQuery) == docs
  {
  }
}
