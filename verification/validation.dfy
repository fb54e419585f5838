/**
  The term validator: which kinds of term may stand in each position of a
  quad. Every operation of the store checks its input with these before it
  touches the collection.
 */
module Validation {
  import opened Terms

  /** The kind tag that the term model's discriminators inspect. */
  datatype Kind = NamedNodeKind | BlankNodeKind | LiteralKind | DefaultGraphKind | QuadKind | OtherKind

  function KindOf(v: Value): Kind
  {
    match v
    case TermValue(NamedNode(_)) => NamedNodeKind
    case TermValue(BlankNode(_)) => BlankNodeKind
    case TermValue(Literal(_, _, _)) => LiteralKind
    case TermValue(DefaultGraph) => DefaultGraphKind
    case QuadValue(_) => QuadKind
    case FalsyValue => OtherKind
    case OtherValue => OtherKind
  }

  /** The kinds each position admits, as the RDF/JS data model states them. */
  const SubjectKinds: set<Kind> := {NamedNodeKind, BlankNodeKind}
  const PredicateKinds: set<Kind> := {NamedNodeKind}
  const ObjectKinds: set<Kind> := {NamedNodeKind, LiteralKind, BlankNodeKind}
  const GraphKinds: set<Kind> := {DefaultGraphKind, NamedNodeKind}

  // The discriminators of the term model.
  predicate IsNamedNode(v: Value) { v.TermValue? && v.term.NamedNode? }
  predicate IsBlankNode(v: Value) { v.TermValue? && v.term.BlankNode? }
  predicate IsLiteral(v: Value) { v.TermValue? && v.term.Literal? }
  predicate IsDefaultGraph(v: Value) { v.TermValue? && v.term.DefaultGraph? }
  predicate IsQuad(v: Value) { v.QuadValue? }

  function ValidSubject(term: Value): (ok: bool)
    ensures ok <==> KindOf(term) in SubjectKinds
    ensures ok ==> term.TermValue?
  {
    IsNamedNode(term) || IsBlankNode(term)
  }

  function ValidPredicate(term: Value): (ok: bool)
    ensures ok <==> KindOf(term) in PredicateKinds
    ensures ok ==> term.TermValue?
  {
    IsNamedNode(term)
  }

  function ValidObject(term: Value): (ok: bool)
    ensures ok <==> KindOf(term) in ObjectKinds
    ensures ok ==> term.TermValue?
  {
    IsNamedNode(term) || IsLiteral(term) || IsBlankNode(term)
  }

  function ValidGraph(term: Value): (ok: bool)
    ensures ok <==> KindOf(term) in GraphKinds
    ensures ok ==> term.TermValue?
  {
    IsDefaultGraph(term) || IsNamedNode(term)
  }

  /** A value is a valid quad when it is quad-shaped and each of its four
      terms is of a kind its position admits; anything else yields false. */
  function ValidQuad(term: Value): (ok: bool)
    ensures ok <==>
      && term.QuadValue?
      && KindOf(TermValue(term.quad.subject)) in SubjectKinds
      && KindOf(TermValue(term.quad.pred)) in PredicateKinds
      && KindOf(TermValue(term.quad.obj)) in ObjectKinds
      && KindOf(TermValue(term.quad.graph)) in GraphKinds
  {
    && IsQuad(term)
    && ValidSubject(TermValue(term.quad.subject))
    && ValidPredicate(TermValue(term.quad.pred))
    && ValidObject(TermValue(term.quad.obj))
    && ValidGraph(TermValue(term.quad.graph))
  }

  /** A literal is an admissible object only: never a subject, a predicate or a graph. */
  lemma LiteralOnlyAsObject(t: Term)
    requires t.Literal?
    ensures ValidObject(TermValue(t))
    ensures !ValidSubject(TermValue(t)) && !ValidPredicate(TermValue(t)) && !ValidGraph(TermValue(t))
  {
  }

  /** Exactly the named nodes are admissible in all four positions. */
  lemma NamedNodeFitsEverywhere(t: Term)
    ensures t.NamedNode? <==>
      ValidSubject(TermValue(t)) && ValidPredicate(TermValue(t)) && ValidObject(TermValue(t)) && ValidGraph(TermValue(t))
  {
  }

  /** Neither a quad nor a non-term value is admissible in any position. */
  lemma NonTermsRejected(v: Value)
    requires !v.TermValue?
    ensures !ValidSubject(v) && !ValidPredicate(v) && !ValidObject(v) && !ValidGraph(v)
  {
  }
}
