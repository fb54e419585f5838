/**
  What callers of the store can rely on, derived from the contracts of its
  operations alone: the idempotence of `add` and `delete`, and the behaviour
  the repository's integration tests and example script expect.
 */
module StoreScenarios {
  import opened Wrappers
  import opened Terms
  import opened Validation
  import opened Documents
  import opened Changes
  import opened QuadStore

  /** Adding the same batch twice: the second call creates nothing, returns 0
      and emits no notification. */
  method AddTwice(store: MongoDBStore, batch: seq<Value>) returns (first: Result<nat, Error>, second: Result<nat, Error>)
    requires store.Valid()
    modifies store
    ensures store.Valid()
    ensures first.Success? <==> AllValidQuads(batch)
    ensures second == if first.Success? then Success(0) else first
    ensures first.Success? ==>
      store.docs == old(store.docs) + Elems(Docs(QuadsOf(batch))) &&
      |store.events| == |old(store.events)| + first.value
  {
    first := store.Add(batch);
    if first.Failure? {
      second := store.Add(batch);
      return;
    }
    ghost var bulk := Docs(QuadsOf(batch));
    ghost var eventsFirst := store.events;
    assert |eventsFirst| == |old(store.events)| + first.value by {
      FirstOccurrencesCount(old(store.docs), bulk, false);
    }
    second := store.Add(batch);
    UpsertAgainCreatesNothing(old(store.docs), bulk);
    assert Announce(false, Pick(bulk, [])) == [];
    FirstOccurrencesCount(old(store.docs) + Elems(bulk), bulk, false);
  }

  /** Deleting the same batch twice: the second call removes nothing, returns
      0 and emits no notification. */
  method DeleteTwice(store: MongoDBStore, batch: seq<Value>) returns (first: Result<nat, Error>, second: Result<nat, Error>)
    requires store.Valid()
    modifies store
    ensures store.Valid()
    ensures first.Success? <==> AllValidQuads(batch)
    ensures second == if first.Success? then Success(0) else first
    ensures first.Success? ==>
      store.docs == old(store.docs) - Elems(Docs(QuadsOf(batch))) &&
      |store.events| == |old(store.events)| + first.value
  {
    first := store.Delete(batch);
    if first.Failure? {
      second := store.Delete(batch);
      return;
    }
    ghost var bulk := Docs(QuadsOf(batch));
    ghost var eventsFirst := store.events;
    assert |eventsFirst| == |old(store.events)| + first.value by {
      FirstOccurrencesCount(old(store.docs), bulk, true);
    }
    second := store.Delete(batch);
    DeleteAgainRemovesNothing(old(store.docs), bulk);
    assert Announce(true, Pick(bulk, [])) == [];
    FirstOccurrencesCount(old(store.docs) - Elems(bulk), bulk, true);
  }

  /** A batch holding a quad whose predicate is a literal is rejected with a
      TypeError, and the collection and the notifications stay as they were. */
  method RejectsLiteralPredicate(store: MongoDBStore, s: Term, lit: Term, o: Term) returns (r: Result<nat, Error>)
    requires store.Valid() && lit.Literal?
    modifies store
    ensures r == Failure(Raised("MongoDBStore#add : invalid quads"))
    ensures store.docs == old(store.docs) && store.events == old(store.events)
  {
    var batch := [QuadValue(Quad(s, lit, o, DefaultGraph))];
    LiteralOnlyAsObject(lit);
    assert !ValidQuad(batch[0]);
    r := store.Add(batch);
  }

  lemma SingleQuadBatch(q: Quad)
    requires ValidQuad(QuadValue(q))
    ensures AllValidQuads([QuadValue(q)])
    ensures Elems(Docs(QuadsOf([QuadValue(q)]))) == {QuadToDoc(q)}
  {
    assert QuadsOf([QuadValue(q)]) == [q];
    assert Docs([q]) == [QuadToDoc(q)];
    assert Elems([QuadToDoc(q)]) == {QuadToDoc(q)};
  }

  /** `add` of a single valid quad: 1 when it was new, 0 when already stored. */
  method AddOne(store: MongoDBStore, q: Quad) returns (r: Result<nat, Error>)
    requires store.Valid() && ValidQuad(QuadValue(q))
    modifies store
    ensures store.Valid()
    ensures r == Success(if QuadToDoc(q) in old(store.docs) then 0 else 1)
    ensures store.docs == old(store.docs) + {QuadToDoc(q)}
  {
    SingleQuadBatch(q);
    ghost var doc := QuadToDoc(q);
    r := store.Add([QuadValue(q)]);
    if doc in old(store.docs) {
      assert {doc} - old(store.docs) == {};
    } else {
      assert {doc} - old(store.docs) == {doc};
    }
  }

  /** `delete` of a single valid quad: 1 when it was stored, 0 otherwise. */
  method DeleteOne(store: MongoDBStore, q: Quad) returns (r: Result<nat, Error>)
    requires store.Valid() && ValidQuad(QuadValue(q))
    modifies store
    ensures store.Valid()
    ensures r == Success(if QuadToDoc(q) in old(store.docs) then 1 else 0)
    ensures store.docs == old(store.docs) - {QuadToDoc(q)}
  {
    SingleQuadBatch(q);
    ghost var doc := QuadToDoc(q);
    r := store.Delete([QuadValue(q)]);
    if doc in old(store.docs) {
      assert {doc} * old(store.docs) == {doc};
    } else {
      assert {doc} * old(store.docs) == {};
    }
  }

  /** `has` of a single valid quad. */
  method HasOne(store: MongoDBStore, q: Quad) returns (r: Result<bool, Error>)
    requires ValidQuad(QuadValue(q))
    ensures r == Success(QuadToDoc(q) in store.docs)
  {
    r := store.Has([QuadValue(q)]);
    assert QuadsOf([QuadValue(q)]) == [q];
  }

  const Subject := NamedNode("http://example.com/subject")
  const Predicate := NamedNode("http://example.com/predicate")
  const LangString := "http://www.w3.org/1999/02/22-rdf-syntax-ns#langString"
  const Quad1 := Quad(Subject, Predicate, NamedNode("http://example.com/object"), DefaultGraph)
  const Quad2 := Quad(Subject, Predicate, Literal("Hello World", "en", LangString), DefaultGraph)

  /** The integration test on an empty collection, first part: each of the
      two quads is added once; adding either again reports 0. */
  method AddEachOnce() returns (store: MongoDBStore)
    ensures store.Valid() && store.docs == {QuadToDoc(Quad1), QuadToDoc(Quad2)}
  {
    store := new MongoDBStore({});
    var added := AddOne(store, Quad1);
    assert added == Success(1);
    added := AddOne(store, Quad2);
    assert added == Success(1);
    added := AddOne(store, Quad1);
    assert added == Success(0);
    added := AddOne(store, Quad2);
    assert added == Success(0);
  }

  /** Second part: both quads are found by their common subject, and the
      store holds two quads. */
  method MatchBySubject(store: MongoDBStore) returns (found: Result<set<Quad>, Error>, size: nat)
    requires store.Valid() && store.docs == {QuadToDoc(Quad1), QuadToDoc(Quad2)}
    ensures found == Success({Quad1, Quad2}) && size == 2
  {
    found := store.Match(TermValue(Subject), FalsyValue, FalsyValue, FalsyValue);
    assert found.Success? && Quad1 in found.value && Quad2 in found.value;
    forall q | q in found.value
      ensures q == Quad1 || q == Quad2
    {
      assert DocToQuad(QuadToDoc(q)) == q;
    }
    assert found.value == {Quad1, Quad2};
    assert Quad1.obj != Quad2.obj;
    size := store.Size();
  }

  /** Third part: the first quad is deleted once; afterwards only the second
      is stored and it alone is found by its object; deleting it empties the
      store. */
  method DeleteEachOnce(store: MongoDBStore)
    requires store.Valid() && store.docs == {QuadToDoc(Quad1), QuadToDoc(Quad2)}
    modifies store
    ensures store.Valid() && store.docs == {}
  {
    var deleted := DeleteOne(store, Quad1);
    assert deleted == Success(1);
    deleted := DeleteOne(store, Quad1);
    assert deleted == Success(0);
    assert store.docs == {QuadToDoc(Quad2)};

    var has := HasOne(store, Quad1);
    assert has == Success(false);
    has := HasOne(store, Quad2);
    assert has == Success(true);

    var found := store.Match(FalsyValue, FalsyValue, TermValue(Quad2.obj), FalsyValue);
    assert found.Success? && Quad1 !in found.value && Quad2 in found.value;

    deleted := DeleteOne(store, Quad2);
    var size := store.Size();
    assert size == 0;
  }

  const Hello := NamedNode("ex:hello")
  const Label := NamedNode("rdfs:label")
  const XsdString := "http://www.w3.org/2001/XMLSchema#string"
  const HelloLabel := Quad(Hello, Label, Literal("Hello World!", "en", LangString), DefaultGraph)
  const HelloLorem := Quad(Hello, NamedNode("ex:lorem"), BlankNode("1"), DefaultGraph)
  const BlankLabel := Quad(BlankNode("1"), Label, Literal("Lorem Ipsum", "", XsdString), DefaultGraph)

  lemma ExampleDocs()
    ensures var stored := {QuadToDoc(HelloLabel), QuadToDoc(HelloLorem), QuadToDoc(BlankLabel)};
      Elems([QuadToDoc(HelloLabel), QuadToDoc(HelloLorem), QuadToDoc(BlankLabel)]) == stored && |stored| == 3
  {
    assert HelloLabel.obj != HelloLorem.obj && HelloLabel.subject != BlankLabel.subject && HelloLorem.obj != BlankLabel.obj;
  }

  /** The repository's example script, first part: the three quads are new,
      so `add` reports 3. */
  method ExampleAdd() returns (store: MongoDBStore, added: Result<nat, Error>)
    ensures added == Success(3) && store.Valid()
    ensures store.docs == {QuadToDoc(HelloLabel), QuadToDoc(HelloLorem), QuadToDoc(BlankLabel)}
  {
    store := new MongoDBStore({});
    var batch := [QuadValue(HelloLabel), QuadValue(HelloLorem), QuadValue(BlankLabel)];
    assert QuadsOf(batch) == [HelloLabel, HelloLorem, BlankLabel];
    assert Docs(QuadsOf(batch)) == [QuadToDoc(HelloLabel), QuadToDoc(HelloLorem), QuadToDoc(BlankLabel)];
    assert AllValidQuads(batch);
    ExampleDocs();
    added := store.Add(batch);
  }

  /** Second part: `match` by the subject ex:hello finds the first two quads;
      `deleteMatches` by the predicate rdfs:label removes the two labels and
      reports 2, leaving the ex:lorem quad. */
  method ExampleMatchAndDelete(store: MongoDBStore)
    returns (found: Result<set<Quad>, Error>, removed: Result<nat, Error>)
    requires store.Valid()
    requires store.docs == {QuadToDoc(HelloLabel), QuadToDoc(HelloLorem), QuadToDoc(BlankLabel)}
    modifies store
    ensures found == Success({HelloLabel, HelloLorem}) && removed == Success(2)
    ensures store.Valid() && store.docs == {QuadToDoc(HelloLorem)}
  {
    found := store.Match(TermValue(Hello), FalsyValue, FalsyValue, FalsyValue);
    assert found.Success?;
    assert found.value == {HelloLabel, HelloLorem};

    ghost var gone;
    removed, gone := store.DeleteMatches(FalsyValue, TermValue(Label), FalsyValue, FalsyValue);
    assert (set doc | doc in old(store.docs) && MatchesPattern(doc, FalsyValue, TermValue(Label), FalsyValue, FalsyValue))
        == {QuadToDoc(HelloLabel), QuadToDoc(BlankLabel)};
  }

  /** Last part: deleting all three quads removes only the one still stored,
      reports 1, and empties the collection. */
  method ExampleDeleteAll(store: MongoDBStore) returns (deleted: Result<nat, Error>)
    requires store.Valid() && store.docs == {QuadToDoc(HelloLorem)}
    modifies store
    ensures deleted == Success(1) && store.Valid() && store.docs == {}
  {
    var batch := [QuadValue(HelloLabel), QuadValue(HelloLorem), QuadValue(BlankLabel)];
    assert QuadsOf(batch) == [HelloLabel, HelloLorem, BlankLabel];
    assert Docs(QuadsOf(batch)) == [QuadToDoc(HelloLabel), QuadToDoc(HelloLorem), QuadToDoc(BlankLabel)];
    assert AllValidQuads(batch);
    ExampleDocs();
    assert Elems(Docs(QuadsOf(batch))) * store.docs == {QuadToDoc(HelloLorem)};
    deleted := store.Delete(batch);
  }

  /** A falsy pattern argument (`match(false)`, `match(0)`) is skipped rather
      than validated: matching by it alone returns every stored quad. */
  method MatchFalsy(store: MongoDBStore, falsy: Value) returns (r: Result<set<Quad>, Error>)
    requires !Truthy(falsy)
    ensures r.Success? && forall q :: q in r.value <==> QuadToDoc(q) in store.docs
  {
    r := store.Match(falsy, FalsyValue, FalsyValue, FalsyValue);
  }

  /** Likewise `deleteMatches(0)`: it deletes every stored quad and reports
      how many there were. */
  method DeleteMatchesFalsy(store: MongoDBStore, falsy: Value) returns (r: Result<nat, Error>)
    requires store.Valid() && !Truthy(falsy)
    modifies store
    ensures r == Success(|old(store.docs)|)
    ensures store.Valid() && store.docs == {}
  {
    ghost var gone;
    r, gone := store.DeleteMatches(falsy, FalsyValue, FalsyValue, FalsyValue);
    assert (set doc | doc in old(store.docs) && MatchesPattern(doc, falsy, FalsyValue, FalsyValue, FalsyValue))
        == old(store.docs);
  }
}
