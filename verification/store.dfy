/**
  The quad store engine: a store whose state is the `quads` collection of a
  MongoDB database, with the operations `size`, `match`, `add`, `delete`,
  `deleteMatches` and `has`. Every operation validates its input first and
  raises a TypeError, leaving the collection untouched, when it is invalid.
 */
module QuadStore {
  import opened Wrappers
  import opened Terms
  import opened Validation
  import opened Documents
  import opened Changes

  /** The error `_assert` raises when an input is rejected. */
  datatype Error = TypeError(message: string)

  const ModuleName: string := "module.persistence.mongodb"

  /** `_assert` prefixes every message with the module's name. */
  function Raised(message: string): Error
  {
    TypeError(ModuleName + " : " + message)
  }

  // ---------------------------------------------------------------- batches

  /** `quadArr.every(validQuad)`. */
  predicate AllValidQuads(batch: seq<Value>)
  {
    forall i :: 0 <= i < |batch| ==> ValidQuad(batch[i])
  }

  /** The quads of a validated batch. */
  function QuadsOf(batch: seq<Value>): (quads: seq<Quad>)
    requires AllValidQuads(batch)
    ensures |quads| == |batch|
    ensures forall i :: 0 <= i < |batch| ==> batch[i] == QuadValue(quads[i])
  {
    seq(|batch|, i requires 0 <= i < |batch| => batch[i].quad)
  }

  /** Every document of a validated batch is the document of a valid quad. */
  lemma BatchDocsValid(batch: seq<Value>)
    requires AllValidQuads(batch)
    ensures forall doc :: doc in Elems(Docs(QuadsOf(batch))) ==> ValidDoc(doc)
  {
    var quads := QuadsOf(batch);
    forall doc | doc in Elems(Docs(quads))
      ensures ValidDoc(doc)
    {
      var i :| 0 <= i < |quads| && Docs(quads)[i] == doc;
      assert batch[i] == QuadValue(DocToQuad(doc));
    }
  }

  // --------------------------------------------------------------- patterns

  /** A position of a quad, in the order `match` checks its arguments. */
  datatype Position = Subject | Predicate | Object | Graph

  function PositionName(pos: Position): string
  {
    match pos
    case Subject => "subject"
    case Predicate => "predicate"
    case Object => "object"
    case Graph => "graph"
  }

  function ValidAt(pos: Position, term: Value): bool
  {
    match pos
    case Subject => ValidSubject(term)
    case Predicate => ValidPredicate(term)
    case Object => ValidObject(term)
    case Graph => ValidGraph(term)
  }

  /** The error of `match` or `deleteMatches` (named by `op`) for a term invalid at `pos`. */
  function InvalidTerm(op: string, pos: Position): Error
  {
    Raised("MongoDBStore#" + op + " : invalid " + PositionName(pos))
  }

  /** A pattern argument that is given (truthy) but not admissible at its position. */
  predicate Rejects(pos: Position, arg: Value)
  {
    Truthy(arg) && !ValidAt(pos, arg)
  }

  /** The first rejected argument, in the order subject, predicate, object, graph. */
  function FirstInvalid(s: Value, p: Value, o: Value, g: Value): Option<Position>
  {
    if Rejects(Subject, s) then Some(Subject)
    else if Rejects(Predicate, p) then Some(Predicate)
    else if Rejects(Object, o) then Some(Object)
    else if Rejects(Graph, g) then Some(Graph)
    else None
  }

  /** A falsy argument is no constraint and matches any term; a given one
      matches only its own term. */
  predicate Agrees(arg: Value, t: Term)
  {
    !Truthy(arg) || arg == TermValue(t)
  }

  predicate MatchesPattern(doc: QuadDoc, s: Value, p: Value, o: Value, g: Value)
  {
    Agrees(s, doc.subject) && Agrees(p, doc.pred) && Agrees(o, doc.obj) && Agrees(g, doc.graph)
  }

  /**
    Builds the find filter of `match` and `deleteMatches` clause by clause,
    rejecting the first given (truthy) argument that is invalid for its position. The
    filter finds exactly the documents that agree with the pattern.
   */
  method BuildFindQuery(op: string, s: Value, p: Value, o: Value, g: Value)
    returns (r: Result<FindQuery, Error>)
    ensures r.Failure? <==> FirstInvalid(s, p, o, g).Some?
    ensures r.Failure? ==> r.error == InvalidTerm(op, FirstInvalid(s, p, o, g).value)
    ensures r.Success? ==> forall doc :: Matches(r.value, doc) <==> MatchesPattern(doc, s, p, o, g)
  {
    var query := EmptyQuery;
    if Truthy(s) {
      if !ValidSubject(s) {
        return Failure(InvalidTerm(op, Subject));
      }
      query := query.(subject := Some(s.term));
    }
    if Truthy(p) {
      if !ValidPredicate(p) {
        return Failure(InvalidTerm(op, Predicate));
      }
      query := query.(pred := Some(p.term));
    }
    if Truthy(o) {
      if !ValidObject(o) {
        return Failure(InvalidTerm(op, Object));
      }
      query := query.(obj := Some(o.term));
    }
    if Truthy(g) {
      if !ValidGraph(g) {
        return Failure(InvalidTerm(op, Graph));
      }
      query := query.(graph := Some(g.term));
    }
    return Success(query);
  }

  /**
    The loop of `delete` over the find-and-delete results: counts those that
    found a document and collects their indices, which are the positions of
    the batch's first occurrences of stored documents.
   */
  method CountFound(ghost stored: set<QuadDoc>, ghost bulk: seq<QuadDoc>, removedAt: seq<bool>)
    returns (deleted: nat, hits: seq<nat>)
    requires |removedAt| == |bulk|
    requires forall j :: 0 <= j < |bulk| ==> removedAt[j] == (bulk[j] in stored && bulk[j] !in bulk[..j])
    ensures hits == FirstOccurrences(stored, bulk, true)
    ensures deleted == |hits| == |Elems(bulk) * stored|
  {
    deleted := 0;
    hits := [];
    var k := 0;
    while k < |removedAt|
      invariant 0 <= k <= |removedAt|
      invariant hits == FirstOccurrences(stored, bulk[..k], true)
      invariant deleted == |hits|
    {
      assert bulk[..k + 1][..k] == bulk[..k];
      if removedAt[k] {
        deleted := deleted + 1;
        hits := hits + [k];
      }
      k := k + 1;
    }
    assert bulk[..k] == bulk;
    FirstOccurrencesCount(stored, bulk, true);
  }

  /**
    The walk of `deleteMatches` over the find cursor: queues one delete by
    identity per document the cursor delivers, each document once.
   */
  method QueueDeletes(cursor: set<QuadDoc>) returns (bulkQuery: seq<QuadDoc>)
    ensures Distinct(bulkQuery) && Elems(bulkQuery) == cursor
    ensures |bulkQuery| == |cursor|
  {
    bulkQuery := [];
    var rest := cursor;
    while rest != {}
      invariant rest <= cursor
      invariant Elems(bulkQuery) == cursor - rest
      invariant Distinct(bulkQuery)
      invariant |bulkQuery| + |rest| == |cursor|
      decreases |rest|
    {
      var doc :| doc in rest;
      bulkQuery := bulkQuery + [doc];
      ElemsSnoc(bulkQuery);
      rest := rest - {doc};
    }
  }

  // ------------------------------------------------------------------ store

  class MongoDBStore {
    /** The documents of the `quads` collection. */
    var docs: set<QuadDoc>
    /** The collection when the store was opened, and every `added` and
        `deleted` notification emitted since, in order. */
    ghost var initial: set<QuadDoc>
    ghost var events: seq<Event>

    /** Only valid quads are stored, and the notifications account for every
        change: replayed on the opening state they give the collection, each
        `added` quad being new and each `deleted` quad present at the time. */
    ghost predicate Valid()
      reads this
    {
      && (forall doc :: doc in docs ==> ValidDoc(doc))
      && Replay(Some(initial), events) == Some(docs)
    }

    /** A store already connected to a collection holding `existing`. */
    constructor (existing: set<QuadDoc>)
      requires forall doc :: doc in existing ==> ValidDoc(doc)
      ensures Valid()
      ensures docs == existing && initial == existing && events == []
    {
      docs := existing;
      initial := existing;
      events := [];
    }

    /** The number of stored quads, which the notifications account for. */
    method Size() returns (count: nat)
      requires Valid()
      ensures count == |docs|
      ensures count == |initial| + CountAdded(events) - CountDeleted(events)
    {
      count := |docs|;
      ReplayCounts(initial, events);
    }

    /** The stored quads that agree with every given (truthy) argument; a falsy
        argument constrains nothing. */
    method Match(s: Value, p: Value, o: Value, g: Value)
      returns (r: Result<set<Quad>, Error>)
      ensures r.Failure? <==> FirstInvalid(s, p, o, g).Some?
      ensures r.Failure? ==> r.error == InvalidTerm("match", FirstInvalid(s, p, o, g).value)
      ensures r.Success? ==>
        forall q :: q in r.value <==> QuadToDoc(q) in docs && MatchesPattern(QuadToDoc(q), s, p, o, g)
    {
      var built := BuildFindQuery("match", s, p, o, g);
      if built.Failure? {
        return Failure(built.error);
      }
      var cursor := Find(docs, built.value);
      var dataset: set<Quad> := {};
      var rest := cursor;
      while rest != {}
        invariant rest <= cursor
        invariant forall q :: q in dataset <==> QuadToDoc(q) in cursor - rest
        decreases |rest|
      {
        var doc :| doc in rest;
        dataset := dataset + {DocToQuad(doc)};
        rest := rest - {doc};
      }
      return Success(dataset);
    }

    /** The bulk write of `add`: one upsert per document, in order. Returns
        the indices of the documents it created (`result.upserted`). */
    method BulkUpsert(bulk: seq<QuadDoc>) returns (upserted: seq<nat>)
      modifies this`docs
      ensures docs == old(docs) + Elems(bulk)
      ensures upserted == FirstOccurrences(old(docs), bulk, false)
    {
      upserted := [];
      var i := 0;
      while i < |bulk|
        invariant 0 <= i <= |bulk|
        invariant docs == old(docs) + Elems(bulk[..i])
        invariant upserted == FirstOccurrences(old(docs), bulk[..i], false)
      {
        FindExact(docs, bulk[i]);
        if Find(docs, ExactQuery(bulk[i])) == {} {
          docs := docs + {bulk[i]};
          upserted := upserted + [i];
        }
        assert bulk[..i + 1][..i] == bulk[..i];
        ElemsSnoc(bulk[..i + 1]);
        i := i + 1;
      }
      assert bulk[..i] == bulk;
    }

    /** One find-and-delete per document, in order; `removedAt[j]` tells
        whether the `j`th found a document to delete. */
    method FindOneAndDeleteEach(bulk: seq<QuadDoc>) returns (removedAt: seq<bool>)
      modifies this`docs
      ensures docs == old(docs) - Elems(bulk)
      ensures |removedAt| == |bulk|
      ensures forall j :: 0 <= j < |bulk| ==> removedAt[j] == (bulk[j] in old(docs) && bulk[j] !in bulk[..j])
    {
      removedAt := [];
      var i := 0;
      while i < |bulk|
        invariant 0 <= i <= |bulk| && |removedAt| == i
        invariant docs == old(docs) - Elems(bulk[..i])
        invariant forall j :: 0 <= j < i ==> removedAt[j] == (bulk[j] in old(docs) && bulk[j] !in bulk[..j])
      {
        FindExact(docs, bulk[i]);
        var found := Find(docs, ExactQuery(bulk[i]));
        if found != {} {
          var doc :| doc in found;
          docs := docs - {doc};
          removedAt := removedAt + [true];
        } else {
          removedAt := removedAt + [false];
        }
        assert bulk[..i + 1][..i] == bulk[..i];
        ElemsSnoc(bulk[..i + 1]);
        i := i + 1;
      }
      assert bulk[..i] == bulk;
    }

    /** The bulk write of `deleteMatches`: one delete by identity per
        resolved document. Returns `result.nRemoved`. */
    method BulkDelete(bulkQuery: seq<QuadDoc>) returns (nRemoved: nat)
      requires Distinct(bulkQuery) && Elems(bulkQuery) <= docs
      modifies this`docs
      ensures docs == old(docs) - Elems(bulkQuery)
      ensures nRemoved == |bulkQuery|
    {
      nRemoved := 0;
      var j := 0;
      while j < |bulkQuery|
        invariant 0 <= j <= |bulkQuery|
        invariant docs == old(docs) - Elems(bulkQuery[..j])
        invariant nRemoved == j
      {
        assert bulkQuery[j] in Elems(bulkQuery) && bulkQuery[j] !in bulkQuery[..j];
        if bulkQuery[j] in docs {
          docs := docs - {bulkQuery[j]};
          nRemoved := nRemoved + 1;
        }
        assert bulkQuery[..j + 1][..j] == bulkQuery[..j];
        ElemsSnoc(bulkQuery[..j + 1]);
        j := j + 1;
      }
      assert bulkQuery[..j] == bulkQuery;
    }

    /** Emits one `deleted` (or `added`) notification per document, in order. */
    method Emit(deleted: bool, changed: seq<QuadDoc>)
      modifies this`events
      ensures events == old(events) + Announce(deleted, changed)
    {
      var k := 0;
      assert Announce(deleted, changed[..k]) == [];
      while k < |changed|
        invariant 0 <= k <= |changed|
        invariant events == old(events) + Announce(deleted, changed[..k])
      {
        assert changed[..k + 1] == changed[..k] + [changed[k]];
        AnnounceSnoc(deleted, changed[..k], changed[k]);
        var quad := DocToQuad(changed[k]);
        events := events + [if deleted then Deleted(quad) else Added(quad)];
        k := k + 1;
      }
      assert changed[..k] == changed;
    }

    /**
      Upserts every quad of the batch, in order. The result counts the distinct
      quads that were not stored before, and exactly those are announced as
      `added`, each once, in the order of their first appearance.
     */
    method Add(batch: seq<Value>) returns (r: Result<nat, Error>)
      requires Valid()
      modifies this
      ensures Valid() && initial == old(initial)
      ensures r.Failure? <==> !AllValidQuads(batch)
      ensures r.Failure? ==>
        r.error == Raised("MongoDBStore#add : invalid quads") && docs == old(docs) && events == old(events)
      ensures r.Success? ==>
        var bulk := Docs(QuadsOf(batch));
        var upserted := FirstOccurrences(old(docs), bulk, false);
        && docs == old(docs) + Elems(bulk)
        && r.value == |Elems(bulk) - old(docs)|
        && events == old(events) + Announce(false, Pick(bulk, upserted))
        && |events| == |old(events)| + r.value
        && Elems(Pick(bulk, upserted)) == Elems(bulk) - old(docs)
    {
      if !AllValidQuads(batch) {
        return Failure(Raised("MongoDBStore#add : invalid quads"));
      }
      var bulk := Docs(QuadsOf(batch));
      BatchDocsValid(batch);
      ghost var before := docs;
      var upserted := BulkUpsert(bulk);
      Emit(false, Pick(bulk, upserted));

      ReplayAppend(Some(initial), old(events), Announce(false, Pick(bulk, upserted)));
      ReplayFirstOccurrences(before, bulk, false);
      FirstOccurrencesCount(before, bulk, false);
      FirstOccurrencesPick(before, bulk, false);
      return Success(|upserted|);
    }

    /**
      Finds and deletes every quad of the batch, in order. The result counts
      the distinct quads that were stored, and exactly those are announced as
      `deleted`, each once, in the order of their first appearance.
     */
    method Delete(batch: seq<Value>) returns (r: Result<nat, Error>)
      requires Valid()
      modifies this
      ensures Valid() && initial == old(initial)
      ensures r.Failure? <==> !AllValidQuads(batch)
      ensures r.Failure? ==>
        r.error == Raised("MongoDBStore#delete : invalid quads") && docs == old(docs) && events == old(events)
      ensures r.Success? ==>
        var bulk := Docs(QuadsOf(batch));
        var hits := FirstOccurrences(old(docs), bulk, true);
        && docs == old(docs) - Elems(bulk)
        && r.value == |Elems(bulk) * old(docs)|
        && events == old(events) + Announce(true, Pick(bulk, hits))
        && |events| == |old(events)| + r.value
        && Elems(Pick(bulk, hits)) == Elems(bulk) * old(docs)
    {
      if !AllValidQuads(batch) {
        return Failure(Raised("MongoDBStore#delete : invalid quads"));
      }
      var bulk := Docs(QuadsOf(batch));
      ghost var before := docs;
      var removedAt := FindOneAndDeleteEach(bulk);

      var deleted, hits := CountFound(before, bulk, removedAt);
      Emit(true, Pick(bulk, hits));

      ReplayAppend(Some(initial), old(events), Announce(true, Pick(bulk, hits)));
      ReplayFirstOccurrences(before, bulk, true);
      FirstOccurrencesCount(before, bulk, true);
      FirstOccurrencesPick(before, bulk, true);
      return Success(deleted);
    }

    /**
      Resolves the pattern to the stored documents it matches, deletes each of
      them by identity, and announces each as `deleted`. The result is the
      number of matched documents; nothing else is touched. `removed` is the
      order in which the cursor delivered the matches.
     */
    method DeleteMatches(s: Value, p: Value, o: Value, g: Value)
      returns (r: Result<nat, Error>, ghost removed: seq<QuadDoc>)
      requires Valid()
      modifies this
      ensures Valid() && initial == old(initial)
      ensures r.Failure? <==> FirstInvalid(s, p, o, g).Some?
      ensures r.Failure? ==>
        r.error == InvalidTerm("deleteMatches", FirstInvalid(s, p, o, g).value) &&
        docs == old(docs) && events == old(events)
      ensures r.Success? ==>
        var matched := set doc | doc in old(docs) && MatchesPattern(doc, s, p, o, g);
        && docs == old(docs) - matched
        && r.value == |matched|
        && Distinct(removed) && Elems(removed) == matched
        && events == old(events) + Announce(true, removed)
    {
      var built := BuildFindQuery("deleteMatches", s, p, o, g);
      if built.Failure? {
        return Failure(built.error), [];
      }
      var cursor := Find(docs, built.value);
      assert cursor == set doc | doc in docs && MatchesPattern(doc, s, p, o, g);

      var bulkQuery := QueueDeletes(cursor);
      ghost var before := docs;
      var nRemoved := BulkDelete(bulkQuery);
      Emit(true, bulkQuery);

      ReplayAppend(Some(initial), old(events), Announce(true, bulkQuery));
      ReplayRemoveAll(before, bulkQuery);
      return Success(nRemoved), bulkQuery;
    }

    /** Whether every quad of the batch is stored; true for an empty batch. */
    method Has(batch: seq<Value>) returns (r: Result<bool, Error>)
      ensures r.Failure? <==> !AllValidQuads(batch)
      ensures r.Failure? ==> r.error == Raised("MongoDBStore#has : invalid quads")
      ensures r.Success? ==> (r.value <==> forall q :: q in QuadsOf(batch) ==> QuadToDoc(q) in docs)
    {
      if !AllValidQuads(batch) {
        return Failure(Raised("MongoDBStore#has : invalid quads"));
      }
      var quadArr := QuadsOf(batch);
      var bulk := Docs(quadArr);

      // a count limited to one document per quad
      var counts: seq<nat> := [];
      var i := 0;
      while i < |bulk|
        invariant 0 <= i <= |bulk| && |counts| == i
        invariant forall j :: 0 <= j < i ==> counts[j] == if bulk[j] in docs then 1 else 0
      {
        FindExact(docs, bulk[i]);
        counts := counts + [if Find(docs, ExactQuery(bulk[i])) != {} then 1 else 0];
        i := i + 1;
      }

      var every := true;
      var k := 0;
      while k < |counts|
        invariant 0 <= k <= |counts|
        invariant every <==> forall j :: 0 <= j < k ==> counts[j] > 0
      {
        every := every && counts[k] > 0;
        k := k + 1;
      }
      return Success(every);
    }
  }
}
