/**
  What a batch of per-document writes does to the collection, and the log of
  `added`/`deleted` notifications the store emits.
 */
module Changes {
  import opened Wrappers
  import opened Terms
  import opened Documents

  function Elems(docs: seq<QuadDoc>): set<QuadDoc>
  {
    set doc | doc in docs
  }

  predicate Distinct(docs: seq<QuadDoc>)
  {
    forall i, j :: 0 <= i < j < |docs| ==> docs[i] != docs[j]
  }

  /**
    The positions of `docs` whose document occurs there for the first time and
    whose presence in `stored` is `present`. Run in order against `stored`, an
    upsert per document creates exactly the documents at the positions with
    `present == false` (MongoDB's `result.upserted` indices), and a
    find-and-delete per document removes exactly those with `present == true`.
   */
  function FirstOccurrences(stored: set<QuadDoc>, docs: seq<QuadDoc>, present: bool): (idx: seq<nat>)
    ensures forall k :: 0 <= k < |idx| ==> idx[k] < |docs|
    decreases |docs|
  {
    if docs == [] then []
    else
      var n := |docs| - 1;
      var prev := FirstOccurrences(stored, docs[..n], present);
      if (docs[n] in stored) == present && docs[n] !in docs[..n] then prev + [n] else prev
  }

  /** The documents at the given positions. */
  function Pick(docs: seq<QuadDoc>, idx: seq<nat>): seq<QuadDoc>
    requires forall k :: 0 <= k < |idx| ==> idx[k] < |docs|
  {
    seq(|idx|, k requires 0 <= k < |idx| => docs[idx[k]])
  }

  /** What such a batch selects: the distinct documents of `docs` that are
      already stored (`present`) or not yet stored (`!present`). */
  function Selected(stored: set<QuadDoc>, docs: seq<QuadDoc>, present: bool): set<QuadDoc>
  {
    if present then Elems(docs) * stored else Elems(docs) - stored
  }

  lemma PickPrefix(docs: seq<QuadDoc>, idx: seq<nat>, m: nat)
    requires m <= |docs|
    requires forall k :: 0 <= k < |idx| ==> idx[k] < m
    ensures Pick(docs[..m], idx) == Pick(docs, idx)
  {
  }

  lemma ElemsSnoc(docs: seq<QuadDoc>)
    requires docs != []
    ensures Elems(docs) == Elems(docs[..|docs| - 1]) + {docs[|docs| - 1]}
  {
    assert docs == docs[..|docs| - 1] + [docs[|docs| - 1]];
  }

  predicate Increasing(idx: seq<nat>)
  {
    forall j, k :: 0 <= j < k < |idx| ==> idx[j] < idx[k]
  }

  /** Each position names the first occurrence of a document whose presence
      in `stored` is `present`. */
  predicate FirstHits(stored: set<QuadDoc>, docs: seq<QuadDoc>, present: bool, idx: seq<nat>)
  {
    forall k :: 0 <= k < |idx| ==>
      idx[k] < |docs| && (docs[idx[k]] in stored) == present && docs[idx[k]] !in docs[..idx[k]]
  }

  lemma {:induction false} FirstOccurrencesOrdered(stored: set<QuadDoc>, docs: seq<QuadDoc>, present: bool)
    ensures Increasing(FirstOccurrences(stored, docs, present))
    ensures FirstHits(stored, docs, present, FirstOccurrences(stored, docs, present))
    decreases |docs|
  {
    if docs != [] {
      var n := |docs| - 1;
      var prefix := docs[..n];
      var prev := FirstOccurrences(stored, prefix, present);
      FirstOccurrencesOrdered(stored, prefix, present);
      assert FirstHits(stored, docs, present, prev) by {
        forall k | 0 <= k < |prev|
          ensures docs[prev[k]] == prefix[prev[k]] && docs[..prev[k]] == prefix[..prev[k]]
        {
        }
      }
      if (docs[n] in stored) == present && docs[n] !in prefix {
        var idx := prev + [n];
        assert Increasing(idx) by {
          forall j, k | 0 <= j < k < |idx|
            ensures idx[j] < idx[k]
          {
            if k < |prev| { assert idx[j] == prev[j] && idx[k] == prev[k]; }
          }
        }
        assert FirstHits(stored, docs, present, idx) by {
          forall k | 0 <= k < |idx|
            ensures idx[k] < |docs| && (docs[idx[k]] in stored) == present && docs[idx[k]] !in docs[..idx[k]]
          {
            if k < |prev| { assert idx[k] == prev[k]; }
          }
        }
      }
    }
  }

  /** There are as many positions as selected documents. */
  lemma {:induction false} FirstOccurrencesCount(stored: set<QuadDoc>, docs: seq<QuadDoc>, present: bool)
    ensures |FirstOccurrences(stored, docs, present)| == |Selected(stored, docs, present)|
    decreases |docs|
  {
    if docs != [] {
      var n := |docs| - 1;
      var prefix := docs[..n];
      FirstOccurrencesCount(stored, prefix, present);
      ElemsSnoc(docs);
      if (docs[n] in stored) == present && docs[n] !in prefix {
        assert Selected(stored, docs, present) == Selected(stored, prefix, present) + {docs[n]};
      } else {
        assert Selected(stored, docs, present) == Selected(stored, prefix, present);
      }
    }
  }

  /** The documents at the positions are exactly the selected ones. */
  lemma {:induction false} FirstOccurrencesPick(stored: set<QuadDoc>, docs: seq<QuadDoc>, present: bool)
    ensures Elems(Pick(docs, FirstOccurrences(stored, docs, present))) == Selected(stored, docs, present)
    decreases |docs|
  {
    if docs != [] {
      var n := |docs| - 1;
      var prefix := docs[..n];
      var prev := FirstOccurrences(stored, prefix, present);
      FirstOccurrencesPick(stored, prefix, present);
      PickPrefix(docs, prev, n);
      ElemsSnoc(docs);
      if (docs[n] in stored) == present && docs[n] !in prefix {
        var picked := Pick(docs, prev + [n]);
        assert picked == Pick(docs, prev) + [docs[n]];
        ElemsSnoc(picked);
        assert Selected(stored, docs, present) == Selected(stored, prefix, present) + {docs[n]};
      } else {
        assert Selected(stored, docs, present) == Selected(stored, prefix, present);
      }
    }
  }

  /** Upserting the same documents a second time creates nothing. */
  lemma {:induction false} UpsertAgainCreatesNothing(stored: set<QuadDoc>, docs: seq<QuadDoc>)
    ensures FirstOccurrences(stored + Elems(docs), docs, false) == []
  {
    FirstOccurrencesCount(stored + Elems(docs), docs, false);
    assert Selected(stored + Elems(docs), docs, false) == {};
  }

  /** Deleting the same documents a second time removes nothing. */
  lemma {:induction false} DeleteAgainRemovesNothing(stored: set<QuadDoc>, docs: seq<QuadDoc>)
    ensures FirstOccurrences(stored - Elems(docs), docs, true) == []
  {
    FirstOccurrencesCount(stored - Elems(docs), docs, true);
    assert Selected(stored - Elems(docs), docs, true) == {};
  }

  /** A notification: `added` or `deleted`, carrying the quad concerned. */
  datatype Event = Added(quad: Quad) | Deleted(quad: Quad)

  /** One notification of the given kind per document, carrying its quad. */
  function Announce(deleted: bool, docs: seq<QuadDoc>): (events: seq<Event>)
  {
    seq(|docs|, k requires 0 <= k < |docs| =>
      if deleted then Deleted(DocToQuad(docs[k])) else Added(DocToQuad(docs[k])))
  }

  /** The collection after one notified change, or `None` when the
      notification does not describe a change: an `added` quad that was
      already stored or a `deleted` quad that was not. */
  function Apply(state: Option<set<QuadDoc>>, event: Event): Option<set<QuadDoc>>
  {
    match state
    case None => None
    case Some(docs) =>
      var doc := QuadToDoc(event.quad);
      match event
      case Added(_) => if doc in docs then None else Some(docs + {doc})
      case Deleted(_) => if doc in docs then Some(docs - {doc}) else None
  }

  /** The collection reconstructed from a starting state and a notification log. */
  function Replay(start: Option<set<QuadDoc>>, events: seq<Event>): Option<set<QuadDoc>>
    decreases |events|
  {
    if events == [] then start
    else Apply(Replay(start, events[..|events| - 1]), events[|events| - 1])
  }

  function CountAdded(events: seq<Event>): nat
  {
    if events == [] then 0
    else CountAdded(events[..|events| - 1]) + (if events[|events| - 1].Added? then 1 else 0)
  }

  function CountDeleted(events: seq<Event>): nat
  {
    if events == [] then 0
    else CountDeleted(events[..|events| - 1]) + (if events[|events| - 1].Deleted? then 1 else 0)
  }

  lemma {:induction false} ReplayAppend(start: Option<set<QuadDoc>>, a: seq<Event>, b: seq<Event>)
    ensures Replay(start, a + b) == Replay(Replay(start, a), b)
    decreases |b|
  {
    if b == [] {
      assert a + b == a;
    } else {
      var m := |b| - 1;
      assert (a + b)[..|a + b| - 1] == a + b[..m];
      ReplayAppend(start, a, b[..m]);
    }
  }

  lemma ReplaySnoc(start: Option<set<QuadDoc>>, events: seq<Event>, event: Event)
    ensures Replay(start, events + [event]) == Apply(Replay(start, events), event)
  {
    assert (events + [event])[..|events|] == events;
  }

  lemma AnnounceSnoc(deleted: bool, docs: seq<QuadDoc>, doc: QuadDoc)
    ensures Announce(deleted, docs + [doc])
         == Announce(deleted, docs) + [if deleted then Deleted(DocToQuad(doc)) else Added(DocToQuad(doc))]
  {
  }

  /**
    The notifications of a batch of upserts (`!present`) or find-and-deletes
    (`present`) describe its effect exactly: replayed on the collection they
    add the new documents or remove the stored ones, and each is a real change.
   */
  lemma {:induction false} ReplayFirstOccurrences(stored: set<QuadDoc>, docs: seq<QuadDoc>, present: bool)
    ensures Replay(Some(stored), Announce(present, Pick(docs, FirstOccurrences(stored, docs, present))))
         == Some(if present then stored - Elems(docs) else stored + Elems(docs))
    decreases |docs|
  {
    if docs == [] {
      assert FirstOccurrences(stored, docs, present) == [];
      assert Announce(present, Pick(docs, [])) == [];
      assert Replay(Some(stored), []) == Some(stored);
      assert Elems(docs) == {};
      assert stored - Elems(docs) == stored + Elems(docs) == stored;
    } else {
      var n := |docs| - 1;
      var prefix := docs[..n];
      var prev := FirstOccurrences(stored, prefix, present);
      var before := Announce(present, Pick(docs, prev));
      ReplayFirstOccurrences(stored, prefix, present);
      PickPrefix(docs, prev, n);
      ElemsSnoc(docs);
      var after := if present then stored - Elems(prefix) else stored + Elems(prefix);
      assert Replay(Some(stored), before) == Some(after);
      if (docs[n] in stored) == present && docs[n] !in prefix {
        assert Pick(docs, prev + [n]) == Pick(docs, prev) + [docs[n]];
        var event := if present then Deleted(DocToQuad(docs[n])) else Added(DocToQuad(docs[n]));
        AnnounceSnoc(present, Pick(docs, prev), docs[n]);
        ReplaySnoc(Some(stored), before, event);
        assert QuadToDoc(event.quad) == docs[n];
        if present {
          assert docs[n] in after;
          assert after - {docs[n]} == stored - Elems(docs);
        } else {
          assert docs[n] !in after;
          assert after + {docs[n]} == stored + Elems(docs);
        }
      } else {
        if present {
          assert after == stored - Elems(docs);
        } else {
          assert after == stored + Elems(docs);
        }
      }
    }
  }

  /** Deleting distinct stored documents one by one, with a notification each,
      removes exactly them. */
  lemma {:induction false} ReplayRemoveAll(stored: set<QuadDoc>, docs: seq<QuadDoc>)
    requires Distinct(docs) && Elems(docs) <= stored
    ensures Replay(Some(stored), Announce(true, docs)) == Some(stored - Elems(docs))
    decreases |docs|
  {
    if docs == [] {
      assert Announce(true, docs) == [];
      assert Replay(Some(stored), []) == Some(stored);
      assert Elems(docs) == {};
      assert stored - Elems(docs) == stored;
    } else {
      var n := |docs| - 1;
      var prefix := docs[..n];
      assert docs == prefix + [docs[n]];
      ElemsSnoc(docs);
      ReplayRemoveAll(stored, prefix);
      AnnounceSnoc(true, prefix, docs[n]);
      ReplaySnoc(Some(stored), Announce(true, prefix), Deleted(DocToQuad(docs[n])));
      assert (stored - Elems(prefix)) - {docs[n]} == stored - Elems(docs);
    }
  }

  /** A log that replays successfully accounts for the collection's size:
      one more document per `added`, one fewer per `deleted`. */
  lemma {:induction false} ReplayCounts(start: set<QuadDoc>, events: seq<Event>)
    requires Replay(Some(start), events).Some?
    ensures |Replay(Some(start), events).value| == |start| + CountAdded(events) - CountDeleted(events)
    decreases |events|
  {
    if events != [] {
      var prior := events[..|events| - 1];
      ReplayCounts(start, prior);
    }
  }
}
