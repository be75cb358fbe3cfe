/** The event-store facade: provisioning of the search design document,
    the five search operations with their result shaping, and the lookup of
    events by id. The database is the abstract map of module Store; the
    ranked rows of a search come from a function the caller supplies. */
module EventStore {
  import opened Documents
  import opened Store
  import opened Queries

  /** How the promise an operation returns settles: rejected with the store's
      error, or resolved with a value or with nothing (`undefined`). */
  datatype Settled<T> = Rejected(error: string) | Resolved(value: Option<T>)

  /** One row of a search reply; with `include_docs` it carries the document. */
  datatype Row = Row(id: string, doc: Doc)

  /** A search against `_design/<designDoc>/_search/<index>`. */
  datatype SearchRequest = SearchRequest(designDoc: string, index: string, q: string, includeDocs: bool)

  /** A search reply: rejected, or a body whose `rows` may be missing. */
  datatype SearchReply = SearchFailed(error: string) | SearchAnswer(rows: Option<seq<Row>>)

  /** The store's search service, rows in its own relevance order. */
  type Search = SearchRequest -> SearchReply

  function Min(a: int, b: int): (m: int)
  {
    if a <= b then a else b
  }

  /** The documents of the rows, in row order. */
  function RowDocs(rows: seq<Row>): (docs: seq<Doc>)
  {
    if rows == [] then [] else [rows[0].doc] + RowDocs(rows[1..])
  }

  lemma {:induction false} RowDocsAt(rows: seq<Row>)
    ensures |RowDocs(rows)| == |rows|
    ensures forall j :: 0 <= j < |rows| ==> RowDocs(rows)[j] == rows[j].doc
  {
    if rows != [] {
      RowDocsAt(rows[1..]);
    }
  }

  /** At most `count` documents, from the front; a count of zero or less means
      no limit. */
  function Limit(docs: seq<Doc>, count: int): (r: seq<Doc>)
    ensures r <= docs
    ensures |r| == if count <= 0 then |docs| else Min(|docs|, count)
  {
    if count <= 0 || |docs| <= count then docs else docs[..count]
  }

  /** What a search operation settles with, given the store's reply. */
  function Shape(reply: SearchReply, count: int): (r: Settled<seq<Doc>>)
    ensures r.Rejected? <==> reply.SearchFailed?
    ensures r == Resolved(None) <==> reply == SearchAnswer(None)
    ensures reply.SearchAnswer? && reply.rows.Some? ==>
      r.Resolved? && r.value.Some? && r.value.value <= RowDocs(reply.rows.value)
  {
    match reply
    case SearchFailed(e) => Rejected(e)
    case SearchAnswer(None) => Resolved(None)
    case SearchAnswer(Some(rows)) => Resolved(Some(Limit(RowDocs(rows), count)))
  }

  /** Asking for fewer documents gives a prefix of asking for more. */
  lemma LimitMonotone(docs: seq<Doc>, a: int, b: int)
    requires 0 < a <= b
    ensures Limit(docs, a) <= Limit(docs, b)
  {
  }

  /** With a positive count the result is exactly the first `count` documents
      when there are that many; with no limit it is every document. */
  lemma LimitExact(docs: seq<Doc>, count: int)
    ensures count <= 0 ==> Limit(docs, count) == docs
    ensures 0 < count <= |docs| ==> Limit(docs, count) == docs[..count]
    ensures count > |docs| ==> Limit(docs, count) == docs
  {
  }

  /** The database after `init`, stated on its own: the design document is
      added unless one is stored already or a request of `init` fails. */
  function InitEffect(db: Db, findFault: Fault, insertFault: Fault): (after: Db)
  {
    if DesignId in db || findFault.Fails? || insertFault.Fails? then db
    else db[DesignId := SearchDesignDoc()]
  }

  /** An existing design document is never overwritten. */
  lemma InitKeepsExisting(db: Db, findFault: Fault, insertFault: Fault)
    requires DesignId in db
    ensures InitEffect(db, findFault, insertFault) == db
  {
  }

  /** No document other than the design document is added, removed or changed. */
  lemma InitTouchesOnlyDesign(db: Db, findFault: Fault, insertFault: Fault)
    ensures forall k :: k != DesignId ==>
      (k in InitEffect(db, findFault, insertFault) <==> k in db)
    ensures forall k :: k != DesignId && k in db ==>
      InitEffect(db, findFault, insertFault)[k] == db[k]
  {
  }

  /** When neither request fails, the design document is present afterwards,
      and it is the one with the four indexes if none was stored before. */
  lemma InitProvisions(db: Db, findFault: Fault, insertFault: Fault)
    requires !findFault.Fails? && !insertFault.Fails?
    ensures DesignId in InitEffect(db, findFault, insertFault)
    ensures DesignId !in db ==> InitEffect(db, findFault, insertFault)[DesignId] == SearchDesignDoc()
    ensures DesignId !in db ==>
      InitEffect(db, findFault, insertFault)[DesignId].indexes.Keys
        == {ByTopic, BySpeaker, ByMusicTopic, ByMusicArtist}
  {
  }

  /** Once one `init` has provisioned, a later one changes nothing, whatever
      the server does then. */
  lemma InitIdempotent(db: Db, f1: Fault, i1: Fault, f2: Fault, i2: Fault)
    requires !f1.Fails? && !i1.Fails?
    ensures InitEffect(InitEffect(db, f1, i1), f2, i2) == InitEffect(db, f1, i1)
  {
  }

  /** Two calls in either order leave the same database. */
  lemma InitOrderIrrelevant(db: Db, f1: Fault, i1: Fault, f2: Fault, i2: Fault)
    ensures InitEffect(InitEffect(db, f1, i1), f2, i2) == InitEffect(InitEffect(db, f2, i2), f1, i1)
  {
  }

  /** There is at most one document with the design id after `init`, and
      exactly one when its requests succeed. */
  lemma {:induction false} AtMostOneDesignDoc(db: Db, findFault: Fault, insertFault: Fault)
    requires WellKeyed(db)
    ensures |Matching(InitEffect(db, findFault, insertFault), IdIs(DesignId))| <= 1
    ensures !findFault.Fails? && !insertFault.Fails? ==>
      |Matching(InitEffect(db, findFault, insertFault), IdIs(DesignId))| == 1
  {
    var after := InitEffect(db, findFault, insertFault);
    assert WellKeyed(after);
    var found := Matching(after, IdIs(DesignId));
    if DesignId in after {
      assert found == {after[DesignId]};
    } else {
      assert found == {};
    }
  }

  class CloudantEventStore {
    /** The name of the database in use. */
    const dbName: string
    /** Whether `init` has opened the database (`this.db` no longer null). */
    var connected: bool
    /** The contents of the database named `dbName`. */
    var docs: Db

    ghost predicate Valid()
      reads this
    {
      WellKeyed(docs)
    }

    constructor (dbName: string, contents: Db)
      requires WellKeyed(contents)
      ensures Valid() && this.dbName == dbName && !connected && docs == contents
    {
      this.dbName := dbName;
      connected := false;
      docs := contents;
    }

    /** Opens the database, looks up the design document and inserts it if the
        lookup found none. An error of either request is only logged. */
    method Init(findFault: Fault, insertFault: Fault)
      requires Valid()
      modifies this
      ensures Valid() && connected
      ensures docs == InitEffect(old(docs), findFault, insertFault)
    {
      connected := true;
      var found := Find(docs, IdIs(DesignId), findFault);
      match found {
        case FindFailed(_) =>
        case FindAnswer(result) =>
          FindByIdNonEmpty(docs, DesignId);
          if result.Some? && |result.value| > 0 {
          } else {
            var inserted := Insert(docs, SearchDesignDoc(), insertFault);
            if inserted.Inserted? {
              docs := inserted.db;
            }
          }
      }
    }

    /** Runs a search and collects the documents of its rows, in row order,
        stopping after `count` of them when `count` is positive. */
    method FindEvents(designDoc: string, searchIndex: string, query: string, count: int, search: Search)
      returns (outcome: Settled<seq<Doc>>)
      requires connected
      ensures outcome == Shape(search(SearchRequest(designDoc, searchIndex, query, true)), count)
    {
      var reply := search(SearchRequest(designDoc, searchIndex, query, true));
      match reply {
        case SearchFailed(e) =>
          outcome := Rejected(e);
        case SearchAnswer(None) =>
          outcome := Resolved(None);
        case SearchAnswer(Some(rows)) =>
          var events: seq<Doc> := [];
          var i := -1;
          var k := 0;
          while k < |rows|
            invariant 0 <= k <= |rows|
            invariant count > 0 ==> i == k - 1 && k <= count
            invariant |events| == k
            invariant forall j :: 0 <= j < k ==> events[j] == rows[j].doc
          {
            var take := count <= 0;
            if !take {
              i := i + 1;
              take := i < count;
            }
            if !take {
              break;
            }
            events := events + [rows[k].doc];
            k := k + 1;
          }
          RowDocsAt(rows);
          var expected := Limit(RowDocs(rows), count);
          assert |events| == |expected|;
          assert forall j :: 0 <= j < |events| ==> events[j] == expected[j];
          assert events == expected;
          outcome := Resolved(Some(events));
      }
    }

    method FindEventsByTopic(searchStr: string, count: int, search: Search)
      returns (outcome: Settled<seq<Doc>>)
      requires connected
      ensures outcome == Shape(search(SearchRequest(DesignName, ByTopic, TopicQuery(searchStr), true)), count)
    {
      var query := TopicQuery(searchStr);
      outcome := FindEvents(DesignName, ByTopic, query, count, search);
    }

    method FindEventsBySpeaker(searchStr: string, count: int, search: Search)
      returns (outcome: Settled<seq<Doc>>)
      requires connected
      ensures outcome == Shape(search(SearchRequest(DesignName, BySpeaker, SpeakerQuery(searchStr), true)), count)
    {
      outcome := FindEvents(DesignName, BySpeaker, SpeakerQuery(searchStr), count, search);
    }

    /** Always the match-all query against the speaker index. */
    method FindSuggestedEvents(count: int, search: Search)
      returns (outcome: Settled<seq<Doc>>)
      requires connected
      ensures outcome == Shape(search(SearchRequest(DesignName, BySpeaker, SuggestedQuery, true)), count)
    {
      outcome := FindEvents(DesignName, BySpeaker, SuggestedQuery, count, search);
    }

    method FindMusicEventsByTopic(searchStr: string, count: int, search: Search)
      returns (outcome: Settled<seq<Doc>>)
      requires connected
      ensures outcome == Shape(search(SearchRequest(DesignName, ByMusicTopic, MusicTopicQuery(searchStr), true)), count)
    {
      var query := MusicTopicQuery(searchStr);
      outcome := FindEvents(DesignName, ByMusicTopic, query, count, search);
    }

    method FindMusicEventsByArtist(searchStr: string, count: int, search: Search)
      returns (outcome: Settled<seq<Doc>>)
      requires connected
      ensures outcome == Shape(search(SearchRequest(DesignName, ByMusicArtist, MusicArtistQuery(searchStr), true)), count)
    {
      outcome := FindEvents(DesignName, ByMusicArtist, MusicArtistQuery(searchStr), count, search);
    }

    /** The stored documents whose `_id` is one of `ids`; ids without a
        document are simply absent. */
    function GetEventsForIds(ids: seq<string>, fault: Fault): (r: Settled<set<Doc>>)
      reads this
      requires connected && Valid()
      ensures r.Rejected? <==> fault.Fails?
      ensures fault.Malformed? ==> r == Resolved(None)
      ensures fault.Healthy? ==> r.Resolved? && r.value.Some?
      ensures fault.Healthy? ==>
        forall d :: d in r.value.value <==> d in docs.Values && d.id in ids
      ensures fault.Healthy? && ids == [] ==> r == Resolved(Some({}))
    {
      NoIdsNoDocs(docs);
      match Find(docs, IdIn(ids), fault)
      case FindFailed(e) => Rejected(e)
      case FindAnswer(found) => Resolved(found)
    }
  }
}
