/** The document database the event store wraps, as an abstract value: a map
    from `_id` to document, with the two primitives the event store needs for
    it (find by selector, insert). How the server answers is a parameter. */
module Store {
  import opened Documents

  type Db = map<string, Doc>

  /** Every document is stored under its own `_id`. */
  predicate WellKeyed(db: Db)
  {
    forall k :: k in db ==> db[k].id == k
  }

  /** How the server answers one request: normally, with an error (network,
      authentication, query syntax), or with a body lacking the expected
      field (`docs` for a find). */
  datatype Fault = Healthy | Fails(error: string) | Malformed

  /** The two selectors the event store sends: `{_id: id}` and `{_id: {$in: ids}}`. */
  datatype Selector = IdIs(id: string) | IdIn(ids: seq<string>)

  predicate Selects(sel: Selector, k: string)
  {
    match sel
    case IdIs(id) => k == id
    case IdIn(ids) => k in ids
  }

  /** The stored documents a selector picks. The order in which the server
      lists them is its own, so they are a set. */
  function Matching(db: Db, sel: Selector): (ds: set<Doc>)
    ensures forall k :: k in db && Selects(sel, k) ==> db[k] in ds
    ensures WellKeyed(db) ==>
      forall d :: d in ds ==> d.id in db && db[d.id] == d && Selects(sel, d.id)
  {
    set k | k in db && Selects(sel, k) :: db[k]
  }

  /** A find reply: rejected, or a body whose `docs` may be missing. */
  datatype FindReply = FindFailed(error: string) | FindAnswer(docs: Option<set<Doc>>)

  function Find(db: Db, sel: Selector, fault: Fault): (r: FindReply)
    ensures r.FindFailed? <==> fault.Fails?
    ensures fault.Healthy? ==> r == FindAnswer(Some(Matching(db, sel)))
    ensures fault.Malformed? ==> r == FindAnswer(None)
  {
    match fault
    case Healthy => FindAnswer(Some(Matching(db, sel)))
    case Fails(e) => FindFailed(e)
    case Malformed => FindAnswer(None)
  }

  const Conflict: string := "conflict"

  /** An insert reply: the new database, or the error. A malformed reply body
      does not undo an insert that took place. */
  datatype InsertReply = InsertFailed(error: string) | Inserted(db: Db)

  /** Inserting a document without a revision: the server refuses it with a
      conflict when its `_id` is already taken, so nothing is overwritten. */
  function Insert(db: Db, d: Doc, fault: Fault): (r: InsertReply)
    ensures r.Inserted? <==> !fault.Fails? && d.id !in db
    ensures r.Inserted? ==> r.db.Keys == db.Keys + {d.id} && r.db[d.id] == d
    ensures r.Inserted? ==> forall k :: k in db ==> r.db[k] == db[k]
    ensures WellKeyed(db) && r.Inserted? ==> WellKeyed(r.db)
  {
    if fault.Fails? then InsertFailed(fault.error)
    else if d.id in db then InsertFailed(Conflict)
    else Inserted(db[d.id := d])
  }

  /** The lookup of one id finds something exactly when that id is stored. */
  lemma FindByIdNonEmpty(db: Db, id: string)
    ensures |Matching(db, IdIs(id))| > 0 <==> id in db
  {
    if id in db {
      assert db[id] in Matching(db, IdIs(id));
    } else {
      assert forall d :: d !in Matching(db, IdIs(id));
      assert Matching(db, IdIs(id)) == {};
    }
  }

  /** An empty id list finds nothing. */
  lemma NoIdsNoDocs(db: Db)
    ensures Matching(db, IdIn([])) == {}
  {
    assert forall d :: d !in Matching(db, IdIn([]));
  }

  /** Looking up the concatenation of two id lists finds the union of what
      each list finds. */
  lemma IdInConcat(db: Db, a: seq<string>, b: seq<string>)
    ensures Matching(db, IdIn(a + b)) == Matching(db, IdIn(a)) + Matching(db, IdIn(b))
  {
    var ab, ma, mb := Matching(db, IdIn(a + b)), Matching(db, IdIn(a)), Matching(db, IdIn(b));
    forall d | d in ab ensures d in ma + mb {
      var k :| k in db && k in a + b && db[k] == d;
      if k in a { assert db[k] in ma; } else { assert db[k] in mb; }
    }
    forall d | d in ma + mb ensures d in ab {
      if d in ma {
        var k :| k in db && k in a && db[k] == d;
        assert k in a + b;
      } else {
        var k :| k in db && k in b && db[k] == d;
        assert k in a + b;
      }
    }
  }

  /** An id that names no stored document adds nothing to a lookup. */
  lemma MissingIdAddsNothing(db: Db, ids: seq<string>, x: string)
    requires x !in db
    ensures Matching(db, IdIn(ids + [x])) == Matching(db, IdIn(ids))
  {
    var big, small := Matching(db, IdIn(ids + [x])), Matching(db, IdIn(ids));
    forall d | d in big ensures d in small {
      var k :| k in db && k in ids + [x] && db[k] == d;
      assert k != x && k in ids;
    }
    forall d | d in small ensures d in big {
      var k :| k in db && k in ids && db[k] == d;
      assert k in ids + [x];
    }
  }
}
