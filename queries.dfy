/** The query strings the five search operations of the event store build.
    The search term is interpolated verbatim, without escaping. */
module Queries {
  import opened Documents

  function TopicQuery(term: string): (q: string)
  {
    "name:" + term + " OR description:" + term + " OR track:" + term + " OR tag:" + term
  }

  function SpeakerQuery(term: string): (q: string)
  {
    "speaker:" + term
  }

  /** The match-all query of the suggested-events search. */
  const SuggestedQuery: string := "*:*"

  function MusicTopicQuery(term: string): (q: string)
  {
    "name:" + term + " OR description:" + term + " OR track:" + term + " OR tag:" + term
      + " OR artist:" + term
  }

  function MusicArtistQuery(term: string): (q: string)
  {
    "artist:" + term
  }

  /** Reference definition: the clauses `field:term`, one per field, joined
      with ` OR `. */
  function AnyOf(fields: seq<string>, term: string): (q: string)
  {
    if |fields| == 0 then ""
    else if |fields| == 1 then fields[0] + ":" + term
    else fields[0] + ":" + term + " OR " + AnyOf(fields[1..], term)
  }

  /** The search fields each index of the design document declares, in order. */
  lemma IndexFields()
    ensures FieldNames(SearchIndexes()[ByTopic]) == ["name", "description", "track", "tag"]
    ensures FieldNames(SearchIndexes()[BySpeaker]) == ["speaker"]
    ensures FieldNames(SearchIndexes()[ByMusicTopic]) == ["name", "description", "track", "tag", "artist"]
    ensures FieldNames(SearchIndexes()[ByMusicArtist]) == ["artist"]
  {
    var topic, music := SearchIndexes()[ByTopic], SearchIndexes()[ByMusicTopic];
    assert |FieldNames(topic)| == 4 && |FieldNames(music)| == 5;
  }

  lemma AnyOfCons(field: string, fields: seq<string>, term: string)
    requires |fields| > 0
    ensures AnyOf([field] + fields, term) == field + ":" + term + " OR " + AnyOf(fields, term)
  {
    assert ([field] + fields)[1..] == fields;
  }

  /** The clauses of the four topic fields, name, description, track and tag. */
  lemma TopicClauses(term: string)
    ensures AnyOf(["name", "description", "track", "tag"], term)
      == "name:" + term + " OR description:" + term + " OR track:" + term + " OR tag:" + term
  {
    AnyOfCons("track", ["tag"], term);
    AnyOfCons("description", ["track", "tag"], term);
    AnyOfCons("name", ["description", "track", "tag"], term);
  }

  /** Appending a field appends its clause. */
  lemma {:induction false} AnyOfSnoc(fields: seq<string>, field: string, term: string)
    requires |fields| > 0
    ensures AnyOf(fields + [field], term) == AnyOf(fields, term) + " OR " + (field + ":" + term)
  {
    if |fields| > 1 {
      assert (fields + [field])[1..] == fields[1..] + [field];
      AnyOfSnoc(fields[1..], field, term);
    } else {
      assert (fields + [field])[1..] == [field];
    }
  }

  /** The music topic query is the topic query with an artist clause appended. */
  lemma MusicTopicClauses(term: string)
    ensures AnyOf(["name", "description", "track", "tag", "artist"], term)
      == TopicQuery(term) + " OR artist:" + term
    ensures MusicTopicQuery(term) == TopicQuery(term) + " OR artist:" + term
  {
    var topic: seq<string> := ["name", "description", "track", "tag"];
    assert topic + ["artist"] == ["name", "description", "track", "tag", "artist"];
    AnyOfSnoc(topic, "artist", term);
    TopicClauses(term);
    assert " OR " + ("artist" + ":" + term) == " OR artist:" + term;
  }

  /** Each query asks, for the term, exactly the search fields that the
      design document declares for the index the operation searches, in the
      order the index declares them. */
  lemma QueriesFollowIndexes(term: string)
    ensures TopicQuery(term) == AnyOf(FieldNames(SearchIndexes()[ByTopic]), term)
    ensures SpeakerQuery(term) == AnyOf(FieldNames(SearchIndexes()[BySpeaker]), term)
    ensures MusicTopicQuery(term) == AnyOf(FieldNames(SearchIndexes()[ByMusicTopic]), term)
    ensures MusicArtistQuery(term) == AnyOf(FieldNames(SearchIndexes()[ByMusicArtist]), term)
  {
    IndexFields();
    TopicClauses(term);
    MusicTopicClauses(term);
  }

  /** The length of a query grows by one term length per clause. */
  lemma {:induction false} AnyOfLength(fields: seq<string>, term: string)
    ensures |AnyOf(fields, term)| == |AnyOf(fields, "")| + |fields| * |term|
  {
    if |fields| > 1 {
      AnyOfLength(fields[1..], term);
    }
  }

  /** A query begins with its first clause. */
  lemma AnyOfStart(fields: seq<string>, term: string)
    requires |fields| > 0
    ensures |fields[0]| + 1 + |term| <= |AnyOf(fields, term)|
    ensures AnyOf(fields, term)[..|fields[0]| + 1 + |term|] == fields[0] + ":" + term
  {
    var head := fields[0] + ":" + term;
    if |fields| > 1 {
      assert AnyOf(fields, term) == head + (" OR " + AnyOf(fields[1..], term));
    }
  }

  /** Reads the term back out of a query over the given fields: the term length
      follows from the query length, and the term stands after the first
      field's name and colon. */
  function TermOf(fields: seq<string>, q: string): (term: Option<string>)
  {
    var overhead := |AnyOf(fields, "")|;
    if |fields| == 0 || |q| < overhead then None
    else
      var len := (|q| - overhead) / |fields|;
      var start := |fields[0]| + 1;
      if start + len <= |q| then Some(q[start..start + len]) else None
  }

  lemma {:induction false} MulAtLeast(n: nat, d: int)
    requires d >= 1
    ensures n * d >= n
    decreases d
  {
    if d > 1 {
      MulAtLeast(n, d - 1);
      assert n * d == n * (d - 1) + n;
    }
  }

  lemma MulDiv(n: nat, x: nat)
    requires n > 0
    ensures (n * x) / n == x
  {
    var q, r := (n * x) / n, (n * x) % n;
    assert n * x == n * q + r;
    assert n * (x - q) == r;
    if x != q {
      if x - q >= 1 {
        MulAtLeast(n, x - q);
      } else {
        MulAtLeast(n, q - x);
      }
      assert false;
    }
  }

  /** Round trip: the term is recovered from any query over a non-empty
      field list, so the query determines the term. */
  lemma TermOfAnyOf(fields: seq<string>, term: string)
    requires |fields| > 0
    ensures TermOf(fields, AnyOf(fields, term)) == Some(term)
  {
    var q := AnyOf(fields, term);
    var overhead := |AnyOf(fields, "")|;
    assert (|q| - overhead) / |fields| == |term| by {
      AnyOfLength(fields, term);
      MulDiv(|fields|, |term|);
    }
    var start := |fields[0]| + 1;
    assert start + |term| <= |q| && q[start..start + |term|] == term by {
      AnyOfStart(fields, term);
      assert q[start..start + |term|] == q[..start + |term|][start..];
    }
  }

  /** Hence each builder's query determines its term. */
  lemma QueriesDetermineTerm(s: string, t: string)
    ensures TopicQuery(s) == TopicQuery(t) ==> s == t
    ensures SpeakerQuery(s) == SpeakerQuery(t) ==> s == t
    ensures MusicTopicQuery(s) == MusicTopicQuery(t) ==> s == t
    ensures MusicArtistQuery(s) == MusicArtistQuery(t) ==> s == t
  {
    QueriesFollowIndexes(s);
    QueriesFollowIndexes(t);
    var indexes := SearchIndexes();
    TermOfAnyOf(FieldNames(indexes[ByTopic]), s);
    TermOfAnyOf(FieldNames(indexes[ByTopic]), t);
    TermOfAnyOf(FieldNames(indexes[BySpeaker]), s);
    TermOfAnyOf(FieldNames(indexes[BySpeaker]), t);
    TermOfAnyOf(FieldNames(indexes[ByMusicTopic]), s);
    TermOfAnyOf(FieldNames(indexes[ByMusicTopic]), t);
    TermOfAnyOf(FieldNames(indexes[ByMusicArtist]), s);
    TermOfAnyOf(FieldNames(indexes[ByMusicArtist]), t);
  }

  /** Because the term is not escaped, a term may carry clauses of its own: a
      speaker search for `t OR tag:u` is the two-clause query that also matches
      any event tagged `u`. */
  lemma SpeakerTermInjectsClause(t: string, u: string)
    ensures SpeakerQuery(t + " OR tag:" + u) == AnyOf(["speaker"], t) + " OR " + AnyOf(["tag"], u)
  {
  }
}
