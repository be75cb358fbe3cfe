/** Documents held by the event database, and the search design document that
    `init` provisions, written as declarative data rather than as the
    JavaScript source strings the store's indexer runs. */
module Documents {

  datatype Option<T> = None | Some(value: T)

  /** The event text an index rule reads. */
  datatype Source = Name | Description | Track | TagNames | SpeakerNames

  /** One `index(field, value, options)` call of an index function: the event
      text it reads, the search field it feeds, its boost (None when the
      options are `{}`), and whether the call sits inside `if (doc.music)`. */
  datatype Rule = Rule(source: Source, field: string, boost: Option<nat>, musicOnly: bool)

  /** A stored document. The store is schema-less; an absent event field is
      modelled as empty text or an empty list, which is how the index
      functions treat it. `tags` and `speakers` hold the `name` of each entry. */
  datatype Doc =
    | Event(id: string, name: string, description: string, track: string,
            tags: seq<string>, speakers: seq<string>, music: bool)
    | Design(id: string, indexes: map<string, seq<Rule>>)

  const DesignId: string := "_design/search"
  const DesignName: string := "search"
  const ByTopic: string := "by_topic"
  const BySpeaker: string := "by_speaker"
  const ByMusicTopic: string := "by_music_topic"
  const ByMusicArtist: string := "by_music_artist"

  /** The name, description, track and tag rules shared by `by_topic` and
      `by_music_topic`; the latter wraps them in the music guard. */
  function TopicRules(musicOnly: bool): (rules: seq<Rule>)
  {
    [ Rule(Name, "name", Some(2), musicOnly),
      Rule(Description, "description", Some(1), musicOnly),
      Rule(Track, "track", Some(2), musicOnly),
      Rule(TagNames, "tag", Some(10), musicOnly) ]
  }

  /** The four indexes of the design document, keyed by index name. As written,
      the artist rule of `by_music_topic` is outside its music guard. */
  function SearchIndexes(): (indexes: map<string, seq<Rule>>)
  {
    map[
      ByTopic := TopicRules(false),
      BySpeaker := [Rule(SpeakerNames, "speaker", None, false)],
      ByMusicTopic := TopicRules(true) + [Rule(SpeakerNames, "artist", Some(5), false)],
      ByMusicArtist := [Rule(SpeakerNames, "artist", None, true)]
    ]
  }

  /** The document `init` inserts when none with `DesignId` exists. */
  function SearchDesignDoc(): (d: Doc)
    ensures d.Design? && d.id == DesignId
    ensures d.indexes.Keys == {ByTopic, BySpeaker, ByMusicTopic, ByMusicArtist}
  {
    Design(DesignId, SearchIndexes())
  }

  /** The search fields a list of rules feeds, in declaration order. */
  function FieldNames(rules: seq<Rule>): (fields: seq<string>)
    ensures |fields| == |rules|
    ensures forall j :: 0 <= j < |rules| ==> fields[j] == rules[j].field
  {
    if rules == [] then [] else [rules[0].field] + FieldNames(rules[1..])
  }

  /** The boost of the first rule feeding `field`, if any rule does. */
  function BoostOf(rules: seq<Rule>, field: string): (boost: Option<Option<nat>>)
  {
    if rules == [] then None
    else if rules[0].field == field then Some(rules[0].boost)
    else BoostOf(rules[1..], field)
  }

  /** The text a rule reads from an event ([] for a design document). */
  function SourceText(s: Source, d: Doc): (text: seq<string>)
  {
    if !d.Event? then []
    else match s
      case Name => if d.name == "" then [] else [d.name]
      case Description => if d.description == "" then [] else [d.description]
      case Track => if d.track == "" then [] else [d.track]
      case TagNames => d.tags
      case SpeakerNames => d.speakers
  }

  /** Whether a rule adds the document to its search field: the document is an
      event, passes the music guard if the rule has one, and has the text. */
  predicate Feeds(r: Rule, d: Doc)
  {
    d.Event? && (!r.musicOnly || d.music) && SourceText(r.source, d) != []
  }

  /** The boost `BoostOf` reports is that of the first rule feeding the field. */
  lemma {:induction false} BoostOfFirst(rules: seq<Rule>, j: nat)
    requires j < |rules|
    requires forall i :: 0 <= i < j ==> rules[i].field != rules[j].field
    ensures BoostOf(rules, rules[j].field) == Some(rules[j].boost)
  {
    if j > 0 {
      BoostOfFirst(rules[1..], j - 1);
    }
  }

  /** The boosts the design document declares: topic fields name 2,
      description 1, track 2, tag 10; speaker unboosted; music topic as topic
      plus artist 5; music artist unboosted. */
  lemma DeclaredBoosts()
    ensures BoostOf(SearchIndexes()[ByTopic], "name") == Some(Some(2))
    ensures BoostOf(SearchIndexes()[ByTopic], "description") == Some(Some(1))
    ensures BoostOf(SearchIndexes()[ByTopic], "track") == Some(Some(2))
    ensures BoostOf(SearchIndexes()[ByTopic], "tag") == Some(Some(10))
    ensures BoostOf(SearchIndexes()[BySpeaker], "speaker") == Some(None)
    ensures BoostOf(SearchIndexes()[ByMusicTopic], "name") == Some(Some(2))
    ensures BoostOf(SearchIndexes()[ByMusicTopic], "description") == Some(Some(1))
    ensures BoostOf(SearchIndexes()[ByMusicTopic], "track") == Some(Some(2))
    ensures BoostOf(SearchIndexes()[ByMusicTopic], "tag") == Some(Some(10))
    ensures BoostOf(SearchIndexes()[ByMusicTopic], "artist") == Some(Some(5))
    ensures BoostOf(SearchIndexes()[ByMusicArtist], "artist") == Some(None)
  {
    BoostOfFirst(SearchIndexes()[ByMusicTopic], 1);
    BoostOfFirst(SearchIndexes()[ByMusicTopic], 2);
    BoostOfFirst(SearchIndexes()[ByMusicTopic], 3);
    BoostOfFirst(SearchIndexes()[ByMusicTopic], 4);
  }

  /** `by_music_artist` ignores every event that is not a music event. */
  lemma MusicArtistSkipsNonMusic(d: Doc)
    requires d.Event? && !d.music
    ensures forall r :: r in SearchIndexes()[ByMusicArtist] ==> !Feeds(r, d)
  {
  }

  /** `by_music_topic` as written does feed the speakers of an event that is
      not a music event into its `artist` field, because that rule is outside
      the music guard; its topic rules do not. */
  lemma MusicTopicFeedsAnyArtist(d: Doc)
    requires d.Event? && !d.music && d.speakers != []
    ensures exists r :: r in SearchIndexes()[ByMusicTopic] && r.field == "artist" && Feeds(r, d)
    ensures forall r :: r in SearchIndexes()[ByMusicTopic] && r.field != "artist" ==> !Feeds(r, d)
  {
    var rules := SearchIndexes()[ByMusicTopic];
    assert rules[4] in rules && rules[4].field == "artist" && Feeds(rules[4], d);
  }
}
