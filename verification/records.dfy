/** The record shapes of the wiki dump: three embedded value objects and
    the eight record kinds, each with the validator pydantic derives from
    its class (fields checked in declaration order, the first failure
    reported) and its canonical JSON object, the shape the validator is
    written against. Enum-typed fields hold the integer code. */
module Records {
  import opened Base
  import opened JsonValues
  import opened Fields
  import opened Domains

  // ------------------------------------------------------------- value objects

  datatype Tag = Tag(name: string, count: int)

  /** The score histogram; `buckets[i]` is the count for score `i + 1`. */
  datatype ScoreDetails = ScoreDetails(buckets: seq<int>)

  datatype Favorite = Favorite(wish: int, done: int, doing: int, onHold: int, dropped: int)

  /** The JSON member names of the ten score buckets, in order. */
  const BucketKeys: seq<string> := ["1", "2", "3", "4", "5", "6", "7", "8", "9", "10"]

  function ValidateTag(o: Object): (r: Result<Tag, ValidationError>)
    ensures r.Ok? <==> "name" in o && o["name"].JString? && "count" in o && o["count"].JInt?
    ensures r.Ok? ==> Holds(o, "name", JString(r.value.name)) && Holds(o, "count", JInt(r.value.count))
  {
    var name :- StrField(o, "name");
    var count :- IntField(o, "count");
    Ok(Tag(name, count))
  }

  function TagJson(t: Tag): Object
  {
    map["name" := JString(t.name), "count" := JInt(t.count)]
  }

  /** The items of a JSON list of tags; `at` is the position of the first
      item in the whole list, for error locations. */
  function TagItems(items: seq<Json>, at: nat): (r: Result<seq<Tag>, ValidationError>)
    ensures r.Ok? <==> forall i :: 0 <= i < |items| ==> TagItemOk(items[i])
    ensures r.Ok? ==> |r.value| == |items|
    ensures r.Ok? ==> forall i :: 0 <= i < |items| ==>
                        items[i].JObject? && ValidateTag(items[i].fields) == Ok(r.value[i])
    decreases |items|
  {
    if |items| == 0 then Ok([])
    else if !items[0].JObject? then Err(WrongType([Index(at)]))
    else
      var t :- ValidateTag(items[0].fields).MapError(e => Under([Index(at)], e));
      var rest :- TagItems(items[1..], at + 1);
      assert forall i :: 1 <= i < |items| ==> items[i] == items[1..][i - 1];
      Ok([t] + rest)
  }

  /** A list item a tag is read from: an object `ValidateTag` accepts. */
  predicate TagItemOk(item: Json)
  {
    item.JObject? && ValidateTag(item.fields).Ok?
  }

  function TagsJson(ts: seq<Tag>): (r: seq<Json>)
    ensures |r| == |ts|
  {
    if |ts| == 0 then [] else [JObject(TagJson(ts[0]))] + TagsJson(ts[1..])
  }

  /** Bucket values read from `keys`: an absent key reads as 0. */
  function BucketValues(o: Object, keys: seq<string>): (r: Result<seq<int>, ValidationError>)
    ensures r.Ok? ==> |r.value| == |keys|
    ensures r.Ok? ==> forall i :: 0 <= i < |keys| && keys[i] !in o ==> r.value[i] == 0
    ensures r.Ok? ==> forall i :: 0 <= i < |keys| && keys[i] in o ==> o[keys[i]] == JInt(r.value[i])
    ensures r.Err? ==> exists i :: 0 <= i < |keys| && keys[i] in o && !o[keys[i]].JInt?
    decreases |keys|
  {
    if |keys| == 0 then Ok([])
    else
      var v :- if keys[0] in o then IntField(o, keys[0]) else Ok(0);
      var rest :- BucketValues(o, keys[1..]);
      Ok([v] + rest)
  }

  function ValidateScoreDetails(o: Object): (r: Result<ScoreDetails, ValidationError>)
    ensures r.Ok? ==> |r.value.buckets| == 10
    ensures r.Ok? <==> forall i :: 0 <= i < 10 && BucketKeys[i] in o ==> o[BucketKeys[i]].JInt?
    ensures r.Ok? ==> forall i :: 0 <= i < 10 && BucketKeys[i] !in o ==> r.value.buckets[i] == 0
    ensures r.Ok? ==> forall i :: 0 <= i < 10 && BucketKeys[i] in o ==> o[BucketKeys[i]] == JInt(r.value.buckets[i])
  {
    var b :- BucketValues(o, BucketKeys);
    Ok(ScoreDetails(b))
  }

  /** Bucket `i` of `d`, 0 past the end. */
  function Bucket(d: ScoreDetails, i: nat): int
  {
    if i < |d.buckets| then d.buckets[i] else 0
  }

  function ScoreDetailsJson(d: ScoreDetails): Object
  {
    map["1" := JInt(Bucket(d, 0)), "2" := JInt(Bucket(d, 1)), "3" := JInt(Bucket(d, 2)),
        "4" := JInt(Bucket(d, 3)), "5" := JInt(Bucket(d, 4)), "6" := JInt(Bucket(d, 5)),
        "7" := JInt(Bucket(d, 6)), "8" := JInt(Bucket(d, 7)), "9" := JInt(Bucket(d, 8)),
        "10" := JInt(Bucket(d, 9))]
  }

  function ValidateFavorite(o: Object): (r: Result<Favorite, ValidationError>)
    ensures r.Ok? <==> && "wish" in o && o["wish"].JInt? && "done" in o && o["done"].JInt?
                       && "doing" in o && o["doing"].JInt? && "on_hold" in o && o["on_hold"].JInt?
                       && "dropped" in o && o["dropped"].JInt?
    ensures r.Ok? ==> && Holds(o, "wish", JInt(r.value.wish)) && Holds(o, "done", JInt(r.value.done))
                      && Holds(o, "doing", JInt(r.value.doing)) && Holds(o, "on_hold", JInt(r.value.onHold))
                      && Holds(o, "dropped", JInt(r.value.dropped))
  {
    var wish :- IntField(o, "wish");
    var done :- IntField(o, "done");
    var doing :- IntField(o, "doing");
    var onHold :- IntField(o, "on_hold");
    var dropped :- IntField(o, "dropped");
    Ok(Favorite(wish, done, doing, onHold, dropped))
  }

  function FavoriteJson(f: Favorite): Object
  {
    map["wish" := JInt(f.wish), "done" := JInt(f.done), "doing" := JInt(f.doing),
        "on_hold" := JInt(f.onHold), "dropped" := JInt(f.dropped)]
  }

  // ------------------------------------------------------------ nested fields

  /** A required field holding a nested model. */
  function ObjectField<T>(o: Object, k: string, v: Object -> Result<T, ValidationError>): (r: Result<T, ValidationError>)
    ensures r.Ok? <==> k in o && o[k].JObject? && v(o[k].fields).Ok?
    ensures r.Ok? ==> v(o[k].fields) == Ok(r.value)
    ensures k !in o ==> r == Err(Missing([Key(k)]))
    ensures k in o && !o[k].JObject? ==> r == Err(WrongType([Key(k)]))
    ensures k in o && o[k].JObject? && v(o[k].fields).Err? ==> r == Err(Under([Key(k)], v(o[k].fields).error))
  {
    if k in o && o[k].JObject? then v(o[k].fields).MapError(e => Under([Key(k)], e))
    else Err(Absent(o, k))
  }

  /** `score_details: Optional[ScoreDetails] = None`. */
  function ScoreDetailsField(o: Object, k: string): (r: Result<Option<ScoreDetails>, ValidationError>)
    ensures r == Ok(None) <==> k !in o || o[k] == JNull
    ensures k in o && !o[k].JNull? && !o[k].JObject? ==> r == Err(WrongType([Key(k)]))
    ensures k in o && o[k].JObject? ==> (r.Ok? <==> ValidateScoreDetails(o[k].fields).Ok?)
    ensures r.Ok? && r.value.Some? ==>
              k in o && o[k].JObject? && ValidateScoreDetails(o[k].fields) == Ok(r.value.value)
    ensures r.Ok? && r.value.Some? ==> |r.value.value.buckets| == 10
  {
    if k !in o || o[k].JNull? then Ok(None)
    else if o[k].JObject? then
      ValidateScoreDetails(o[k].fields).MapValue(d => Some(d)).MapError(e => Under([Key(k)], e))
    else Err(WrongType([Key(k)]))
  }

  /** `tags: List[Tag] = []`. */
  function TagsField(o: Object, k: string): (r: Result<seq<Tag>, ValidationError>)
    ensures k !in o ==> r == Ok([])
    ensures k in o && !o[k].JArray? ==> r == Err(WrongType([Key(k)]))
    ensures k in o && o[k].JArray? ==> (r.Ok? <==> TagItems(o[k].items, 0).Ok?)
    ensures r.Ok? && k in o ==> o[k].JArray? && TagItems(o[k].items, 0) == Ok(r.value)
  {
    if k !in o then Ok([])
    else if o[k].JArray? then TagItems(o[k].items, 0).MapError(e => Under([Key(k)], e))
    else Err(WrongType([Key(k)]))
  }

  function OptionalStrJson(s: Option<string>): Json
  {
    match s
    case None => JNull
    case Some(v) => JString(v)
  }

  function OptionalScoreDetailsJson(d: Option<ScoreDetails>): Json
  {
    match d
    case None => JNull
    case Some(v) => JObject(ScoreDetailsJson(v))
  }

  // ------------------------------------------------------------------ Subject

  datatype Subject = Subject(
    id: int, subjectType: int, name: string, nameCn: string, infobox: string,
    platform: int, summary: string, nsfw: bool, tags: seq<Tag>, score: Number,
    scoreDetails: Option<ScoreDetails>, rank: int, date: string, favorite: Favorite,
    series: bool, metaTags: Option<string>)

  predicate WellFormedSubject(s: Subject)
  {
    && ValidSubjectType(s.subjectType)
    && (s.scoreDetails.Some? ==> |s.scoreDetails.value.buckets| == 10)
  }

  function ValidateSubject(o: Object): (r: Result<Subject, ValidationError>)
    ensures r.Ok? ==> WellFormedSubject(r.value)
    ensures r.Ok? ==> RequiredFields(SubjectKind) <= o.Keys
    ensures r.Ok? ==> DescribesSubject(o, r.value)
  {
    var id :- IntField(o, "id");
    var subjectType :- EnumField(o, "type", ValidSubjectType);
    var name :- StrField(o, "name");
    var nameCn :- StrField(o, "name_cn");
    var infobox :- StrField(o, "infobox");
    var platform :- IntField(o, "platform");
    var summary :- StrField(o, "summary");
    var nsfw :- BoolField(o, "nsfw");
    var tags :- TagsField(o, "tags");
    var score :- NumberField(o, "score");
    var scoreDetails :- ScoreDetailsField(o, "score_details");
    var rank :- IntField(o, "rank");
    var date :- StrField(o, "date");
    var favorite :- ObjectField(o, "favorite", ValidateFavorite);
    var series :- BoolField(o, "series");
    var metaTags :- OptionalStrField(o, "meta_tags");
    Ok(Subject(id, subjectType, name, nameCn, infobox, platform, summary, nsfw, tags, score,
               scoreDetails, rank, date, favorite, series, metaTags))
  }

  function SubjectJson(s: Subject): Object
  {
    map["id" := JInt(s.id), "type" := JInt(s.subjectType), "name" := JString(s.name),
        "name_cn" := JString(s.nameCn), "infobox" := JString(s.infobox),
        "platform" := JInt(s.platform), "summary" := JString(s.summary),
        "nsfw" := JBool(s.nsfw), "tags" := JArray(TagsJson(s.tags)),
        "score" := NumberJson(s.score), "score_details" := OptionalScoreDetailsJson(s.scoreDetails),
        "rank" := JInt(s.rank), "date" := JString(s.date),
        "favorite" := JObject(FavoriteJson(s.favorite)), "series" := JBool(s.series),
        "meta_tags" := OptionalStrJson(s.metaTags)]
  }

  /** `o` holds the values of `s`: each scalar field is the member's JSON
      value, an absent `meta_tags` leaves `None`, and `tags`,
      `score_details` and `favorite` are what their field checks read from
      the nested members (see `TagsField`, `ScoreDetailsField` and
      `ObjectField` for what that is). */
  predicate DescribesSubject(o: Object, s: Subject)
  {
    && Holds(o, "id", JInt(s.id)) && Holds(o, "type", JInt(s.subjectType))
    && Holds(o, "name", JString(s.name)) && Holds(o, "name_cn", JString(s.nameCn))
    && Holds(o, "infobox", JString(s.infobox)) && Holds(o, "platform", JInt(s.platform))
    && Holds(o, "summary", JString(s.summary)) && Holds(o, "nsfw", JBool(s.nsfw))
    && TagsField(o, "tags") == Ok(s.tags)
    && Holds(o, "score", NumberJson(s.score))
    && ScoreDetailsField(o, "score_details") == Ok(s.scoreDetails)
    && Holds(o, "rank", JInt(s.rank)) && Holds(o, "date", JString(s.date))
    && ObjectField(o, "favorite", ValidateFavorite) == Ok(s.favorite)
    && Holds(o, "series", JBool(s.series))
    && ("meta_tags" in o ==> o["meta_tags"] == OptionalStrJson(s.metaTags))
    && ("meta_tags" !in o ==> s.metaTags == None)
  }

  // ------------------------------------------------------------------- Person

  datatype Person = Person(
    id: int, name: string, personType: int, career: seq<string>, infobox: string,
    summary: string, comments: int, collects: int)

  predicate WellFormedPerson(p: Person)
  {
    ValidPersonType(p.personType)
  }

  function ValidatePerson(o: Object): (r: Result<Person, ValidationError>)
    ensures r.Ok? ==> WellFormedPerson(r.value)
    ensures r.Ok? ==> RequiredFields(PersonKind) <= o.Keys
    ensures r.Ok? ==> DescribesPerson(o, r.value)
  {
    var id :- IntField(o, "id");
    var name :- StrField(o, "name");
    var personType :- EnumField(o, "type", ValidPersonType);
    var career :- StrListField(o, "career");
    var infobox :- StrField(o, "infobox");
    var summary :- StrField(o, "summary");
    var comments :- IntField(o, "comments");
    var collects :- IntField(o, "collects");
    Ok(Person(id, name, personType, career, infobox, summary, comments, collects))
  }

  function PersonJson(p: Person): Object
  {
    map["id" := JInt(p.id), "name" := JString(p.name), "type" := JInt(p.personType),
        "career" := JArray(StrListJson(p.career)), "infobox" := JString(p.infobox),
        "summary" := JString(p.summary), "comments" := JInt(p.comments),
        "collects" := JInt(p.collects)]
  }

  predicate DescribesPerson(o: Object, p: Person)
  {
    && Holds(o, "id", JInt(p.id)) && Holds(o, "name", JString(p.name))
    && Holds(o, "type", JInt(p.personType))
    && ("career" in o ==> o["career"] == JArray(StrListJson(p.career)))
    && ("career" !in o ==> p.career == [])
    && Holds(o, "infobox", JString(p.infobox)) && Holds(o, "summary", JString(p.summary))
    && Holds(o, "comments", JInt(p.comments)) && Holds(o, "collects", JInt(p.collects))
  }

  // ---------------------------------------------------------------- Character

  datatype Character = Character(
    id: int, role: int, name: string, infobox: string, summary: string,
    comments: int, collects: int)

  predicate WellFormedCharacter(c: Character)
  {
    ValidCharacterRole(c.role)
  }

  function ValidateCharacter(o: Object): (r: Result<Character, ValidationError>)
    ensures r.Ok? ==> WellFormedCharacter(r.value)
    ensures r.Ok? ==> RequiredFields(CharacterKind) <= o.Keys
    ensures r.Ok? ==> DescribesCharacter(o, r.value)
  {
    var id :- IntField(o, "id");
    var role :- EnumField(o, "role", ValidCharacterRole);
    var name :- StrField(o, "name");
    var infobox :- StrField(o, "infobox");
    var summary :- StrField(o, "summary");
    var comments :- IntField(o, "comments");
    var collects :- IntField(o, "collects");
    Ok(Character(id, role, name, infobox, summary, comments, collects))
  }

  function CharacterJson(c: Character): Object
  {
    map["id" := JInt(c.id), "role" := JInt(c.role), "name" := JString(c.name),
        "infobox" := JString(c.infobox), "summary" := JString(c.summary),
        "comments" := JInt(c.comments), "collects" := JInt(c.collects)]
  }

  predicate DescribesCharacter(o: Object, c: Character)
  {
    && Holds(o, "id", JInt(c.id)) && Holds(o, "role", JInt(c.role))
    && Holds(o, "name", JString(c.name)) && Holds(o, "infobox", JString(c.infobox))
    && Holds(o, "summary", JString(c.summary)) && Holds(o, "comments", JInt(c.comments))
    && Holds(o, "collects", JInt(c.collects))
  }

  // ------------------------------------------------------------------ Episode

  datatype Episode = Episode(
    id: int, name: string, nameCn: string, description: string, airdate: string,
    disc: int, duration: string, subjectId: int, sort: Number, episodeType: int)

  predicate WellFormedEpisode(e: Episode)
  {
    ValidEpisodeType(e.episodeType)
  }

  function ValidateEpisode(o: Object): (r: Result<Episode, ValidationError>)
    ensures r.Ok? ==> WellFormedEpisode(r.value)
    ensures r.Ok? ==> RequiredFields(EpisodeKind) <= o.Keys
    ensures r.Ok? ==> DescribesEpisode(o, r.value)
  {
    var id :- IntField(o, "id");
    var name :- StrField(o, "name");
    var nameCn :- StrField(o, "name_cn");
    var description :- StrField(o, "description");
    var airdate :- StrField(o, "airdate");
    var disc :- IntField(o, "disc");
    var duration :- StrField(o, "duration");
    var subjectId :- IntField(o, "subject_id");
    var sort :- NumberField(o, "sort");
    var episodeType :- EnumField(o, "type", ValidEpisodeType);
    Ok(Episode(id, name, nameCn, description, airdate, disc, duration, subjectId, sort, episodeType))
  }

  function EpisodeJson(e: Episode): Object
  {
    map["id" := JInt(e.id), "name" := JString(e.name), "name_cn" := JString(e.nameCn),
        "description" := JString(e.description), "airdate" := JString(e.airdate),
        "disc" := JInt(e.disc), "duration" := JString(e.duration),
        "subject_id" := JInt(e.subjectId), "sort" := NumberJson(e.sort),
        "type" := JInt(e.episodeType)]
  }

  predicate DescribesEpisode(o: Object, e: Episode)
  {
    && Holds(o, "id", JInt(e.id)) && Holds(o, "name", JString(e.name))
    && Holds(o, "name_cn", JString(e.nameCn)) && Holds(o, "description", JString(e.description))
    && Holds(o, "airdate", JString(e.airdate)) && Holds(o, "disc", JInt(e.disc))
    && Holds(o, "duration", JString(e.duration)) && Holds(o, "subject_id", JInt(e.subjectId))
    && Holds(o, "sort", NumberJson(e.sort)) && Holds(o, "type", JInt(e.episodeType))
  }

  // ---------------------------------------------------------- SubjectRelation

  datatype SubjectRelation = SubjectRelation(
    subjectId: int, relationType: int, relatedSubjectId: int, order: int)

  predicate WellFormedSubjectRelation(s: SubjectRelation)
  {
    ValidRelationType(s.relationType)
  }

  function ValidateSubjectRelation(o: Object): (r: Result<SubjectRelation, ValidationError>)
    ensures r.Ok? ==> WellFormedSubjectRelation(r.value)
    ensures r.Ok? ==> RequiredFields(SubjectRelationKind) <= o.Keys
    ensures r.Ok? ==> DescribesSubjectRelation(o, r.value)
  {
    var subjectId :- IntField(o, "subject_id");
    var relationType :- EnumField(o, "relation_type", ValidRelationType);
    var relatedSubjectId :- IntField(o, "related_subject_id");
    var order :- IntField(o, "order");
    Ok(SubjectRelation(subjectId, relationType, relatedSubjectId, order))
  }

  function SubjectRelationJson(s: SubjectRelation): Object
  {
    map["subject_id" := JInt(s.subjectId), "relation_type" := JInt(s.relationType),
        "related_subject_id" := JInt(s.relatedSubjectId), "order" := JInt(s.order)]
  }

  predicate DescribesSubjectRelation(o: Object, s: SubjectRelation)
  {
    && Holds(o, "subject_id", JInt(s.subjectId)) && Holds(o, "relation_type", JInt(s.relationType))
    && Holds(o, "related_subject_id", JInt(s.relatedSubjectId)) && Holds(o, "order", JInt(s.order))
  }

  // --------------------------------------------------------- SubjectCharacter

  datatype SubjectCharacter = SubjectCharacter(
    characterId: int, subjectId: int, characterType: int, order: int)

  predicate WellFormedSubjectCharacter(s: SubjectCharacter)
  {
    ValidCharacterSubjectType(s.characterType)
  }

  function ValidateSubjectCharacter(o: Object): (r: Result<SubjectCharacter, ValidationError>)
    ensures r.Ok? ==> WellFormedSubjectCharacter(r.value)
    ensures r.Ok? ==> RequiredFields(SubjectCharacterKind) <= o.Keys
    ensures r.Ok? ==> DescribesSubjectCharacter(o, r.value)
  {
    var characterId :- IntField(o, "character_id");
    var subjectId :- IntField(o, "subject_id");
    var characterType :- EnumField(o, "type", ValidCharacterSubjectType);
    var order :- IntField(o, "order");
    Ok(SubjectCharacter(characterId, subjectId, characterType, order))
  }

  function SubjectCharacterJson(s: SubjectCharacter): Object
  {
    map["character_id" := JInt(s.characterId), "subject_id" := JInt(s.subjectId),
        "type" := JInt(s.characterType), "order" := JInt(s.order)]
  }

  predicate DescribesSubjectCharacter(o: Object, s: SubjectCharacter)
  {
    && Holds(o, "character_id", JInt(s.characterId)) && Holds(o, "subject_id", JInt(s.subjectId))
    && Holds(o, "type", JInt(s.characterType)) && Holds(o, "order", JInt(s.order))
  }

  // ------------------------------------------------------------ SubjectPerson

  /** `position` is free text: no staff-position enumeration is applied. */
  datatype SubjectPerson = SubjectPerson(personId: int, subjectId: int, position: string)

  function ValidateSubjectPerson(o: Object): (r: Result<SubjectPerson, ValidationError>)
    ensures r.Ok? ==> RequiredFields(SubjectPersonKind) <= o.Keys
    ensures r.Ok? ==> DescribesSubjectPerson(o, r.value)
  {
    var personId :- IntField(o, "person_id");
    var subjectId :- IntField(o, "subject_id");
    var position :- StrField(o, "position");
    Ok(SubjectPerson(personId, subjectId, position))
  }

  function SubjectPersonJson(s: SubjectPerson): Object
  {
    map["person_id" := JInt(s.personId), "subject_id" := JInt(s.subjectId),
        "position" := JString(s.position)]
  }

  predicate DescribesSubjectPerson(o: Object, s: SubjectPerson)
  {
    && Holds(o, "person_id", JInt(s.personId)) && Holds(o, "subject_id", JInt(s.subjectId))
    && Holds(o, "position", JString(s.position))
  }

  // ---------------------------------------------------------- PersonCharacter

  datatype PersonCharacter = PersonCharacter(
    personId: int, subjectId: int, characterId: int, summary: string)

  function ValidatePersonCharacter(o: Object): (r: Result<PersonCharacter, ValidationError>)
    ensures r.Ok? ==> RequiredFields(PersonCharacterKind) <= o.Keys
    ensures r.Ok? ==> DescribesPersonCharacter(o, r.value)
  {
    var personId :- IntField(o, "person_id");
    var subjectId :- IntField(o, "subject_id");
    var characterId :- IntField(o, "character_id");
    var summary :- StrField(o, "summary");
    Ok(PersonCharacter(personId, subjectId, characterId, summary))
  }

  function PersonCharacterJson(p: PersonCharacter): Object
  {
    map["person_id" := JInt(p.personId), "subject_id" := JInt(p.subjectId),
        "character_id" := JInt(p.characterId), "summary" := JString(p.summary)]
  }

  predicate DescribesPersonCharacter(o: Object, p: PersonCharacter)
  {
    && Holds(o, "person_id", JInt(p.personId)) && Holds(o, "subject_id", JInt(p.subjectId))
    && Holds(o, "character_id", JInt(p.characterId)) && Holds(o, "summary", JString(p.summary))
  }

  // ------------------------------------------------------- the eight kinds

  datatype Kind =
    | SubjectKind | PersonKind | CharacterKind | EpisodeKind
    | SubjectRelationKind | SubjectPersonKind | SubjectCharacterKind | PersonCharacterKind

  /** A record of any kind: the value a `load_all` sequence yields. */
  datatype Record =
    | SubjectRecord(subject: Subject)
    | PersonRecord(person: Person)
    | CharacterRecord(character: Character)
    | EpisodeRecord(episode: Episode)
    | SubjectRelationRecord(subjectRelation: SubjectRelation)
    | SubjectPersonRecord(subjectPerson: SubjectPerson)
    | SubjectCharacterRecord(subjectCharacter: SubjectCharacter)
    | PersonCharacterRecord(personCharacter: PersonCharacter)

  function KindOf(r: Record): Kind
  {
    match r
    case SubjectRecord(_) => SubjectKind
    case PersonRecord(_) => PersonKind
    case CharacterRecord(_) => CharacterKind
    case EpisodeRecord(_) => EpisodeKind
    case SubjectRelationRecord(_) => SubjectRelationKind
    case SubjectPersonRecord(_) => SubjectPersonKind
    case SubjectCharacterRecord(_) => SubjectCharacterKind
    case PersonCharacterRecord(_) => PersonCharacterKind
  }

  /** Every enum-typed field holds a member's code (and a score histogram
      has its ten buckets). */
  predicate WellFormed(r: Record)
  {
    match r
    case SubjectRecord(s) => WellFormedSubject(s)
    case PersonRecord(p) => WellFormedPerson(p)
    case CharacterRecord(c) => WellFormedCharacter(c)
    case EpisodeRecord(e) => WellFormedEpisode(e)
    case SubjectRelationRecord(s) => WellFormedSubjectRelation(s)
    case SubjectPersonRecord(_) => true
    case SubjectCharacterRecord(s) => WellFormedSubjectCharacter(s)
    case PersonCharacterRecord(_) => true
  }

  /** `o` holds the values of `r`, field by field. */
  predicate Describes(o: Object, r: Record)
  {
    match r
    case SubjectRecord(s) => DescribesSubject(o, s)
    case PersonRecord(p) => DescribesPerson(o, p)
    case CharacterRecord(c) => DescribesCharacter(o, c)
    case EpisodeRecord(e) => DescribesEpisode(o, e)
    case SubjectRelationRecord(s) => DescribesSubjectRelation(o, s)
    case SubjectPersonRecord(s) => DescribesSubjectPerson(o, s)
    case SubjectCharacterRecord(s) => DescribesSubjectCharacter(o, s)
    case PersonCharacterRecord(p) => DescribesPersonCharacter(o, p)
  }

  /** The JSON member names each class declares. */
  function DeclaredFields(k: Kind): set<string>
  {
    match k
    case SubjectKind =>
      {"id", "type", "name", "name_cn", "infobox", "platform", "summary", "nsfw", "tags",
       "score", "score_details", "rank", "date", "favorite", "series", "meta_tags"}
    case PersonKind =>
      {"id", "name", "type", "career", "infobox", "summary", "comments", "collects"}
    case CharacterKind =>
      {"id", "role", "name", "infobox", "summary", "comments", "collects"}
    case EpisodeKind =>
      {"id", "name", "name_cn", "description", "airdate", "disc", "duration", "subject_id",
       "sort", "type"}
    case SubjectRelationKind => {"subject_id", "relation_type", "related_subject_id", "order"}
    case SubjectPersonKind => {"person_id", "subject_id", "position"}
    case SubjectCharacterKind => {"character_id", "subject_id", "type", "order"}
    case PersonCharacterKind => {"person_id", "subject_id", "character_id", "summary"}
  }

  /** The fields declared with a default value. */
  function DefaultedFields(k: Kind): set<string>
  {
    match k
    case SubjectKind => {"tags", "score_details", "meta_tags"}
    case PersonKind => {"career"}
    case _ => {}
  }

  function RequiredFields(k: Kind): set<string>
  {
    DeclaredFields(k) - DefaultedFields(k)
  }

  function Validate(k: Kind, o: Object): (r: Result<Record, ValidationError>)
    ensures r.Ok? ==> KindOf(r.value) == k && WellFormed(r.value)
    ensures r.Ok? ==> RequiredFields(k) <= o.Keys
    ensures r.Ok? ==> Describes(o, r.value)
  {
    match k
    case SubjectKind => ValidateSubject(o).MapValue(s => SubjectRecord(s))
    case PersonKind => ValidatePerson(o).MapValue(p => PersonRecord(p))
    case CharacterKind => ValidateCharacter(o).MapValue(c => CharacterRecord(c))
    case EpisodeKind => ValidateEpisode(o).MapValue(e => EpisodeRecord(e))
    case SubjectRelationKind => ValidateSubjectRelation(o).MapValue(s => SubjectRelationRecord(s))
    case SubjectPersonKind => ValidateSubjectPerson(o).MapValue(s => SubjectPersonRecord(s))
    case SubjectCharacterKind => ValidateSubjectCharacter(o).MapValue(s => SubjectCharacterRecord(s))
    case PersonCharacterKind => ValidatePersonCharacter(o).MapValue(p => PersonCharacterRecord(p))
  }

  function ToJson(r: Record): Object
  {
    match r
    case SubjectRecord(s) => SubjectJson(s)
    case PersonRecord(p) => PersonJson(p)
    case CharacterRecord(c) => CharacterJson(c)
    case EpisodeRecord(e) => EpisodeJson(e)
    case SubjectRelationRecord(s) => SubjectRelationJson(s)
    case SubjectPersonRecord(s) => SubjectPersonJson(s)
    case SubjectCharacterRecord(s) => SubjectCharacterJson(s)
    case PersonCharacterRecord(p) => PersonCharacterJson(p)
  }
}
