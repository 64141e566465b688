/** What the record validators promise: every well-formed record is accepted
    from its canonical JSON object and decoded back unchanged; validation
    reads only the members the class declares, so any other member is
    ignored; a defaulted field may be left out and takes its default. */
module RecordFacts {
  import opened Base
  import opened JsonValues
  import opened Fields
  import opened Domains
  import opened Records

  /** `o` and `o'` hold the same members, with the same values, on `ks`. */
  ghost predicate Agree(o: Object, o': Object, ks: set<string>)
  {
    forall k :: k in ks ==> (k in o <==> k in o') && (k in o ==> o[k] == o'[k])
  }

  // ------------------------------------------------------------ lists and buckets

  lemma {:induction false} StrItemsRoundTrip(ss: seq<string>, at: nat)
    ensures StrItems(StrListJson(ss), at) == Ok(ss)
    decreases |ss|
  {
    if |ss| > 0 {
      var items := StrListJson(ss);
      assert items[1..] == StrListJson(ss[1..]);
      StrItemsRoundTrip(ss[1..], at + 1);
      assert [ss[0]] + ss[1..] == ss;
    }
  }

  lemma {:induction false} TagItemsRoundTrip(ts: seq<Tag>, at: nat)
    ensures TagItems(TagsJson(ts), at) == Ok(ts)
    decreases |ts|
  {
    if |ts| > 0 {
      var items := TagsJson(ts);
      assert items[1..] == TagsJson(ts[1..]);
      assert ValidateTag(TagJson(ts[0])) == Ok(ts[0]);
      TagItemsRoundTrip(ts[1..], at + 1);
      assert [ts[0]] + ts[1..] == ts;
    }
  }

  /** Buckets are read back as `vals` when each key either holds its value
      as an integer or is absent and its value is 0. */
  lemma {:induction false} BucketValuesRead(o: Object, keys: seq<string>, vals: seq<int>)
    requires |vals| == |keys|
    requires forall i :: 0 <= i < |keys| && keys[i] in o ==> o[keys[i]] == JInt(vals[i])
    requires forall i :: 0 <= i < |keys| && keys[i] !in o ==> vals[i] == 0
    ensures BucketValues(o, keys) == Ok(vals)
    decreases |keys|
  {
    if |keys| > 0 {
      BucketValuesRead(o, keys[1..], vals[1..]);
      assert [vals[0]] + vals[1..] == vals;
    }
  }

  /** Each bucket of a score histogram is read back from its key "1".."10". */
  lemma ScoreDetailsRoundTrip(d: ScoreDetails)
    requires |d.buckets| == 10
    ensures ValidateScoreDetails(ScoreDetailsJson(d)) == Ok(d)
  {
    var o := ScoreDetailsJson(d);
    forall i | 0 <= i < 10
      ensures BucketKeys[i] in o && o[BucketKeys[i]] == JInt(d.buckets[i])
    {
    }
    BucketValuesRead(o, BucketKeys, d.buckets);
  }

  /** A histogram object with none of the bucket keys reads as ten zeros,
      whatever other members it has. */
  lemma EmptyScoreDetails(o: Object)
    requires forall i :: 0 <= i < |BucketKeys| ==> BucketKeys[i] !in o
    ensures ValidateScoreDetails(o) == Ok(ScoreDetails([0, 0, 0, 0, 0, 0, 0, 0, 0, 0]))
  {
    BucketValuesRead(o, BucketKeys, [0, 0, 0, 0, 0, 0, 0, 0, 0, 0]);
  }

  // ------------------------------------------------------------------ Subject

  // Where each field sits in a subject's canonical JSON, four members at a
  // time: a lookup in a literal object compares the key with every member
  // added after it, so the facts are established once here.

  lemma SubjectJsonIdAndType(s: Subject)
    ensures "id" in SubjectJson(s) && SubjectJson(s)["id"] == JInt(s.id)
    ensures "type" in SubjectJson(s) && SubjectJson(s)["type"] == JInt(s.subjectType)
  {
  }

  lemma SubjectJsonNames(s: Subject)
    ensures "name" in SubjectJson(s) && SubjectJson(s)["name"] == JString(s.name)
    ensures "name_cn" in SubjectJson(s) && SubjectJson(s)["name_cn"] == JString(s.nameCn)
  {
  }

  lemma SubjectJsonInfoboxToNsfw(s: Subject)
    ensures "infobox" in SubjectJson(s) && SubjectJson(s)["infobox"] == JString(s.infobox)
    ensures "platform" in SubjectJson(s) && SubjectJson(s)["platform"] == JInt(s.platform)
    ensures "summary" in SubjectJson(s) && SubjectJson(s)["summary"] == JString(s.summary)
    ensures "nsfw" in SubjectJson(s) && SubjectJson(s)["nsfw"] == JBool(s.nsfw)
  {
  }

  lemma SubjectJsonTagsToRank(s: Subject)
    ensures "tags" in SubjectJson(s) && SubjectJson(s)["tags"] == JArray(TagsJson(s.tags))
    ensures "score" in SubjectJson(s) && SubjectJson(s)["score"] == NumberJson(s.score)
    ensures "score_details" in SubjectJson(s)
    ensures SubjectJson(s)["score_details"] == OptionalScoreDetailsJson(s.scoreDetails)
    ensures "rank" in SubjectJson(s) && SubjectJson(s)["rank"] == JInt(s.rank)
  {
  }

  lemma SubjectJsonDateToMetaTags(s: Subject)
    ensures "date" in SubjectJson(s) && SubjectJson(s)["date"] == JString(s.date)
    ensures "favorite" in SubjectJson(s) && SubjectJson(s)["favorite"] == JObject(FavoriteJson(s.favorite))
    ensures "series" in SubjectJson(s) && SubjectJson(s)["series"] == JBool(s.series)
    ensures "meta_tags" in SubjectJson(s) && SubjectJson(s)["meta_tags"] == OptionalStrJson(s.metaTags)
  {
  }

  lemma SubjectRequiredIdToNameCn(o: Object, s: Subject)
    requires ValidSubjectType(s.subjectType)
    requires Agree(o, SubjectJson(s), RequiredFields(SubjectKind))
    ensures IntField(o, "id") == Ok(s.id)
    ensures EnumField(o, "type", ValidSubjectType) == Ok(s.subjectType)
    ensures StrField(o, "name") == Ok(s.name)
    ensures StrField(o, "name_cn") == Ok(s.nameCn)
  {
    SubjectJsonIdAndType(s);
    SubjectJsonNames(s);
    assert "id" in RequiredFields(SubjectKind) && "type" in RequiredFields(SubjectKind);
    assert "name" in RequiredFields(SubjectKind) && "name_cn" in RequiredFields(SubjectKind);
  }

  lemma SubjectRequiredInfoboxToNsfw(o: Object, s: Subject)
    requires Agree(o, SubjectJson(s), RequiredFields(SubjectKind))
    ensures StrField(o, "infobox") == Ok(s.infobox)
    ensures IntField(o, "platform") == Ok(s.platform)
    ensures StrField(o, "summary") == Ok(s.summary)
    ensures BoolField(o, "nsfw") == Ok(s.nsfw)
  {
    SubjectJsonInfoboxToNsfw(s);
    assert "infobox" in RequiredFields(SubjectKind) && "platform" in RequiredFields(SubjectKind);
    assert "summary" in RequiredFields(SubjectKind) && "nsfw" in RequiredFields(SubjectKind);
  }

  lemma SubjectRequiredScoreAndRank(o: Object, s: Subject)
    requires Agree(o, SubjectJson(s), RequiredFields(SubjectKind))
    ensures NumberField(o, "score") == Ok(s.score)
    ensures IntField(o, "rank") == Ok(s.rank)
  {
    SubjectJsonTagsToRank(s);
    assert "score" in RequiredFields(SubjectKind) && "rank" in RequiredFields(SubjectKind);
  }

  lemma SubjectRequiredDateToSeries(o: Object, s: Subject)
    requires Agree(o, SubjectJson(s), RequiredFields(SubjectKind))
    ensures StrField(o, "date") == Ok(s.date)
    ensures ObjectField(o, "favorite", ValidateFavorite) == Ok(s.favorite)
    ensures BoolField(o, "series") == Ok(s.series)
  {
    SubjectJsonDateToMetaTags(s);
    assert "date" in RequiredFields(SubjectKind) && "favorite" in RequiredFields(SubjectKind);
    assert "series" in RequiredFields(SubjectKind);
    assert ValidateFavorite(FavoriteJson(s.favorite)) == Ok(s.favorite);
  }

  /** A subject is decoded from any object that agrees with a subject's
      canonical JSON on the required members: the required fields are
      taken from `s` and the defaulted ones are whatever the object holds. */
  lemma SubjectAccepted(o: Object, s: Subject, tags: seq<Tag>, details: Option<ScoreDetails>,
                        metaTags: Option<string>)
    requires ValidSubjectType(s.subjectType)
    requires Agree(o, SubjectJson(s), RequiredFields(SubjectKind))
    requires TagsField(o, "tags") == Ok(tags)
    requires ScoreDetailsField(o, "score_details") == Ok(details)
    requires OptionalStrField(o, "meta_tags") == Ok(metaTags)
    ensures ValidateSubject(o) == Ok(s.(tags := tags, scoreDetails := details, metaTags := metaTags))
  {
    SubjectRequiredIdToNameCn(o, s);
    SubjectRequiredInfoboxToNsfw(o, s);
    SubjectRequiredScoreAndRank(o, s);
    SubjectRequiredDateToSeries(o, s);
  }

  /** The defaulted members of a subject's canonical JSON read back as the
      subject's own values. */
  lemma SubjectTagsRead(s: Subject)
    ensures TagsField(SubjectJson(s), "tags") == Ok(s.tags)
  {
    SubjectJsonTagsToRank(s);
    TagItemsRoundTrip(s.tags, 0);
  }

  lemma SubjectScoreDetailsRead(s: Subject)
    requires WellFormedSubject(s)
    ensures ScoreDetailsField(SubjectJson(s), "score_details") == Ok(s.scoreDetails)
  {
    SubjectJsonTagsToRank(s);
    if s.scoreDetails.Some? {
      ScoreDetailsRoundTrip(s.scoreDetails.value);
    }
  }

  lemma SubjectMetaTagsRead(s: Subject)
    ensures OptionalStrField(SubjectJson(s), "meta_tags") == Ok(s.metaTags)
  {
    SubjectJsonDateToMetaTags(s);
  }

  lemma SubjectDefaultedRead(s: Subject)
    requires WellFormedSubject(s)
    ensures TagsField(SubjectJson(s), "tags") == Ok(s.tags)
    ensures ScoreDetailsField(SubjectJson(s), "score_details") == Ok(s.scoreDetails)
    ensures OptionalStrField(SubjectJson(s), "meta_tags") == Ok(s.metaTags)
  {
    SubjectTagsRead(s);
    SubjectScoreDetailsRead(s);
    SubjectMetaTagsRead(s);
  }

  lemma SubjectRoundTrip(s: Subject)
    requires WellFormedSubject(s)
    ensures ValidateSubject(SubjectJson(s)) == Ok(s)
  {
    SubjectDefaultedRead(s);
    SubjectAccepted(SubjectJson(s), s, s.tags, s.scoreDetails, s.metaTags);
  }

  lemma AgreeWithout(o: Object, name: string, ks: set<string>)
    requires name !in ks
    ensures Agree(o - {name}, o, ks)
  {
  }

  /** The defaulted subject fields read the same from two objects holding
      the same member `k`. */
  lemma SameMemberReadsAlike(o: Object, o': Object, k: string)
    requires k in o <==> k in o'
    requires k in o ==> o[k] == o'[k]
    ensures TagsField(o, k) == TagsField(o', k)
    ensures ScoreDetailsField(o, k) == ScoreDetailsField(o', k)
    ensures OptionalStrField(o, k) == OptionalStrField(o', k)
  {
  }

  /** `tags` defaults to the empty list. */
  lemma SubjectTagsDefault(s: Subject)
    requires WellFormedSubject(s)
    ensures ValidateSubject(SubjectJson(s) - {"tags"}) == Ok(s.(tags := []))
  {
    var j := SubjectJson(s);
    var o := j - {"tags"};
    AgreeWithout(j, "tags", RequiredFields(SubjectKind));
    SubjectDefaultedRead(s);
    SameMemberReadsAlike(o, j, "score_details");
    SameMemberReadsAlike(o, j, "meta_tags");
    SubjectAccepted(o, s, [], s.scoreDetails, s.metaTags);
  }

  /** `score_details` defaults to `None`. */
  lemma SubjectScoreDetailsDefault(s: Subject)
    requires WellFormedSubject(s)
    ensures ValidateSubject(SubjectJson(s) - {"score_details"}) == Ok(s.(scoreDetails := None))
  {
    var j := SubjectJson(s);
    var o := j - {"score_details"};
    AgreeWithout(j, "score_details", RequiredFields(SubjectKind));
    SubjectDefaultedRead(s);
    SameMemberReadsAlike(o, j, "tags");
    SameMemberReadsAlike(o, j, "meta_tags");
    SubjectAccepted(o, s, s.tags, None, s.metaTags);
  }

  /** `meta_tags` defaults to `None`. */
  lemma SubjectMetaTagsDefault(s: Subject)
    requires WellFormedSubject(s)
    ensures ValidateSubject(SubjectJson(s) - {"meta_tags"}) == Ok(s.(metaTags := None))
  {
    var j := SubjectJson(s);
    var o := j - {"meta_tags"};
    AgreeWithout(j, "meta_tags", RequiredFields(SubjectKind));
    SubjectDefaultedRead(s);
    SameMemberReadsAlike(o, j, "tags");
    SameMemberReadsAlike(o, j, "score_details");
    SubjectAccepted(o, s, s.tags, s.scoreDetails, None);
  }

  lemma SubjectDeclaredIdToNsfw(o: Object, o': Object)
    requires Agree(o, o', DeclaredFields(SubjectKind))
    ensures IntField(o, "id") == IntField(o', "id")
    ensures EnumField(o, "type", ValidSubjectType) == EnumField(o', "type", ValidSubjectType)
    ensures StrField(o, "name") == StrField(o', "name")
    ensures StrField(o, "name_cn") == StrField(o', "name_cn")
    ensures StrField(o, "infobox") == StrField(o', "infobox")
    ensures IntField(o, "platform") == IntField(o', "platform")
    ensures StrField(o, "summary") == StrField(o', "summary")
    ensures BoolField(o, "nsfw") == BoolField(o', "nsfw")
  {
    assert "id" in DeclaredFields(SubjectKind) && "type" in DeclaredFields(SubjectKind);
    assert "name" in DeclaredFields(SubjectKind) && "name_cn" in DeclaredFields(SubjectKind);
    assert "infobox" in DeclaredFields(SubjectKind) && "platform" in DeclaredFields(SubjectKind);
    assert "summary" in DeclaredFields(SubjectKind) && "nsfw" in DeclaredFields(SubjectKind);
  }

  lemma SubjectDeclaredTagsToMetaTags(o: Object, o': Object)
    requires Agree(o, o', DeclaredFields(SubjectKind))
    ensures TagsField(o, "tags") == TagsField(o', "tags")
    ensures NumberField(o, "score") == NumberField(o', "score")
    ensures ScoreDetailsField(o, "score_details") == ScoreDetailsField(o', "score_details")
    ensures IntField(o, "rank") == IntField(o', "rank")
    ensures StrField(o, "date") == StrField(o', "date")
    ensures ObjectField(o, "favorite", ValidateFavorite) == ObjectField(o', "favorite", ValidateFavorite)
    ensures BoolField(o, "series") == BoolField(o', "series")
    ensures OptionalStrField(o, "meta_tags") == OptionalStrField(o', "meta_tags")
  {
    assert "tags" in DeclaredFields(SubjectKind) && "score" in DeclaredFields(SubjectKind);
    assert "score_details" in DeclaredFields(SubjectKind) && "rank" in DeclaredFields(SubjectKind);
    assert "date" in DeclaredFields(SubjectKind) && "favorite" in DeclaredFields(SubjectKind);
    assert "series" in DeclaredFields(SubjectKind) && "meta_tags" in DeclaredFields(SubjectKind);
  }

  // ------------------------------------------------------------------- Person

  lemma PersonJsonIdToCareer(p: Person)
    ensures "id" in PersonJson(p) && PersonJson(p)["id"] == JInt(p.id)
    ensures "name" in PersonJson(p) && PersonJson(p)["name"] == JString(p.name)
    ensures "type" in PersonJson(p) && PersonJson(p)["type"] == JInt(p.personType)
    ensures "career" in PersonJson(p) && PersonJson(p)["career"] == JArray(StrListJson(p.career))
  {
  }

  lemma PersonJsonInfoboxToCollects(p: Person)
    ensures "infobox" in PersonJson(p) && PersonJson(p)["infobox"] == JString(p.infobox)
    ensures "summary" in PersonJson(p) && PersonJson(p)["summary"] == JString(p.summary)
    ensures "comments" in PersonJson(p) && PersonJson(p)["comments"] == JInt(p.comments)
    ensures "collects" in PersonJson(p) && PersonJson(p)["collects"] == JInt(p.collects)
  {
  }

  /** A person's required fields are read from any object agreeing with its
      canonical JSON on them. */
  lemma PersonRequired(o: Object, p: Person)
    requires WellFormedPerson(p)
    requires Agree(o, PersonJson(p), RequiredFields(PersonKind))
    ensures IntField(o, "id") == Ok(p.id)
    ensures StrField(o, "name") == Ok(p.name)
    ensures EnumField(o, "type", ValidPersonType) == Ok(p.personType)
    ensures StrField(o, "infobox") == Ok(p.infobox)
    ensures StrField(o, "summary") == Ok(p.summary)
    ensures IntField(o, "comments") == Ok(p.comments)
    ensures IntField(o, "collects") == Ok(p.collects)
  {
    PersonJsonIdToCareer(p);
    PersonJsonInfoboxToCollects(p);
    var ks := RequiredFields(PersonKind);
    assert "id" in ks && "name" in ks && "type" in ks && "infobox" in ks;
    assert "summary" in ks && "comments" in ks && "collects" in ks;
  }

  lemma PersonRoundTrip(p: Person)
    requires WellFormedPerson(p)
    ensures ValidatePerson(PersonJson(p)) == Ok(p)
  {
    PersonRequired(PersonJson(p), p);
    PersonJsonIdToCareer(p);
    StrItemsRoundTrip(p.career, 0);
  }

  /** `career` defaults to the empty list. */
  lemma PersonDefaults(p: Person)
    requires WellFormedPerson(p)
    ensures ValidatePerson(PersonJson(p) - {"career"}) == Ok(p.(career := []))
  {
    var o := PersonJson(p) - {"career"};
    AgreeWithout(PersonJson(p), "career", RequiredFields(PersonKind));
    PersonRequired(o, p);
  }

  // ---------------------------------------------------------------- Character

  lemma CharacterJsonIdToName(c: Character)
    ensures "id" in CharacterJson(c) && CharacterJson(c)["id"] == JInt(c.id)
    ensures "role" in CharacterJson(c) && CharacterJson(c)["role"] == JInt(c.role)
    ensures "name" in CharacterJson(c) && CharacterJson(c)["name"] == JString(c.name)
  {
  }

  lemma CharacterJsonInfoboxToCollects(c: Character)
    ensures "infobox" in CharacterJson(c) && CharacterJson(c)["infobox"] == JString(c.infobox)
    ensures "summary" in CharacterJson(c) && CharacterJson(c)["summary"] == JString(c.summary)
    ensures "comments" in CharacterJson(c) && CharacterJson(c)["comments"] == JInt(c.comments)
    ensures "collects" in CharacterJson(c) && CharacterJson(c)["collects"] == JInt(c.collects)
  {
  }

  lemma CharacterRoundTrip(c: Character)
    requires WellFormedCharacter(c)
    ensures ValidateCharacter(CharacterJson(c)) == Ok(c)
  {
    CharacterJsonIdToName(c);
    CharacterJsonInfoboxToCollects(c);
  }

  // ------------------------------------------------------------------ Episode

  lemma EpisodeJsonIdToNameCn(e: Episode)
    ensures "id" in EpisodeJson(e) && EpisodeJson(e)["id"] == JInt(e.id)
    ensures "name" in EpisodeJson(e) && EpisodeJson(e)["name"] == JString(e.name)
    ensures "name_cn" in EpisodeJson(e) && EpisodeJson(e)["name_cn"] == JString(e.nameCn)
  {
  }

  lemma EpisodeJsonDescriptionToDisc(e: Episode)
    ensures "description" in EpisodeJson(e) && EpisodeJson(e)["description"] == JString(e.description)
    ensures "airdate" in EpisodeJson(e) && EpisodeJson(e)["airdate"] == JString(e.airdate)
    ensures "disc" in EpisodeJson(e) && EpisodeJson(e)["disc"] == JInt(e.disc)
  {
  }

  lemma EpisodeJsonDurationToType(e: Episode)
    ensures "duration" in EpisodeJson(e) && EpisodeJson(e)["duration"] == JString(e.duration)
    ensures "subject_id" in EpisodeJson(e) && EpisodeJson(e)["subject_id"] == JInt(e.subjectId)
    ensures "sort" in EpisodeJson(e) && EpisodeJson(e)["sort"] == NumberJson(e.sort)
    ensures "type" in EpisodeJson(e) && EpisodeJson(e)["type"] == JInt(e.episodeType)
  {
  }

  /** The fields before `type` are read from any object agreeing with the
      episode's canonical JSON on them. */
  lemma EpisodeLeadingFields(o: Object, e: Episode)
    requires Agree(o, EpisodeJson(e), DeclaredFields(EpisodeKind) - {"type"})
    ensures IntField(o, "id") == Ok(e.id)
    ensures StrField(o, "name") == Ok(e.name)
    ensures StrField(o, "name_cn") == Ok(e.nameCn)
    ensures StrField(o, "description") == Ok(e.description)
    ensures StrField(o, "airdate") == Ok(e.airdate)
    ensures IntField(o, "disc") == Ok(e.disc)
    ensures StrField(o, "duration") == Ok(e.duration)
    ensures IntField(o, "subject_id") == Ok(e.subjectId)
    ensures NumberField(o, "sort") == Ok(e.sort)
  {
    EpisodeJsonIdToNameCn(e);
    EpisodeJsonDescriptionToDisc(e);
    EpisodeJsonDurationToType(e);
    var ks := DeclaredFields(EpisodeKind) - {"type"};
    assert "id" in ks && "name" in ks && "name_cn" in ks;
    assert "description" in ks && "airdate" in ks && "disc" in ks;
    assert "duration" in ks && "subject_id" in ks && "sort" in ks;
  }

  lemma AgreeUpdate(o: Object, name: string, v: Json, ks: set<string>)
    requires name !in ks
    ensures Agree(o[name := v], o, ks)
  {
  }

  lemma EpisodeRoundTrip(e: Episode)
    requires WellFormedEpisode(e)
    ensures ValidateEpisode(EpisodeJson(e)) == Ok(e)
  {
    EpisodeLeadingFields(EpisodeJson(e), e);
    EpisodeJsonDurationToType(e);
  }

  /** An episode whose `type` is 999 is rejected as a non-member code, even
      when every other field is valid. */
  lemma EpisodeTypeOutsideDomain(e: Episode)
    ensures ValidateEpisode(EpisodeJson(e)["type" := JInt(999)]) == Err(NotMember([Key("type")], 999))
  {
    var o := EpisodeJson(e)["type" := JInt(999)];
    AgreeUpdate(EpisodeJson(e), "type", JInt(999), DeclaredFields(EpisodeKind) - {"type"});
    EpisodeLeadingFields(o, e);
    assert !ValidEpisodeType(999);
  }

  // --------------------------------------------------------------- all kinds

  /** Every well-formed record is accepted from its canonical JSON object
      and decoded back to itself. */
  lemma RoundTrip(r: Record)
    requires WellFormed(r)
    ensures Validate(KindOf(r), ToJson(r)) == Ok(r)
  {
    match r
    case SubjectRecord(s) => SubjectRoundTrip(s); SubjectWraps(SubjectJson(s));
    case PersonRecord(p) => PersonRoundTrip(p); PersonWraps(PersonJson(p));
    case CharacterRecord(c) => CharacterRoundTrip(c); CharacterWraps(CharacterJson(c));
    case EpisodeRecord(e) => EpisodeRoundTrip(e); EpisodeWraps(EpisodeJson(e));
    case SubjectRelationRecord(x) => SubjectRelationRoundTrip(x); SubjectRelationWraps(SubjectRelationJson(x));
    case SubjectPersonRecord(x) => SubjectPersonRoundTrip(x); SubjectPersonWraps(SubjectPersonJson(x));
    case SubjectCharacterRecord(x) => SubjectCharacterRoundTrip(x); SubjectCharacterWraps(SubjectCharacterJson(x));
    case PersonCharacterRecord(x) => PersonCharacterRoundTrip(x); PersonCharacterWraps(PersonCharacterJson(x));
  }

  lemma SubjectRelationRoundTrip(x: SubjectRelation)
    requires WellFormedSubjectRelation(x)
    ensures ValidateSubjectRelation(SubjectRelationJson(x)) == Ok(x)
  {
  }

  lemma SubjectPersonRoundTrip(x: SubjectPerson)
    ensures ValidateSubjectPerson(SubjectPersonJson(x)) == Ok(x)
  {
  }

  lemma SubjectCharacterRoundTrip(x: SubjectCharacter)
    requires WellFormedSubjectCharacter(x)
    ensures ValidateSubjectCharacter(SubjectCharacterJson(x)) == Ok(x)
  {
  }

  lemma PersonCharacterRoundTrip(x: PersonCharacter)
    ensures ValidatePersonCharacter(PersonCharacterJson(x)) == Ok(x)
  {
  }


  /** The canonical JSON object of a record carries exactly the members its
      class declares. */
  lemma JsonDeclaresFields(r: Record)
    ensures ToJson(r).Keys == DeclaredFields(KindOf(r))
  {
  }

  /** Validation reads only the declared members: two objects that agree on
      them are validated alike. */
  lemma ReadsOnlyDeclared(k: Kind, o: Object, o': Object)
    requires Agree(o, o', DeclaredFields(k))
    ensures Validate(k, o) == Validate(k, o')
  {
    match k
    case SubjectKind =>
      SubjectDeclaredIdToNsfw(o, o');
      SubjectDeclaredTagsToMetaTags(o, o');
    case PersonKind => PersonDeclared(o, o');
    case CharacterKind => CharacterDeclared(o, o');
    case EpisodeKind => EpisodeDeclared(o, o');
    case SubjectRelationKind => SubjectRelationDeclared(o, o');
    case SubjectPersonKind => SubjectPersonDeclared(o, o');
    case SubjectCharacterKind => SubjectCharacterDeclared(o, o');
    case PersonCharacterKind => PersonCharacterDeclared(o, o');
  }

  lemma PersonDeclared(o: Object, o': Object)
    requires Agree(o, o', DeclaredFields(PersonKind))
    ensures ValidatePerson(o) == ValidatePerson(o')
  {
    var ks := DeclaredFields(PersonKind);
    assert "id" in ks && "name" in ks && "type" in ks && "career" in ks;
    assert "infobox" in ks && "summary" in ks && "comments" in ks && "collects" in ks;
  }

  lemma CharacterDeclared(o: Object, o': Object)
    requires Agree(o, o', DeclaredFields(CharacterKind))
    ensures ValidateCharacter(o) == ValidateCharacter(o')
  {
    var ks := DeclaredFields(CharacterKind);
    assert "id" in ks && "role" in ks && "name" in ks && "infobox" in ks;
    assert "summary" in ks && "comments" in ks && "collects" in ks;
  }

  lemma EpisodeDeclared(o: Object, o': Object)
    requires Agree(o, o', DeclaredFields(EpisodeKind))
    ensures ValidateEpisode(o) == ValidateEpisode(o')
  {
    var ks := DeclaredFields(EpisodeKind);
    assert "id" in ks && "name" in ks && "name_cn" in ks && "description" in ks;
    assert "airdate" in ks && "disc" in ks && "duration" in ks;
    assert "subject_id" in ks && "sort" in ks && "type" in ks;
  }

  lemma SubjectRelationDeclared(o: Object, o': Object)
    requires Agree(o, o', DeclaredFields(SubjectRelationKind))
    ensures ValidateSubjectRelation(o) == ValidateSubjectRelation(o')
  {
    var ks := DeclaredFields(SubjectRelationKind);
    assert "subject_id" in ks && "relation_type" in ks;
    assert "related_subject_id" in ks && "order" in ks;
  }

  lemma SubjectPersonDeclared(o: Object, o': Object)
    requires Agree(o, o', DeclaredFields(SubjectPersonKind))
    ensures ValidateSubjectPerson(o) == ValidateSubjectPerson(o')
  {
    var ks := DeclaredFields(SubjectPersonKind);
    assert "person_id" in ks && "subject_id" in ks && "position" in ks;
  }

  lemma SubjectCharacterDeclared(o: Object, o': Object)
    requires Agree(o, o', DeclaredFields(SubjectCharacterKind))
    ensures ValidateSubjectCharacter(o) == ValidateSubjectCharacter(o')
  {
    var ks := DeclaredFields(SubjectCharacterKind);
    assert "character_id" in ks && "subject_id" in ks && "type" in ks && "order" in ks;
  }

  lemma PersonCharacterDeclared(o: Object, o': Object)
    requires Agree(o, o', DeclaredFields(PersonCharacterKind))
    ensures ValidatePersonCharacter(o) == ValidatePersonCharacter(o')
  {
    var ks := DeclaredFields(PersonCharacterKind);
    assert "person_id" in ks && "subject_id" in ks && "character_id" in ks && "summary" in ks;
  }

  /** A member the class does not declare never changes the outcome:
      unknown members are ignored, not rejected. */
  lemma UnknownFieldsIgnored(k: Kind, o: Object, name: string, v: Json)
    requires name !in DeclaredFields(k)
    ensures Validate(k, o[name := v]) == Validate(k, o)
  {
    ReadsOnlyDeclared(k, o[name := v], o);
  }

  /** A validator accepts exactly the objects that describe a well-formed
      record of its kind, and the record it returns is the one described:
      with the validators' own contracts this is an if-and-only-if. */
  lemma ValidateExactly(k: Kind, o: Object, r: Record)
    ensures Validate(k, o) == Ok(r) <==> KindOf(r) == k && WellFormed(r) && Describes(o, r)
  {
    if KindOf(r) == k && WellFormed(r) && Describes(o, r) {
      Described(o, r);
    }
  }

  /** An object describing a well-formed record is accepted as that record. */
  lemma Described(o: Object, r: Record)
    requires WellFormed(r) && Describes(o, r)
    ensures Validate(KindOf(r), o) == Ok(r)
  {
    match r
    case SubjectRecord(s) => SubjectDescribed(o, s); SubjectWraps(o);
    case PersonRecord(p) => PersonDescribed(o, p); PersonWraps(o);
    case CharacterRecord(c) => CharacterDescribed(o, c); CharacterWraps(o);
    case EpisodeRecord(e) => EpisodeDescribed(o, e); EpisodeWraps(o);
    case SubjectRelationRecord(x) => SubjectRelationDescribed(o, x); SubjectRelationWraps(o);
    case SubjectPersonRecord(x) => SubjectPersonDescribed(o, x); SubjectPersonWraps(o);
    case SubjectCharacterRecord(x) => SubjectCharacterDescribed(o, x); SubjectCharacterWraps(o);
    case PersonCharacterRecord(x) => PersonCharacterDescribed(o, x); PersonCharacterWraps(o);
  }

  // Validating as a kind is validating with that kind's own validator and
  // wrapping the record, one object at a time.

  lemma SubjectWraps(o: Object)
    ensures Validate(SubjectKind, o) == ValidateSubject(o).MapValue(s => SubjectRecord(s))
  {
  }

  lemma PersonWraps(o: Object)
    ensures Validate(PersonKind, o) == ValidatePerson(o).MapValue(p => PersonRecord(p))
  {
  }

  lemma CharacterWraps(o: Object)
    ensures Validate(CharacterKind, o) == ValidateCharacter(o).MapValue(c => CharacterRecord(c))
  {
  }

  lemma EpisodeWraps(o: Object)
    ensures Validate(EpisodeKind, o) == ValidateEpisode(o).MapValue(e => EpisodeRecord(e))
  {
  }

  lemma SubjectRelationWraps(o: Object)
    ensures Validate(SubjectRelationKind, o) == ValidateSubjectRelation(o).MapValue(s => SubjectRelationRecord(s))
  {
  }

  lemma SubjectPersonWraps(o: Object)
    ensures Validate(SubjectPersonKind, o) == ValidateSubjectPerson(o).MapValue(s => SubjectPersonRecord(s))
  {
  }

  lemma SubjectCharacterWraps(o: Object)
    ensures Validate(SubjectCharacterKind, o) == ValidateSubjectCharacter(o).MapValue(s => SubjectCharacterRecord(s))
  {
  }

  lemma PersonCharacterWraps(o: Object)
    ensures Validate(PersonCharacterKind, o) == ValidatePersonCharacter(o).MapValue(p => PersonCharacterRecord(p))
  {
  }

  lemma SubjectDescribed(o: Object, s: Subject)
    requires WellFormedSubject(s) && DescribesSubject(o, s)
    ensures ValidateSubject(o) == Ok(s)
  {
    SubjectDescribedIdToNsfw(o, s);
    SubjectDescribedTagsToMetaTags(o, s);
  }

  lemma SubjectDescribedIdToNsfw(o: Object, s: Subject)
    requires WellFormedSubject(s) && DescribesSubject(o, s)
    ensures IntField(o, "id") == Ok(s.id)
    ensures EnumField(o, "type", ValidSubjectType) == Ok(s.subjectType)
    ensures StrField(o, "name") == Ok(s.name)
    ensures StrField(o, "name_cn") == Ok(s.nameCn)
    ensures StrField(o, "infobox") == Ok(s.infobox)
    ensures IntField(o, "platform") == Ok(s.platform)
    ensures StrField(o, "summary") == Ok(s.summary)
    ensures BoolField(o, "nsfw") == Ok(s.nsfw)
  {
  }

  lemma SubjectDescribedTagsToMetaTags(o: Object, s: Subject)
    requires WellFormedSubject(s) && DescribesSubject(o, s)
    ensures NumberField(o, "score") == Ok(s.score)
    ensures IntField(o, "rank") == Ok(s.rank)
    ensures StrField(o, "date") == Ok(s.date)
    ensures BoolField(o, "series") == Ok(s.series)
    ensures OptionalStrField(o, "meta_tags") == Ok(s.metaTags)
  {
  }

  lemma PersonDescribed(o: Object, p: Person)
    requires WellFormedPerson(p) && DescribesPerson(o, p)
    ensures ValidatePerson(o) == Ok(p)
  {
    StrItemsRoundTrip(p.career, 0);
  }

  lemma CharacterDescribed(o: Object, c: Character)
    requires WellFormedCharacter(c) && DescribesCharacter(o, c)
    ensures ValidateCharacter(o) == Ok(c)
  {
  }

  lemma EpisodeDescribed(o: Object, e: Episode)
    requires WellFormedEpisode(e) && DescribesEpisode(o, e)
    ensures ValidateEpisode(o) == Ok(e)
  {
  }

  lemma SubjectRelationDescribed(o: Object, x: SubjectRelation)
    requires WellFormedSubjectRelation(x) && DescribesSubjectRelation(o, x)
    ensures ValidateSubjectRelation(o) == Ok(x)
  {
  }

  lemma SubjectPersonDescribed(o: Object, x: SubjectPerson)
    requires DescribesSubjectPerson(o, x)
    ensures ValidateSubjectPerson(o) == Ok(x)
  {
  }

  lemma SubjectCharacterDescribed(o: Object, x: SubjectCharacter)
    requires WellFormedSubjectCharacter(x) && DescribesSubjectCharacter(o, x)
    ensures ValidateSubjectCharacter(o) == Ok(x)
  {
  }

  lemma PersonCharacterDescribed(o: Object, x: PersonCharacter)
    requires DescribesPersonCharacter(o, x)
    ensures ValidatePersonCharacter(o) == Ok(x)
  {
  }

  /** Only `Subject` and `Person` declare defaulted fields; every other
      declared field is required, and an object lacking one is rejected. */
  lemma RequiredFieldsAreRequired(k: Kind, o: Object, name: string)
    requires name in DeclaredFields(k) && name !in DefaultedFields(k)
    requires name !in o
    ensures Validate(k, o).Err?
    ensures k !in {SubjectKind, PersonKind} ==> RequiredFields(k) == DeclaredFields(k)
  {
  }
}
