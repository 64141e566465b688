/** The six closed integer-coded enumerations of the Bangumi wiki dump.
    Each Python `IntEnum` becomes a datatype of labels, a code function, and
    the reverse lookup that pydantic performs when it validates a JSON
    integer against the enum: a code is accepted exactly when some member
    carries it. */
module Domains {
  import opened Base

  // ---------------------------------------------------------------- SubjectType

  datatype SubjectType = Book | Anime | Music | Game | Real

  function SubjectTypeCode(t: SubjectType): int
  {
    match t
    case Book => 1
    case Anime => 2
    case Music => 3
    case Game => 4
    case Real => 6
  }

  /** `SubjectType(c)`: the member with code `c`, if there is one. */
  function SubjectTypeOf(c: int): (r: Option<SubjectType>)
    ensures r.Some? ==> SubjectTypeCode(r.value) == c
    ensures r.None? ==> forall t :: SubjectTypeCode(t) != c
  {
    if c == 1 then Some(Book)
    else if c == 2 then Some(Anime)
    else if c == 3 then Some(Music)
    else if c == 4 then Some(Game)
    else if c == 6 then Some(Real)
    else None
  }

  predicate ValidSubjectType(c: int)
  {
    SubjectTypeOf(c).Some?
  }

  lemma SubjectTypeDomain(c: int)
    ensures ValidSubjectType(c) <==> c in {1, 2, 3, 4, 6}
    ensures !ValidSubjectType(5)
  {
  }

  lemma SubjectTypeRoundTrip(t: SubjectType)
    ensures SubjectTypeOf(SubjectTypeCode(t)) == Some(t)
  {
  }

  // ----------------------------------------------------------------- PersonType

  /** `Unknown` is the code-0 member the Python enum keeps as `_UNKNOWN`. */
  datatype PersonType = Unknown | Individual | Company | Association

  function PersonTypeCode(t: PersonType): int
  {
    match t
    case Unknown => 0
    case Individual => 1
    case Company => 2
    case Association => 3
  }

  function PersonTypeOf(c: int): (r: Option<PersonType>)
    ensures r.Some? ==> PersonTypeCode(r.value) == c
    ensures r.None? ==> forall t :: PersonTypeCode(t) != c
  {
    if c == 0 then Some(PersonType.Unknown)
    else if c == 1 then Some(Individual)
    else if c == 2 then Some(Company)
    else if c == 3 then Some(Association)
    else None
  }

  predicate ValidPersonType(c: int)
  {
    PersonTypeOf(c).Some?
  }

  lemma PersonTypeDomain(c: int)
    ensures ValidPersonType(c) <==> 0 <= c <= 3
  {
  }

  lemma PersonTypeRoundTrip(t: PersonType)
    ensures PersonTypeOf(PersonTypeCode(t)) == Some(t)
  {
  }

  // -------------------------------------------------------------- CharacterRole

  /** `Unknown4` is the code-4 member the Python enum keeps as `_UNKNOWN4`. */
  datatype CharacterRole = Main | Supporting | Guest | Unknown4

  function CharacterRoleCode(t: CharacterRole): int
  {
    match t
    case Main => 1
    case Supporting => 2
    case Guest => 3
    case Unknown4 => 4
  }

  function CharacterRoleOf(c: int): (r: Option<CharacterRole>)
    ensures r.Some? ==> CharacterRoleCode(r.value) == c
    ensures r.None? ==> forall t :: CharacterRoleCode(t) != c
  {
    if c == 1 then Some(CharacterRole.Main)
    else if c == 2 then Some(CharacterRole.Supporting)
    else if c == 3 then Some(CharacterRole.Guest)
    else if c == 4 then Some(Unknown4)
    else None
  }

  predicate ValidCharacterRole(c: int)
  {
    CharacterRoleOf(c).Some?
  }

  lemma CharacterRoleDomain(c: int)
    ensures ValidCharacterRole(c) <==> 1 <= c <= 4
  {
  }

  lemma CharacterRoleRoundTrip(t: CharacterRole)
    ensures CharacterRoleOf(CharacterRoleCode(t)) == Some(t)
  {
  }

  // ---------------------------------------------------------------- EpisodeType

  datatype EpisodeType = MainStory | Special | Opening | Ending | Trailer | Mad | Other

  function EpisodeTypeCode(t: EpisodeType): int
  {
    match t
    case MainStory => 0
    case Special => 1
    case Opening => 2
    case Ending => 3
    case Trailer => 4
    case Mad => 5
    case Other => 6
  }

  function EpisodeTypeOf(c: int): (r: Option<EpisodeType>)
    ensures r.Some? ==> EpisodeTypeCode(r.value) == c
    ensures r.None? ==> forall t :: EpisodeTypeCode(t) != c
  {
    if c == 0 then Some(MainStory)
    else if c == 1 then Some(Special)
    else if c == 2 then Some(Opening)
    else if c == 3 then Some(Ending)
    else if c == 4 then Some(Trailer)
    else if c == 5 then Some(Mad)
    else if c == 6 then Some(EpisodeType.Other)
    else None
  }

  predicate ValidEpisodeType(c: int)
  {
    EpisodeTypeOf(c).Some?
  }

  lemma EpisodeTypeDomain(c: int)
    ensures ValidEpisodeType(c) <==> 0 <= c <= 6
  {
  }

  lemma EpisodeTypeRoundTrip(t: EpisodeType)
    ensures EpisodeTypeOf(EpisodeTypeCode(t)) == Some(t)
  {
  }

  // --------------------------------------------------------------- RelationType

  /** The relation kinds between two subjects. Only the generic codes 0..11
      are members; the 4002 and 4006 members are commented out in the
      Python enum, so those codes are rejected. */
  datatype RelationType =
    | Sequel | Prequel | SameSetting | SameSeries | SideStory | ParentStory
    | AlternativeVersion | CharacterSame | SpinOff | Adaptation | AlternativeSetting
    | OtherRelation

  function RelationTypeCode(t: RelationType): int
  {
    match t
    case Sequel => 1
    case Prequel => 2
    case SameSetting => 3
    case SameSeries => 4
    case SideStory => 5
    case ParentStory => 6
    case AlternativeVersion => 7
    case CharacterSame => 8
    case SpinOff => 9
    case Adaptation => 10
    case AlternativeSetting => 11
    case OtherRelation => 0
  }

  function RelationTypeOf(c: int): (r: Option<RelationType>)
    ensures r.Some? ==> RelationTypeCode(r.value) == c
    ensures r.None? ==> forall t :: RelationTypeCode(t) != c
  {
    if c == 0 then Some(OtherRelation)
    else if c == 1 then Some(Sequel)
    else if c == 2 then Some(Prequel)
    else if c == 3 then Some(SameSetting)
    else if c == 4 then Some(SameSeries)
    else if c == 5 then Some(SideStory)
    else if c == 6 then Some(ParentStory)
    else if c == 7 then Some(AlternativeVersion)
    else if c == 8 then Some(CharacterSame)
    else if c == 9 then Some(SpinOff)
    else if c == 10 then Some(Adaptation)
    else if c == 11 then Some(AlternativeSetting)
    else None
  }

  predicate ValidRelationType(c: int)
  {
    RelationTypeOf(c).Some?
  }

  lemma RelationTypeDomain(c: int)
    ensures ValidRelationType(c) <==> 0 <= c <= 11
    ensures !ValidRelationType(4002) && !ValidRelationType(4006)
  {
  }

  lemma RelationTypeRoundTrip(t: RelationType)
    ensures RelationTypeOf(RelationTypeCode(t)) == Some(t)
  {
  }

  // ------------------------------------------------------- CharacterSubjectType

  /** The role of a character within one subject. Unlike `CharacterRole`
      it has no code-4 member. */
  datatype CharacterSubjectType = Main | Supporting | Guest

  function CharacterSubjectTypeCode(t: CharacterSubjectType): int
  {
    match t
    case Main => 1
    case Supporting => 2
    case Guest => 3
  }

  function CharacterSubjectTypeOf(c: int): (r: Option<CharacterSubjectType>)
    ensures r.Some? ==> CharacterSubjectTypeCode(r.value) == c
    ensures r.None? ==> forall t :: CharacterSubjectTypeCode(t) != c
  {
    if c == 1 then Some(CharacterSubjectType.Main)
    else if c == 2 then Some(CharacterSubjectType.Supporting)
    else if c == 3 then Some(CharacterSubjectType.Guest)
    else None
  }

  predicate ValidCharacterSubjectType(c: int)
  {
    CharacterSubjectTypeOf(c).Some?
  }

  lemma CharacterSubjectTypeDomain(c: int)
    ensures ValidCharacterSubjectType(c) <==> 1 <= c <= 3
    ensures ValidCharacterRole(4) && !ValidCharacterSubjectType(4)
  {
  }

  lemma CharacterSubjectTypeRoundTrip(t: CharacterSubjectType)
    ensures CharacterSubjectTypeOf(CharacterSubjectTypeCode(t)) == Some(t)
  {
  }
}
