/** `WikiArchiveLoader`: the registry of member files and record kinds, the
    eight per-entity accessors and `load_all`. The zip container is
    represented by its contents, a map from member name to bytes. */
module Loader {
  import opened Base
  import opened JsonValues
  import opened Fields
  import opened Records
  import opened Text
  import opened Pipeline
  import opened PipelineFacts

  /** The members of one zip archive. */
  type Archive = map<string, seq<byte>>

  /** The loader's configuration. `stopOnError` is stored and never read. */
  datatype WikiArchiveLoader = WikiArchiveLoader(archive: Archive, silentValidationError: bool, stopOnError: bool)

  /** `FILE_MODEL_MAP`, in its declaration order. */
  const FileModelMap: seq<(string, Kind)> := [
    ("subject.jsonlines", SubjectKind),
    ("person.jsonlines", PersonKind),
    ("character.jsonlines", CharacterKind),
    ("episode.jsonlines", EpisodeKind),
    ("subject-relations.jsonlines", SubjectRelationKind),
    ("subject-persons.jsonlines", SubjectPersonKind),
    ("subject-characters.jsonlines", SubjectCharacterKind),
    ("person-characters.jsonlines", PersonCharacterKind)
  ]

  /** `_load_entries(filename, model_class)`: an absent member gives an
      empty sequence; a present one is split into physical lines, each line
      classified, and the results run through the decode loop from line 0. */
  function LoadEntries<R>(l: WikiArchiveLoader, codec: Codec, filename: string,
                          validate: Object -> Result<R, ValidationError>): (o: Outcome<R>)
    ensures filename !in l.archive ==> o == Completed([])
    ensures filename in l.archive ==>
              o == Expected(ClassifyAll(codec, validate, SplitLines(l.archive[filename])), l.silentValidationError)
  {
    if filename !in l.archive then Completed([])
    else
      var lines := SplitLines(l.archive[filename]);
      RunMeetsExpected(ClassifyAll(codec, validate, lines), l.silentValidationError);
      Run(ClassifyAll(codec, validate, lines), l.silentValidationError, 0)
  }

  function Subjects(l: WikiArchiveLoader, codec: Codec): Outcome<Subject>
  {
    LoadEntries(l, codec, "subject.jsonlines", ValidateSubject)
  }

  function Persons(l: WikiArchiveLoader, codec: Codec): Outcome<Person>
  {
    LoadEntries(l, codec, "person.jsonlines", ValidatePerson)
  }

  function Characters(l: WikiArchiveLoader, codec: Codec): Outcome<Character>
  {
    LoadEntries(l, codec, "character.jsonlines", ValidateCharacter)
  }

  function Episodes(l: WikiArchiveLoader, codec: Codec): Outcome<Episode>
  {
    LoadEntries(l, codec, "episode.jsonlines", ValidateEpisode)
  }

  function SubjectRelations(l: WikiArchiveLoader, codec: Codec): Outcome<SubjectRelation>
  {
    LoadEntries(l, codec, "subject-relations.jsonlines", ValidateSubjectRelation)
  }

  function SubjectPersons(l: WikiArchiveLoader, codec: Codec): Outcome<SubjectPerson>
  {
    LoadEntries(l, codec, "subject-persons.jsonlines", ValidateSubjectPerson)
  }

  function SubjectCharacters(l: WikiArchiveLoader, codec: Codec): Outcome<SubjectCharacter>
  {
    LoadEntries(l, codec, "subject-characters.jsonlines", ValidateSubjectCharacter)
  }

  function PersonCharacters(l: WikiArchiveLoader, codec: Codec): Outcome<PersonCharacter>
  {
    LoadEntries(l, codec, "person-characters.jsonlines", ValidatePersonCharacter)
  }

  /** The accessor for kind `k`, its records wrapped as `Record`s. */
  function Accessor(l: WikiArchiveLoader, codec: Codec, k: Kind): Outcome<Record>
  {
    match k
    case SubjectKind => MapOutcome(Subjects(l, codec), s => SubjectRecord(s))
    case PersonKind => MapOutcome(Persons(l, codec), p => PersonRecord(p))
    case CharacterKind => MapOutcome(Characters(l, codec), c => CharacterRecord(c))
    case EpisodeKind => MapOutcome(Episodes(l, codec), e => EpisodeRecord(e))
    case SubjectRelationKind => MapOutcome(SubjectRelations(l, codec), s => SubjectRelationRecord(s))
    case SubjectPersonKind => MapOutcome(SubjectPersons(l, codec), s => SubjectPersonRecord(s))
    case SubjectCharacterKind => MapOutcome(SubjectCharacters(l, codec), s => SubjectCharacterRecord(s))
    case PersonCharacterKind => MapOutcome(PersonCharacters(l, codec), p => PersonCharacterRecord(p))
  }

  /** `load_all`: one entry per `FILE_MODEL_MAP` entry, in order, pairing
      the file name with the sequence `_load_entries` gives for it. */
  function LoadAll(l: WikiArchiveLoader, codec: Codec): seq<(string, Outcome<Record>)>
  {
    seq(|FileModelMap|, i requires 0 <= i < |FileModelMap| =>
      (FileModelMap[i].0, LoadEntries(l, codec, FileModelMap[i].0, o => Validate(FileModelMap[i].1, o))))
  }
}
