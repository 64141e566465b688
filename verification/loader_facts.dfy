/** What the loader's surface guarantees: the registry pairs eight distinct
    member files with the eight record kinds; `load_all` agrees entry by
    entry with the per-entity accessors; `stop_on_error` changes nothing;
    an absent member is an empty sequence and touches no other member; a
    reported failure line is a physical line of that member; and every
    yielded record is well formed. */
module LoaderFacts {
  import opened Base
  import opened JsonValues
  import opened Fields
  import opened Records
  import opened Text
  import opened Pipeline
  import opened PipelineFacts
  import opened Loader
  import opened RecordFacts

  /** The record kinds the registry serves. */
  function RegisteredKinds(): set<Kind>
  {
    set i | 0 <= i < |FileModelMap| :: FileModelMap[i].1
  }

  /** The registry has eight entries with distinct file names, and each
      record kind is served by exactly one of them. */
  lemma RegistryIsComplete()
    ensures |FileModelMap| == 8
    ensures forall i, j :: 0 <= i < j < |FileModelMap| ==> FileModelMap[i].0 != FileModelMap[j].0
    ensures forall i, j :: 0 <= i < j < |FileModelMap| ==> FileModelMap[i].1 != FileModelMap[j].1
    ensures forall k: Kind :: k in RegisteredKinds()
  {
    forall k: Kind
      ensures k in RegisteredKinds()
    {
      var i := match k
        case SubjectKind => 0
        case PersonKind => 1
        case CharacterKind => 2
        case EpisodeKind => 3
        case SubjectRelationKind => 4
        case SubjectPersonKind => 5
        case SubjectCharacterKind => 6
        case PersonCharacterKind => 7;
      assert FileModelMap[i].1 == k;
    }
  }

  /** Loading with a validator that wraps another's records is loading with
      the other and wrapping. */
  lemma LoadEntriesMaps<R, S>(l: WikiArchiveLoader, codec: Codec, name: string,
                              v: Object -> Result<R, ValidationError>,
                              w: Object -> Result<S, ValidationError>, f: R -> S)
    requires forall o :: w(o) == v(o).MapValue(f)
    ensures LoadEntries(l, codec, name, w) == MapOutcome(LoadEntries(l, codec, name, v), f)
  {
    if name in l.archive {
      var lines := SplitLines(l.archive[name]);
      ClassifyMapsRecords(codec, v, w, f, lines);
      RunMapsRecords(ClassifyAll(codec, v, lines), f, l.silentValidationError, 0);
    } else {
      assert MapOutcome(Completed([]), f) == Completed([]);
    }
  }

  /** `load_all` returns one entry per registry entry, in order, and each
      entry is exactly what that kind's own accessor returns. */
  lemma LoadAllMatchesAccessors(l: WikiArchiveLoader, codec: Codec)
    ensures |LoadAll(l, codec)| == |FileModelMap|
    ensures forall i :: 0 <= i < |FileModelMap| ==>
              LoadAll(l, codec)[i] == (FileModelMap[i].0, Accessor(l, codec, FileModelMap[i].1))
  {
    forall i | 0 <= i < |FileModelMap|
      ensures LoadAll(l, codec)[i] == (FileModelMap[i].0, Accessor(l, codec, FileModelMap[i].1))
    {
      match i
      case 0 => SubjectsEntry(l, codec);
      case 1 => PersonsEntry(l, codec);
      case 2 => CharactersEntry(l, codec);
      case 3 => EpisodesEntry(l, codec);
      case 4 => SubjectRelationsEntry(l, codec);
      case 5 => SubjectPersonsEntry(l, codec);
      case 6 => SubjectCharactersEntry(l, codec);
      case 7 => PersonCharactersEntry(l, codec);
    }
  }

  // The entries of `load_all` one by one: entry `i` validates into `Record`
  // directly, which is the kind's own validator followed by wrapping.

  lemma SubjectsEntry(l: WikiArchiveLoader, codec: Codec)
    ensures LoadAll(l, codec)[0] == (FileModelMap[0].0, Accessor(l, codec, FileModelMap[0].1))
  {
    var (name, k) := FileModelMap[0];
    forall o ensures Validate(k, o) == ValidateSubject(o).MapValue(s => SubjectRecord(s)) {
      SubjectWraps(o);
    }
    LoadEntriesMaps(l, codec, name, ValidateSubject, o => Validate(k, o), s => SubjectRecord(s));
  }

  lemma PersonsEntry(l: WikiArchiveLoader, codec: Codec)
    ensures LoadAll(l, codec)[1] == (FileModelMap[1].0, Accessor(l, codec, FileModelMap[1].1))
  {
    var (name, k) := FileModelMap[1];
    forall o ensures Validate(k, o) == ValidatePerson(o).MapValue(p => PersonRecord(p)) {
      PersonWraps(o);
    }
    LoadEntriesMaps(l, codec, name, ValidatePerson, o => Validate(k, o), p => PersonRecord(p));
  }

  lemma CharactersEntry(l: WikiArchiveLoader, codec: Codec)
    ensures LoadAll(l, codec)[2] == (FileModelMap[2].0, Accessor(l, codec, FileModelMap[2].1))
  {
    var (name, k) := FileModelMap[2];
    forall o ensures Validate(k, o) == ValidateCharacter(o).MapValue(c => CharacterRecord(c)) {
      CharacterWraps(o);
    }
    LoadEntriesMaps(l, codec, name, ValidateCharacter, o => Validate(k, o), c => CharacterRecord(c));
  }

  lemma EpisodesEntry(l: WikiArchiveLoader, codec: Codec)
    ensures LoadAll(l, codec)[3] == (FileModelMap[3].0, Accessor(l, codec, FileModelMap[3].1))
  {
    var (name, k) := FileModelMap[3];
    forall o ensures Validate(k, o) == ValidateEpisode(o).MapValue(e => EpisodeRecord(e)) {
      EpisodeWraps(o);
    }
    LoadEntriesMaps(l, codec, name, ValidateEpisode, o => Validate(k, o), e => EpisodeRecord(e));
  }

  lemma SubjectRelationsEntry(l: WikiArchiveLoader, codec: Codec)
    ensures LoadAll(l, codec)[4] == (FileModelMap[4].0, Accessor(l, codec, FileModelMap[4].1))
  {
    var (name, k) := FileModelMap[4];
    forall o ensures Validate(k, o) == ValidateSubjectRelation(o).MapValue(s => SubjectRelationRecord(s)) {
      SubjectRelationWraps(o);
    }
    LoadEntriesMaps(l, codec, name, ValidateSubjectRelation, o => Validate(k, o), s => SubjectRelationRecord(s));
  }

  lemma SubjectPersonsEntry(l: WikiArchiveLoader, codec: Codec)
    ensures LoadAll(l, codec)[5] == (FileModelMap[5].0, Accessor(l, codec, FileModelMap[5].1))
  {
    var (name, k) := FileModelMap[5];
    forall o ensures Validate(k, o) == ValidateSubjectPerson(o).MapValue(s => SubjectPersonRecord(s)) {
      SubjectPersonWraps(o);
    }
    LoadEntriesMaps(l, codec, name, ValidateSubjectPerson, o => Validate(k, o), s => SubjectPersonRecord(s));
  }

  lemma SubjectCharactersEntry(l: WikiArchiveLoader, codec: Codec)
    ensures LoadAll(l, codec)[6] == (FileModelMap[6].0, Accessor(l, codec, FileModelMap[6].1))
  {
    var (name, k) := FileModelMap[6];
    forall o ensures Validate(k, o) == ValidateSubjectCharacter(o).MapValue(s => SubjectCharacterRecord(s)) {
      SubjectCharacterWraps(o);
    }
    LoadEntriesMaps(l, codec, name, ValidateSubjectCharacter, o => Validate(k, o), s => SubjectCharacterRecord(s));
  }

  lemma PersonCharactersEntry(l: WikiArchiveLoader, codec: Codec)
    ensures LoadAll(l, codec)[7] == (FileModelMap[7].0, Accessor(l, codec, FileModelMap[7].1))
  {
    var (name, k) := FileModelMap[7];
    forall o ensures Validate(k, o) == ValidatePersonCharacter(o).MapValue(p => PersonCharacterRecord(p)) {
      PersonCharacterWraps(o);
    }
    LoadEntriesMaps(l, codec, name, ValidatePersonCharacter, o => Validate(k, o), p => PersonCharacterRecord(p));
  }

  /** Each accessor reads its own member file: a missing member gives an
      empty, completed sequence, and a present one gives the reference
      outcome of its physical lines validated as that kind, under the
      loader's silent flag. */
  lemma AccessorMeetsExpected(l: WikiArchiveLoader, codec: Codec, i: nat)
    requires i < |FileModelMap|
    ensures var (name, k) := FileModelMap[i];
      Accessor(l, codec, k) ==
        if name !in l.archive then Completed([])
        else Expected(ClassifyAll(codec, o => Validate(k, o), SplitLines(l.archive[name])),
                      l.silentValidationError)
  {
    LoadAllMatchesAccessors(l, codec);
  }

  /** `stop_on_error` is stored but never read: both of its values give
      the same sequences. */
  lemma StopOnErrorIgnored(l: WikiArchiveLoader, codec: Codec, stop: bool)
    ensures LoadAll(l.(stopOnError := stop), codec) == LoadAll(l, codec)
    ensures forall k :: Accessor(l.(stopOnError := stop), codec, k) == Accessor(l, codec, k)
  {
  }

  /** A member file absent from the archive gives an empty sequence and no
      error. */
  lemma AbsentMemberIsEmpty(l: WikiArchiveLoader, codec: Codec, i: nat)
    requires i < |FileModelMap| && FileModelMap[i].0 !in l.archive
    ensures Accessor(l, codec, FileModelMap[i].1) == Completed([])
  {
    LoadAllMatchesAccessors(l, codec);
  }

  /** Each accessor reads only its own member file: two archives that agree
      on that member give the same sequence, whatever else they hold or
      lack. */
  lemma MembersIndependent(l: WikiArchiveLoader, l': WikiArchiveLoader, codec: Codec, i: nat)
    requires i < |FileModelMap|
    requires l.silentValidationError == l'.silentValidationError
    requires FileModelMap[i].0 in l.archive <==> FileModelMap[i].0 in l'.archive
    requires FileModelMap[i].0 in l.archive ==> l.archive[FileModelMap[i].0] == l'.archive[FileModelMap[i].0]
    ensures Accessor(l, codec, FileModelMap[i].1) == Accessor(l', codec, FileModelMap[i].1)
  {
    LoadAllMatchesAccessors(l, codec);
    LoadAllMatchesAccessors(l', codec);
    assert LoadAll(l, codec)[i] == LoadAll(l', codec)[i];
  }

  /** A failed sequence names a zero-based physical line of its member that
      ends the loop, and has yielded exactly the valid lines before it. */
  lemma FailureAtPhysicalLine<R>(l: WikiArchiveLoader, codec: Codec, name: string,
                                 validate: Object -> Result<R, ValidationError>)
    ensures var o := LoadEntries(l, codec, name, validate);
      o.Failed? ==>
        && name in l.archive
        && var lines := SplitLines(l.archive[name]);
        && o.line < |lines|
        && Halts(Classify(codec, validate, lines[o.line]), l.silentValidationError)
        && o.records == Kept(ClassifyAll(codec, validate, lines)[..o.line])
  {
    if name in l.archive {
      FailedAtFirstHalt(ClassifyAll(codec, validate, SplitLines(l.archive[name])), l.silentValidationError);
    }
  }

  /** Every record `_load_entries` yields was accepted by its validator, so
      it has any property the validator guarantees of what it accepts. */
  lemma LoadEntriesKeeps<R>(l: WikiArchiveLoader, codec: Codec, name: string,
                            validate: Object -> Result<R, ValidationError>, P: R -> bool)
    requires forall o :: validate(o).Ok? ==> P(validate(o).value)
    ensures forall r :: r in LoadEntries(l, codec, name, validate).records ==> P(r)
  {
    if name in l.archive {
      var rs := ClassifyAll(codec, validate, SplitLines(l.archive[name]));
      ExpectedFromValidLines(rs, l.silentValidationError);
      forall r | r in LoadEntries(l, codec, name, validate).records
        ensures P(r)
      {
        var p :| 0 <= p < |rs| && rs[p] == Valid(r);
      }
    }
  }

  /** Every record of the reference outcome is the record of a valid line. */
  lemma ExpectedFromValidLines<R>(rs: seq<LineResult<R>>, silent: bool)
    ensures forall r :: r in Expected(rs, silent).records ==> exists p :: 0 <= p < |rs| && rs[p] == Valid(r)
  {
    var kept := match FirstHalt(rs, silent)
      case None => rs
      case Some(h) => rs[..h];
    assert Expected(rs, silent).records == Kept(kept);
    KeptComesFromValidLines(kept);
    forall r | r in Expected(rs, silent).records
      ensures exists p :: 0 <= p < |rs| && rs[p] == Valid(r)
    {
      var p :| 0 <= p < |kept| && kept[p] == Valid(r);
      assert rs[p] == Valid(r);
    }
  }

  /** Every record a sequence yields was accepted by its kind's validator,
      so it is of that kind and each of its enum-typed fields holds a
      member's code. */
  lemma LoadedRecordsWellFormed(l: WikiArchiveLoader, codec: Codec, i: nat)
    requires i < |FileModelMap|
    ensures forall r :: r in Accessor(l, codec, FileModelMap[i].1).records ==>
              WellFormed(r) && KindOf(r) == FileModelMap[i].1
  {
    LoadAllMatchesAccessors(l, codec);
    var (name, k) := FileModelMap[i];
    LoadEntriesKeeps(l, codec, name, o => Validate(k, o), r => WellFormed(r) && KindOf(r) == k);
  }
}
