# bgm-archive loader, modelled in Dafny

This project models the core of `bgm_archive`'s `WikiArchiveLoader`: the
loader that reads the Bangumi wiki dump (a zip of eight JSON-lines member
files) and yields one validated pydantic record per line.

What is modelled:

- **Enumeration domains** (`domains.dfy`, module `Domains`): the six
  `IntEnum`s `SubjectType`, `PersonType`, `CharacterRole`, `EpisodeType`,
  `RelationType` and `CharacterSubjectType`. Each becomes a datatype of labels, its codes, the
  reverse lookup pydantic performs, and a membership predicate
  (`ValidSubjectType` and so on).
- **Record shapes** (`json.dfy`, `fields.dfy`, `records.dfy`): a parsed JSON
  value, pydantic's field checks, and the value objects `Tag`,
  `ScoreDetails` and `Favorite`. It also covers the eight record classes with their
  required and defaulted fields. Each class has a validator that checks its
  fields in declaration order. Each class also has a canonical JSON object: one object the
  validator accepts and decodes back to the record (`RoundTrip`); it also
  accepts extra members and, where a field has a default, its absence. Enum-typed fields hold the integer code. Under
  `use_enum_values` (Subject, Person, SubjectRelation) pydantic stores the
  code itself. The other classes store the `IntEnum` member, which compares
  equal to its code.
- **Record properties** (`record_facts.dfy`): round trips, defaults, and the
  fact that members a class does not declare are ignored. Each validator's
  contract says the object describes the record it returns (`Describes`:
  every field is the value of its member). `ValidateExactly` proves the
  converse, so a validator accepts exactly the objects that describe a
  well-formed record of its kind.
- **Text layer** (`text.dfy`): splitting a member's bytes into physical lines
  the way iterating a binary file object does, and Python's `str.strip()`.
- **The decode loop** (`pipeline.dfy`, `pipeline_facts.dfy`): one line is
  classified as blank, valid, failing validation, or failing otherwise. The
  `for` loop of `_load_entries` is the recursive `Run`. Its outcome is
  `Completed(records)`, or `Failed(records, line, failure)` when the
  generator raises after yielding `records`. `Expected` is a reference
  meaning of the loop, written without a loop. `RunMeetsExpected` proves the
  two equal. The ordering, blank-line, silent-drop, fail-fast and halting
  lemmas follow from it.
- **The loader surface** (`loader.dfy`, `loader_facts.dfy`): the archive as
  a map from member name to bytes, `FILE_MODEL_MAP`, `_load_entries`, the
  eight accessors and `load_all`.

Parameters standing for code the model does not see: UTF-8 decoding of a
line and JSON text parsing are the two functions of a `Codec` value. Every
decode operation takes the `Codec` as a parameter.

Behaviour the loader does not have, and choices the code makes:

- There is no "collect" error policy. The only policy is the
  `silent_validation_error` flag.
- Text that is not JSON makes `model_validate_json` raise a
  `ValidationError`. So a syntax error is handled like any other
  validation error: it is dropped when the flag is set. The only other
  per-line failure in the loop body is a UTF-8 decode error.
- No schema rejects unknown members: the shared config sets only
  `use_enum_values`.
- `RelationType` has only the codes 0..11. No code range is namespaced
  by subject type, and 4002 and 4006 are commented out.
- `SubjectPerson.position` is free text.
- A missing member is detected by the `KeyError` from `archive.open`.
  Opening the zip happens on the first request for an element, not when
  the sequence is built.

## Model

| member | source | states |
|---|---|---|
| Domains.SubjectTypeOf | src/bgm_archive/loader/model.py:8-15 | returns the member whose code is `c`, and `None` exactly when no member carries `c` |
| Domains.SubjectTypeDomain | src/bgm_archive/loader/model.py:8-15 | the valid subject-type codes are exactly {1,2,3,4,6}; 5 is rejected |
| Domains.SubjectTypeRoundTrip | src/bgm_archive/loader/model.py:8-15 | looking up a member's code gives that member back |
| Domains.PersonTypeOf | src/bgm_archive/loader/model.py:18-25 | returns the member whose code is `c`, `None` exactly when there is none |
| Domains.PersonTypeDomain | src/bgm_archive/loader/model.py:18-25 | the valid person-type codes are exactly 0..3 |
| Domains.PersonTypeRoundTrip | src/bgm_archive/loader/model.py:18-25 | looking up a member's code gives that member back |
| Domains.CharacterRoleOf | src/bgm_archive/loader/model.py:28-35 | returns the member whose code is `c`, `None` exactly when there is none |
| Domains.CharacterRoleDomain | src/bgm_archive/loader/model.py:28-35 | the valid character-role codes are exactly 1..4 |
| Domains.CharacterRoleRoundTrip | src/bgm_archive/loader/model.py:28-35 | looking up a member's code gives that member back |
| Domains.EpisodeTypeOf | src/bgm_archive/loader/model.py:38-47 | returns the member whose code is `c`, `None` exactly when there is none |
| Domains.EpisodeTypeDomain | src/bgm_archive/loader/model.py:38-47 | the valid episode-type codes are exactly 0..6 |
| Domains.EpisodeTypeRoundTrip | src/bgm_archive/loader/model.py:38-47 | looking up a member's code gives that member back |
| Domains.RelationTypeOf | src/bgm_archive/loader/model.py:50-67 | returns the member whose code is `c`, `None` exactly when there is none |
| Domains.RelationTypeDomain | src/bgm_archive/loader/model.py:50-67 | the valid relation codes are exactly 0..11; 4002 and 4006 are not members |
| Domains.RelationTypeRoundTrip | src/bgm_archive/loader/model.py:50-67 | looking up a member's code gives that member back |
| Domains.CharacterSubjectTypeOf | src/bgm_archive/loader/model.py:70-75 | returns the member whose code is `c`, `None` exactly when there is none |
| Domains.CharacterSubjectTypeDomain | src/bgm_archive/loader/model.py:70-75 | the valid codes are exactly 1..3; 4 is rejected here although it is a valid character role |
| Domains.CharacterSubjectTypeRoundTrip | src/bgm_archive/loader/model.py:70-75 | looking up a member's code gives that member back |
| Fields.EnumField | src/bgm_archive/loader/model.py:116 | an enum-typed field is accepted exactly when it is a JSON integer the domain accepts; an integer outside the domain is reported as a non-member with its code; an absent field is missing |
| Fields.IntField | src/bgm_archive/loader/model.py:115 | an `int` field is accepted exactly when present as a JSON integer, and its value is that integer; an absent one is missing |
| Fields.StrField | src/bgm_archive/loader/model.py:117 | a `str` field is accepted exactly when present as a JSON string, and its value is that string; an absent one is missing |
| Fields.BoolField | src/bgm_archive/loader/model.py:122 | a `bool` field is accepted exactly when present as a JSON boolean, and its value is that boolean; an absent one is missing |
| Fields.NumberField | src/bgm_archive/loader/model.py:171 | an `int \| float` field accepts exactly the JSON numbers and keeps the number it was given |
| Fields.OptionalStrField | src/bgm_archive/loader/model.py:130 | an `Optional[str] = None` field is `None` when absent or `null`, the string when a string, and rejected otherwise |
| Fields.StrListField | src/bgm_archive/loader/model.py:141 | a `List[str]` field with an empty-list default is empty when absent; a present value that is not a list, `null` included, is rejected; a present list is accepted exactly when every item is a string, and yields exactly those strings |
| Fields.StrItems | src/bgm_archive/loader/model.py:141 | a JSON list is accepted as a list of strings exactly when every item is a string, and yields those strings |
| Records.ValidateTag | src/bgm_archive/loader/model.py:78-82 | a tag is accepted exactly when `name` is a JSON string and `count` a JSON integer, and it holds those values |
| Records.TagItems | src/bgm_archive/loader/model.py:78-82 | a JSON list is accepted as tags exactly when every item is an object `ValidateTag` accepts; tag `i` is the tag read from item `i`, one tag per item |
| Records.BucketValues | src/bgm_archive/loader/model.py:85-97 | each bucket is read from its key, 0 when the key is absent; a failure means some present key holds a non-integer |
| Records.ValidateScoreDetails | src/bgm_archive/loader/model.py:85-97 | a histogram has ten buckets; it is accepted exactly when every present bucket key holds an integer; a present bucket is that integer and an absent bucket is 0 |
| Records.ValidateFavorite | src/bgm_archive/loader/model.py:100-107 | a favorite block is accepted exactly when its five counters are JSON integers, and it holds those integers |
| Records.ObjectField | src/bgm_archive/loader/model.py:128 | a nested-model field is accepted exactly when present as a JSON object the nested validator accepts, and its value is what that validator reads from the member; absent is missing, another kind is a type error, and a nested error is reported under the field's name |
| Records.ScoreDetailsField | src/bgm_archive/loader/model.py:125 | `score_details` is `None` exactly when absent or `null`; any other non-object is rejected; an object gives the ten-bucket histogram `ValidateScoreDetails` reads from it, and is accepted exactly when that histogram is |
| Records.TagsField | src/bgm_archive/loader/model.py:123 | `tags` is the empty list when absent; a present value that is not a JSON list, `null` included, is rejected; a present list gives exactly the tags `TagItems` reads from its items |
| Records.ValidateSubject | src/bgm_archive/loader/model.py:110-130 | an accepted subject has a member subject-type code and a ten-bucket histogram if any, the object held every required field, and the object describes it: each scalar field is the member's JSON value, `meta_tags` is `None` only when absent or `null`, and the nested fields are what their field checks read |
| Records.ValidatePerson | src/bgm_archive/loader/model.py:133-145 | an accepted person has a member person-type code, the object held every required field, and each field is the member's JSON value (`career` empty only when absent) |
| Records.ValidateCharacter | src/bgm_archive/loader/model.py:148-157 | an accepted character has a member role code, the object held every field, and each field is the member's JSON value |
| Records.ValidateEpisode | src/bgm_archive/loader/model.py:160-172 | an accepted episode has a member episode-type code, the object held every field, and each field is the member's JSON value, `sort` the number given |
| Records.ValidateSubjectRelation | src/bgm_archive/loader/model.py:175-183 | an accepted relation has a member relation code, the object held every field, and each field is the member's JSON value |
| Records.ValidateSubjectCharacter | src/bgm_archive/loader/model.py:186-192 | an accepted subject-character link has a member character-subject-type code, the object held every field, and each field is the member's JSON value |
| Records.ValidateSubjectPerson | src/bgm_archive/loader/model.py:195-200 | an accepted subject-person link held every field, and `person_id`, `subject_id` and the free-text `position` are the members' JSON values |
| Records.ValidatePersonCharacter | src/bgm_archive/loader/model.py:203-209 | an accepted person-character link held every field, and each field is the member's JSON value |
| Records.Validate | src/bgm_archive/loader/model.py:110-209 | a record accepted for a kind is of that kind and well formed, the object held all of that kind's required fields, and the object describes the record field by field |
| RecordFacts.StrItemsRoundTrip | src/bgm_archive/loader/model.py:141 | a list of strings written as JSON is read back unchanged |
| RecordFacts.TagItemsRoundTrip | src/bgm_archive/loader/model.py:123 | a list of tags written as JSON objects is read back unchanged |
| RecordFacts.BucketValuesRead | src/bgm_archive/loader/model.py:85-97 | the buckets read back are exactly the given values when each key is either present with its value as an integer or absent with value 0 |
| RecordFacts.ScoreDetailsRoundTrip | src/bgm_archive/loader/model.py:85-97 | a ten-bucket histogram written under keys "1".."10" is read back unchanged |
| RecordFacts.EmptyScoreDetails | src/bgm_archive/loader/model.py:88-97 | an object with none of the keys "1".."10" reads as ten zero buckets, whatever other members it has |
| RecordFacts.SubjectAccepted | src/bgm_archive/loader/model.py:115-130 | any object that agrees with a subject's JSON on the required fields decodes to that subject, with its defaulted fields replaced by what the object holds for them |
| RecordFacts.SubjectRoundTrip | src/bgm_archive/loader/model.py:110-130 | a well-formed subject is decoded from its JSON object unchanged |
| RecordFacts.SubjectTagsDefault | src/bgm_archive/loader/model.py:123 | leaving out `tags` gives a subject with no tags and otherwise unchanged |
| RecordFacts.SubjectScoreDetailsDefault | src/bgm_archive/loader/model.py:125 | leaving out `score_details` gives `None` there and otherwise the same subject |
| RecordFacts.SubjectMetaTagsDefault | src/bgm_archive/loader/model.py:130 | leaving out `meta_tags` gives `None` there and otherwise the same subject |
| RecordFacts.PersonDefaults | src/bgm_archive/loader/model.py:141 | leaving out `career` gives an empty career and otherwise the same person |
| RecordFacts.PersonRoundTrip | src/bgm_archive/loader/model.py:133-145 | a well-formed person is decoded from its JSON object unchanged |
| RecordFacts.CharacterRoundTrip | src/bgm_archive/loader/model.py:148-157 | a well-formed character is decoded from its JSON object unchanged |
| RecordFacts.EpisodeRoundTrip | src/bgm_archive/loader/model.py:160-172 | a well-formed episode is decoded from its JSON object unchanged |
| RecordFacts.EpisodeTypeOutsideDomain | src/bgm_archive/loader/model.py:172 | an otherwise valid episode whose `type` is 999 is rejected as a non-member code at field `type` |
| RecordFacts.RoundTrip | src/bgm_archive/loader/model.py:110-209 | every well-formed record of every kind is decoded from its JSON object unchanged |
| RecordFacts.JsonDeclaresFields | src/bgm_archive/loader/model.py:110-209 | a record's JSON object has exactly the members its class declares |
| RecordFacts.ReadsOnlyDeclared | src/bgm_archive/loader/model.py:110-209 | two objects that agree on a kind's declared members are validated alike |
| RecordFacts.UnknownFieldsIgnored | src/bgm_archive/loader/model.py:110-209 | adding or changing an undeclared member never changes the validation outcome |
| RecordFacts.RequiredFieldsAreRequired | src/bgm_archive/loader/model.py:110-209 | an object missing any declared field without a default is rejected; only Subject and Person declare defaults |
| RecordFacts.ValidateExactly | src/bgm_archive/loader/model.py:110-209 | validating an object as a kind gives a record exactly when the record is of that kind, well formed, and described by the object |
| RecordFacts.Described | src/bgm_archive/loader/model.py:110-209 | an object describing a well-formed record is accepted as exactly that record, whatever else it holds |
| Text.LineEnd | src/bgm_archive/loader/wiki_archive_loader.py:98 | the first physical line ends just after the first LF, or at the end of the file |
| Text.SplitLines | src/bgm_archive/loader/wiki_archive_loader.py:98 | the physical lines join back to the file, none is empty, each holds LF only as its last byte, and all but the last end in LF |
| Text.SplitLinesUnique | src/bgm_archive/loader/wiki_archive_loader.py:98 | any cut of a file into physical lines is the one the split returns |
| Text.LineEndOf | src/bgm_archive/loader/wiki_archive_loader.py:98 | a line with no interior LF that ends in LF, or ends the file, is the first physical line |
| Text.AsciiSpace | src/bgm_archive/loader/wiki_archive_loader.py:101 | among ASCII characters `str.strip()` removes exactly tab, LF, vertical tab, form feed, CR, 0x1C..0x1F and space, so the LF or CRLF a physical line keeps is stripped |
| Text.LeadingSpace | src/bgm_archive/loader/wiki_archive_loader.py:101 | counts the whitespace prefix: all of it whitespace and the next character not |
| Text.TrailingSpace | src/bgm_archive/loader/wiki_archive_loader.py:101 | counts the whitespace suffix: all of it whitespace and the character before not |
| Text.Strip | src/bgm_archive/loader/wiki_archive_loader.py:101 | the result is an infix with only whitespace around it, starts and ends with non-whitespace, and is empty exactly when the text is all whitespace |
| Text.StripUnique | src/bgm_archive/loader/wiki_archive_loader.py:101 | stripping any whitespace padding off an infix without surrounding whitespace gives that infix |
| Pipeline.ValidateJson | src/bgm_archive/loader/wiki_archive_loader.py:105 | text that is not JSON is a validation error, and JSON that is not an object is a type error; text parsing to an object gives exactly the record validator's result on that object, accepted or not |
| Pipeline.Classify | src/bgm_archive/loader/wiki_archive_loader.py:99-120 | a line is an unexpected failure exactly when it is not UTF-8, blank exactly when its decoded text is all whitespace, and otherwise valid or invalid as the validator decides on the stripped text |
| Pipeline.ValidPositions | src/bgm_archive/loader/wiki_archive_loader.py:98-106 | the positions of the valid lines, strictly increasing, each valid line included |
| Pipeline.FirstHalt | src/bgm_archive/loader/wiki_archive_loader.py:108-120 | the first line that ends the loop, with no halting line before it; `None` when no line halts |
| PipelineFacts.KeptFollowsValidPositions | src/bgm_archive/loader/wiki_archive_loader.py:98-106 | the records kept are one per valid line, in increasing line order |
| PipelineFacts.KeptComesFromValidLines | src/bgm_archive/loader/wiki_archive_loader.py:105-106 | every kept record is the record of some valid line |
| PipelineFacts.RunOffset | src/bgm_archive/loader/wiki_archive_loader.py:98 | starting the count at another number only moves the reported line by that much |
| PipelineFacts.RunMeetsExpected | src/bgm_archive/loader/wiki_archive_loader.py:98-120 | the loop gives the valid records before the first halting line, with that line's position and failure, or all valid records when no line halts |
| PipelineFacts.FailedAtFirstHalt | src/bgm_archive/loader/wiki_archive_loader.py:108-120 | a failed run reports the zero-based position of the first halting line, blank lines counted, and has yielded exactly the valid records before it; a run completes exactly when no line halts |
| PipelineFacts.BlankLinesInert | src/bgm_archive/loader/wiki_archive_loader.py:101-103 | inserting a blank line anywhere changes neither the records nor the failure, only the number of a later failing line |
| PipelineFacts.SilentDropsInvalid | src/bgm_archive/loader/wiki_archive_loader.py:108-110 | with silent validation errors, a line failing validation is dropped exactly as a blank line is |
| PipelineFacts.SilentCompletes | src/bgm_archive/loader/wiki_archive_loader.py:108-110 | with silent validation errors and no other failure, the run completes with exactly one record per valid line, in order |
| PipelineFacts.FailFast | src/bgm_archive/loader/wiki_archive_loader.py:111-115 | without silent validation errors, the first non-blank line that does not validate ends the run there, after exactly the valid records before it |
| PipelineFacts.UnexpectedAlwaysHalts | src/bgm_archive/loader/wiki_archive_loader.py:116-120 | a line that is not UTF-8 ends the run under either flag, at that line or before; at that line when nothing before it fails |
| PipelineFacts.HaltIgnoresRest | src/bgm_archive/loader/wiki_archive_loader.py:111-120 | once a run has failed, appending any lines leaves its outcome unchanged |
| PipelineFacts.RunMapsRecords | src/bgm_archive/loader/wiki_archive_loader.py:203-206 | validating into the common record type only wraps the records; the loop takes the same course |
| PipelineFacts.ClassifyMapsRecords | src/bgm_archive/loader/wiki_archive_loader.py:203-206 | classifying with a wrapping validator is classifying and then wrapping |
| Loader.LoadEntries | src/bgm_archive/loader/wiki_archive_loader.py:79-122 | an absent member gives an empty, completed sequence; a present one gives the reference outcome of its physical lines under the silent flag |
| LoaderFacts.RegistryIsComplete | src/bgm_archive/loader/wiki_archive_loader.py:45-54 | the registry has eight entries, file names are distinct, and each record kind appears exactly once |
| LoaderFacts.LoadEntriesMaps | src/bgm_archive/loader/wiki_archive_loader.py:196-206 | loading with the common-record validator is loading with the kind's own validator and wrapping |
| LoaderFacts.LoadAllMatchesAccessors | src/bgm_archive/loader/wiki_archive_loader.py:124-206 | `load_all` has one entry per registry entry, in order, each paired with exactly what that kind's accessor returns |
| LoaderFacts.AccessorMeetsExpected | src/bgm_archive/loader/wiki_archive_loader.py:124-194 | each of the eight accessors reads its own member: a missing member gives an empty completed sequence, a present one the reference outcome of its physical lines validated as that kind under the silent flag |
| LoaderFacts.StopOnErrorIgnored | src/bgm_archive/loader/wiki_archive_loader.py:56-67 | both values of `stop_on_error` give the same sequences |
| LoaderFacts.AbsentMemberIsEmpty | src/bgm_archive/loader/wiki_archive_loader.py:121-122 | a member file missing from the archive gives an empty sequence and no error |
| LoaderFacts.MembersIndependent | src/bgm_archive/loader/wiki_archive_loader.py:95-97 | an accessor depends only on its own member file: archives agreeing on it give the same sequence |
| LoaderFacts.FailureAtPhysicalLine | src/bgm_archive/loader/wiki_archive_loader.py:98-120 | a failed sequence names a zero-based physical line of its member that halts the loop, and has yielded exactly the valid lines before it |
| LoaderFacts.LoadEntriesKeeps | src/bgm_archive/loader/wiki_archive_loader.py:105-106 | whatever a validator guarantees of every object it accepts holds of every record `_load_entries` yields with it |
| LoaderFacts.LoadedRecordsWellFormed | src/bgm_archive/loader/wiki_archive_loader.py:105-106 | every record an accessor yields is of the accessor's kind and has member codes in all its enum-typed fields |

## Left out

- The zip container (`zipfile`, `_open_archive`). This is I/O: the archive is given as a map from member name to bytes. The open archive is never closed, which is a resource matter.
- UTF-8 decoding and JSON text parsing: these are library code, represented by the two functions of a `Codec`.
- Laziness. The generator is modelled as its whole outcome: the records it yields, and the exception that ends it, if any. A consumer that stops early sees a prefix of those records.
- Logging calls. The line number in a `Failed` outcome is the number the warning or error log message names (`{filename}:{line_number}`). The exception that is re-raised does not carry it.
- Floating-point values (`Subject.score`, the float branch of `Episode.sort`). They are kept as their JSON literal text and never inspected. A JSON integer in `score` is not converted to a float.
- IntField, StrField, BoolField, NumberField, EnumField: pydantic's lax-mode coercions are not modelled. Examples are a numeric string or a whole float accepted as an `int`, `0`/`1` or `"true"` accepted as a `bool`, and a numeric string accepted as an enum code. The model accepts exactly the matching JSON kind, so it rejects some inputs pydantic accepts.
- Records.Validate: a pydantic `ValidationError` lists every failing field. The model reports only the first, in field declaration order. The loop only uses whether an error occurred.
- A `KeyError` raised inside the loop body would be caught by the outer handler meant for a missing member. No step of the loop body raises one, so the model has no such case.
- The command-line tool, the `bgm_mond` stub loader and its manual test script: none of them is loader logic.
