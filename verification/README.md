# openadr-rs core, modelled in Dafny

openadr-rs is an OpenADR 3.0 client library and VTN (Virtual Top Node)
server written in Rust. This project models its sequential rules as pure
Dafny functions over immutable datatypes and proves what the code promises:

- **Wire types** (`openadr-wire`):
  - identifier parsing, with its byte-length, character-set and forbidden-name checks;
  - the bounded-string check;
  - the `Priority` order and its `i64` conversions;
  - target labels, report types, resource names and event types with their wire texts;
  - the constructors and `with_*` builders of events, programs and reports.
- **Client timeline** (`openadr-client/src/timeline.rs`):
  - events are sorted stably by priority;
  - their intervals are folded into a coalescing range map of disjoint half-open ranges;
  - the model provides point lookup, the next-update query and the iterator that reports a randomised start once per event.
- **VTN authorisation**:
  - role predicates and the claims helpers (`ven_ids`, `business_ids`);
  - VEN permissions and the single-VEN read check;
  - the role-guard extractors;
  - the Postgres permission filter.
- **VTN queries**:
  - skip/limit bounds and defaults;
  - the targetType/targetValues pairing;
  - the in-memory `matches` predicates for events and reports;
  - the `PostgresFilter::from` dispatch of the program, VEN and resource stores.
- **In-memory stores**:
  - create/retrieve/retrieve_all/update/delete as map state machines;
  - program-name uniqueness;
  - the `filter_map → skip → take → collect` listing window.
- **OAuth token endpoint**:
  - the client-credentials grant of section 4.4 of RFC 6749;
  - client authentication by Basic header or form body (sections 2.3 and 2.3.1);
  - error responses as in section 5.2.
- **Error mapping**: sqlx errors and body rejections become `AppError`, and every `AppError` becomes an RFC 7807 problem document with its HTTP status.

Modelling choices:

- **Text:**
  - strings are `seq<char>`;
  - Rust's byte length (`str::len`) and `str::bytes` are computed through an explicit UTF-8 encoder (`Text.Utf8`).
- **Time:**
  - instants are integer seconds since the epoch;
  - durations are whole seconds;
  - `DateTime::<Utc>::MAX_UTC` is `Timelines.MaxUtc`, 8210298412799.
- **Fixed-width integers** are `int` subsets with the Rust bounds (`Intervals.I32`, `I64`, `U32`).
- **Parameters** stand in for:
  - hash-map iteration order (an `order` sequence listing every key once);
  - fresh ids and `now`;
  - token validation and token signing;
  - the credential lookup;
  - the problem reference;
  - the programs' `matches` predicate.

## Model

| member | source | states |
|---|---|---|
| Text.EncodeChar | openadr-wire/src/lib.rs:107-111 | one character encodes to 1–4 bytes, an ASCII one to the single byte of its code point |
| Text.AsciiEncoding | openadr-wire/src/lib.rs:109-111 | an ASCII string's bytes are its code points, one per character, so its byte length is its character count |
| Text.ByteLenAtLeastCharCount | openadr-wire/src/lib.rs:109 | `s.len()` is at least the number of characters |
| Text.ByteLenAtMostFourPerChar | openadr-wire/src/lib.rs:109 | `s.len()` is at most four times the number of characters |
| Text.IdentifierBytesIffChars | openadr-wire/src/lib.rs:107-111 | every byte passes the identifier byte test iff every character is an ASCII letter, digit, `_` or `-` |
| Text.AsciiLowerChar | openadr-wire/src/lib.rs:113 | `to_ascii_lowercase` on a character changes exactly `A`..`Z`, to the letter 32 code points up |
| Text.AsciiLower | openadr-wire/src/lib.rs:113 | lower-casing keeps the length and maps each character by `AsciiLowerChar` |
| Text.NatToString | openadr-wire/src/lib.rs:93 | the decimal rendering is a non-empty digit string |
| Text.NatToStringRoundTrip | openadr-wire/src/lib.rs:93 | reading the rendered digits back gives the number |
| Identifiers.StringWithinRange | openadr-wire/src/lib.rs:55-72 | accepts s unchanged iff MIN ≤ byte length ≤ MAX, else fails with InvalidLength(byte length) |
| Identifiers.ParseIdentifier | openadr-wire/src/lib.rs:103-119 | the error is the first failing check in the order length, characters, forbidden name; success keeps the text |
| Identifiers.ParseIdentifierIffGrammar | openadr-wire/src/lib.rs:103-119 | parsing succeeds iff 1 ≤ byte length ≤ 128, every byte is `[A-Za-z0-9_-]` and the lower-cased text is not "null" |
| Identifiers.ParseThenText | openadr-wire/src/lib.rs:116-131 | on success `as_str` and `Display` return exactly the input |
| Identifiers.TextThenParse | openadr-wire/src/lib.rs:103-131 | a valid identifier's text parses back to the same identifier |
| Identifiers.LengthCheckedFirst | openadr-wire/src/lib.rs:109-110 | any text over 128 bytes gets InvalidLength of its byte length, whatever its characters |
| Identifiers.Repeat | openadr-wire/src/lib.rs:441-470 | the test strings `c` repeated n times: length n, every character c |
| Identifiers.LongestIdentifierAccepted | openadr-wire/src/lib.rs:441-470 | 128 × 'x' is accepted |
| Identifiers.LengthBoundariesRefused | openadr-wire/src/lib.rs:441-470 | 129 × 'x' gives InvalidLength(129) and "" gives InvalidLength(0) |
| Identifiers.ParseNonAscii | openadr-wire/src/lib.rs:441-470 | a short text with a non-ASCII letter gives InvalidCharacter |
| Identifiers.ParseExample | openadr-wire/src/lib.rs:441-470 | a typical identifier parses to itself |
| Identifiers.NullForbiddenInAnyCase | openadr-wire/src/lib.rs:101-114 | "null", "NULL" and "Null" give ForbiddenName carrying the input |
| Identifiers.NullForbiddenOnlyWhole | openadr-wire/src/lib.rs:101-114 | "null1" and "nul" are accepted |
| Identifiers.Render129 | openadr-wire/src/lib.rs:93 | 129 renders as "129" |
| Identifiers.LengthMessage | openadr-wire/src/lib.rs:93 | the InvalidLength message embeds the decimal length in the fixed sentence |
| Identifiers.StringWithinRangeBoundaries | openadr-wire/src/lib.rs:472-497 | with bounds 1..=128: "" and 129 characters are refused, 1 and 128 accepted unchanged |
| Ids.NewProgramId | openadr-wire/src/program.rs:123-126 | Some exactly when the text is an identifier, and then it carries that text |
| Ids.ProgramIdFromStr | openadr-wire/src/program.rs:128-134 | Ok exactly when identifier parsing succeeds, with the parser's error otherwise |
| Ids.NewAgreesWithFromStr | openadr-wire/src/program.rs:123-134 | `new` and `from_str` accept the same strings and build the same id |
| Ids.ProgramIdTextRoundTrip | openadr-wire/src/program.rs:118-134 | a valid id's `as_str` parses back to the same id |
| Intervals.NewIntervalPeriod | openadr-wire/src/interval.rs:47-55 | the given start, no duration, no randomisation |
| Intervals.NewInterval | openadr-wire/src/interval.rs:21-29 | the given id and payloads, no period of its own |
| Priorities.Cmp | openadr-wire/src/event.rs:178-189 | unspecified is below every present priority; present ones compare in reverse of their numbers |
| Priorities.PartialCmp | openadr-wire/src/event.rs:172-176 | `partial_cmp` is always Some(cmp) |
| Priorities.RankInjective | openadr-wire/src/event.rs:178-189 | cmp gives Equal only on equal priorities |
| Priorities.CmpIsTotalOrder | openadr-wire/src/event.rs:172-189 | cmp is reflexive, antisymmetric, transitive and total, and swapping the arguments reverses it |
| Priorities.PriorityOrdering | openadr-wire/src/event.rs:152-189 | Some(a) < Some(b) iff a > b, and unspecified < Some(a) |
| Priorities.MinMaxBound | openadr-wire/src/event.rs:162-165 | MIN is UNSPECIFIED and MIN ≤ p ≤ MAX = Some(0) for every p |
| Priorities.FromI64 | openadr-wire/src/event.rs:191-195 | None gives unspecified; Some(i) gives Some(\|i\|) when \|i\| ≤ u32::MAX, else unspecified |
| Priorities.ToI64 | openadr-wire/src/event.rs:197-201 | the level widened to i64, or None |
| Priorities.ToThenFromI64 | openadr-wire/src/event.rs:191-201 | converting to Option<i64> and back gives the same priority |
| Priorities.FromI64IgnoresSign | openadr-wire/src/event.rs:191-195 | i and −i give the same priority |
| Priorities.FromThenToI64 | openadr-wire/src/event.rs:191-201 | the other round trip keeps exactly the non-negative in-range values |
| Targets.Display | openadr-wire/src/target.rs:57-61 | `Display` writes `as_str` |
| Targets.ParseLabel | openadr-wire/src/target.rs:17-40 | a text reads as a Private label iff it is none of the seven named texts |
| Targets.NamedLabelsAreTheNonPrivate | openadr-wire/src/target.rs:19-40 | the seven named labels are exactly the non-Private ones |
| Targets.NamedLabelsDistinct | openadr-wire/src/target.rs:43-54 | the named labels map to POWER_SERVICE_LOCATION … PROGRAM_NAME, pairwise distinct |
| Targets.AsStrNotInjective | openadr-wire/src/target.rs:52 | Private("GROUP") and Group give the same text |
| Targets.ParseAsStrRoundTrip | openadr-wire/src/target.rs:17-54 | a label's text reads back as the label unless it is a Private spelling a named text |
| Targets.AsStrParseRoundTrip | openadr-wire/src/target.rs:17-54 | the text of a read label is the text it was read from |
| Targets.TargetValues | openadr-client/src/target.rs:73-92 | a singular target yields exactly one value |
| Targets.PluralTarget | openadr-client/src/target.rs:57-92 | the plural target of a label and values is never singular |
| Targets.Pluralize | openadr-client/src/target.rs:57-92 | the plural counterpart of a target is never singular |
| Targets.LabelAndValuesDetermineTarget | openadr-client/src/target.rs:57-92 | label and values rebuild the plural target; a plural target yields back its label and exactly its slice |
| Targets.LabelIgnoresValues | openadr-client/src/target.rs:57-90 | singular and plural forms have the same label, and a singular form's values are its one value |
| ReportTypes.NamedReportType | openadr-wire/src/report.rs:490-516 | a named text reads as the non-Private variant whose wire text it is |
| ReportTypes.ParseReportType | openadr-wire/src/report.rs:490-521 | fails iff the text is not a named one and not 1..=128 bytes long, with serde's untagged-enum error naming ReportType; it is Private iff not named |
| ReportTypes.NamedReportTypeRoundTrip | openadr-wire/src/report.rs:490-516 | every named variant reads back from its wire text |
| ReportTypes.ReportTypeRoundTrip | openadr-wire/src/report.rs:490-521 | every valid report type reads back from its wire text, a Private one unless it spells a named text |
| ReportTypes.NamedReportTypeExamples | openadr-wire/src/report.rs:319-326 | "DEMAND" and "EXPORT_RESERVATION_FEE" read as their variants |
| ReportTypes.PrivateReportTypeExample | openadr-wire/src/report.rs:327-330 | "something else" reads as Private |
| ReportTypes.ReportTypeLengthRefusals | openadr-wire/src/report.rs:332-333 | "" and texts over 128 characters are refused with the untagged-enum error for ReportType |
| EventTypes.NamedEventType | openadr-wire/src/event.rs:270-310 | a named text reads as the non-Private variant whose SCREAMING_SNAKE_CASE text (or explicit rename) it is |
| EventTypes.ParseEventType | openadr-wire/src/event.rs:270-313 | fails iff the text is not a named one and not 1..=128 bytes long, with the untagged-enum error for EventType; it is Private iff not named |
| EventTypes.NamedEventTypeRoundTrip | openadr-wire/src/event.rs:270-310 | every named variant reads back from its wire text |
| EventTypes.EventTypeRoundTrip | openadr-wire/src/event.rs:270-313 | every valid event type reads back from its wire text, a Private one unless it spells a named text |
| EventTypes.NamedEventTypeExamples | openadr-wire/src/event.rs:322-335 | Simple writes "SIMPLE", CTA2045Reboot writes "CTA2045_REBOOT", and "GHG" reads as GHG |
| EventTypes.PrivateEventTypeExample | openadr-wire/src/event.rs:336-339 | "something else" reads as Private |
| EventTypes.EventTypeLengthRefusals | openadr-wire/src/event.rs:341-342 | "" and texts over 128 characters are refused with the untagged-enum error for EventType |
| Reports.DefaultReadingTypeIsDirectRead | openadr-wire/src/report.rs:523-542 | the default reading type is DirectRead, and `is_default` holds exactly for it |
| Reports.ParseResourceName | openadr-wire/src/report.rs:544-552 | fails iff the text is not AGGREGATED_REPORT and not 1..=128 bytes, with the untagged-enum error for ResourceName; success reads back the text |
| Reports.ResourceNameRoundTrip | openadr-wire/src/report.rs:544-552 | a valid resource name reads back from its text |
| Reports.ResourceNameExamples | openadr-wire/src/report.rs:386-407 | the resource-name test cases: named, private, and "" and 129 characters refused with the untagged-enum error |
| Reports.NewReportDescriptor | openadr-wire/src/report.rs:181-197 | payload type t; default reading type; no units or targets; aggregate false, historical true; −1, −1, −1; repeat 1 |
| Reports.DescriptorFromWire | openadr-wire/src/report.rs:151-213 | each present field is kept and each absent one takes its serde default |
| Reports.MinimalDescriptorIsNew | openadr-wire/src/report.rs:356-365 | a descriptor carrying only its payload type equals `ReportDescriptor::new` of it |
| Reports.NewReportPayloadDescriptor | openadr-wire/src/report.rs:236-246 | payload type t, default reading type, no units, accuracy or confidence |
| Reports.NewResource | openadr-wire/src/report.rs:134-143 | the given name and intervals, no period |
| Reports.NewReportInterval | openadr-wire/src/report.rs:275-283 | the given id and payloads, no period |
| Reports.WithClientName | openadr-wire/src/report.rs:65-68 | sets the client name and nothing else |
| Reports.WithName | openadr-wire/src/report.rs:70-73 | sets the report name to Some(name) and nothing else |
| Reports.WithReportPayloadDescriptors | openadr-wire/src/report.rs:75-78 | sets the descriptors to Some(ds) and nothing else |
| Reports.WithResources | openadr-wire/src/report.rs:80-83 | sets the resources and nothing else |
| Reports.ReportBuildersCommute | openadr-wire/src/report.rs:64-84 | builders on different fields commute, and a second call on a field overrides the first |
| Reports.WithClientNameValidity | openadr-wire/src/report.rs:51-68 | a built report stays valid iff the new client name has 1..=128 bytes |
| Events.NewEventPayloadDescriptor | openadr-wire/src/event.rs:218-228 | the given type, no units, no currency |
| Events.NewEventInterval | openadr-wire/src/event.rs:249-258 | the given id and payloads, no period |
| Events.NewEventContent | openadr-wire/src/event.rs:61-78 | needs a non-empty interval list; keeps program and intervals, priority UNSPECIFIED, every optional field None |
| Events.WithEventName | openadr-wire/src/event.rs:80-83 | sets the name to Some(name) and nothing else |
| Events.WithPriority | openadr-wire/src/event.rs:85-87 | sets the priority and nothing else |
| Events.WithTargets | openadr-wire/src/event.rs:89-92 | sets the targets and nothing else |
| Events.WithReportDescriptors | openadr-wire/src/event.rs:94-97 | sets the report descriptors and nothing else |
| Events.WithEventPayloadDescriptors | openadr-wire/src/event.rs:99-105 | sets the payload descriptors and nothing else |
| Events.WithIntervalPeriod | openadr-wire/src/event.rs:107-110 | sets the default period and nothing else |
| Events.WithIntervals | openadr-wire/src/event.rs:112-115 | sets the intervals, an empty list included, and nothing else |
| Events.EventBuildersCommute | openadr-wire/src/event.rs:80-115 | builders on different fields commute, and repeating one keeps the last value |
| Events.BuiltEventFields | openadr-wire/src/event.rs:61-87 | `new` then `with_event_name` then `with_priority` gives exactly those fields, the rest at their defaults |
| Programs.NewProgramContent | openadr-wire/src/program.rs:86-106 | object type Program, the given name, every other field None |
| Programs.NewProgramContentValidity | openadr-wire/src/program.rs:53-106 | the built content is admissible iff the name has 1..=128 bytes |
| Programs.NewProgramContentInjective | openadr-wire/src/program.rs:86-106 | different names give different contents |
| Programs.NewProgramContentCharacterised | openadr-wire/src/program.rs:86-106 | a content with only its name set is the one `new` builds |
| RangeMaps.SegmentAt | openadr-client/src/timeline.rs:107 | `get_key_value`: some stored range containing t, or None iff none contains it |
| RangeMaps.SegmentAtIndex | openadr-client/src/timeline.rs:25-33 | in a well-formed map the containing range is unique |
| RangeMaps.ValueBeforeFirst | openadr-client/src/timeline.rs:25-28 | nothing is stored before the first range |
| RangeMaps.InsertSpec | openadr-client/src/timeline.rs:89 | insert keeps ranges sorted, disjoint and coalesced; afterwards [s, e) maps to v and every other instant keeps its value |
| RangeMaps.InsertAllSpec | openadr-client/src/timeline.rs:83-90 | after a series of inserts each instant has the value of the last range covering it, or its old value |
| RangeMaps.OverwriteExample | openadr-client/src/timeline.rs:223-304 | [0,10)→a then [5,15)→b leaves [0,5)→a and [5,15)→b |
| RangeMaps.CoalesceExample | openadr-client/src/timeline.rs:89 | a touching range with the same value is merged |
| RangeMaps.InsertInside | openadr-client/src/timeline.rs:89 | a range inserted strictly inside another splits it into three pieces, the middle one new |
| RangeMaps.InsertOverEnd | openadr-client/src/timeline.rs:89 | a range inserted over the end of another keeps the old range's head and stores the new range whole |
| RangeMaps.InsertOverStart | openadr-client/src/timeline.rs:89 | a range inserted over the start of another is stored whole and keeps the old range's tail |
| RangeMaps.InsertAllTwo | openadr-client/src/timeline.rs:83-90 | inserting a list of two ranges is inserting the first, then the second |
| Sorting.InsertByKey | openadr-client/src/timeline.rs:49 | one insertion step of the stable sort: the element goes after every element of no greater key |
| Sorting.InsertByKeyPermutes | openadr-client/src/timeline.rs:49 | one insertion step neither adds nor drops elements |
| Sorting.SortByKey | openadr-client/src/timeline.rs:49 | the sort keeps the length |
| Sorting.SortByKeyPermutes | openadr-client/src/timeline.rs:49 | the sort is a permutation |
| Sorting.SortByKeySorted | openadr-client/src/timeline.rs:49 | the result is sorted by key |
| Sorting.SortByKeyStable | openadr-client/src/timeline.rs:49 | elements of equal key keep their input order |
| Sorting.SortByKeyAll | openadr-client/src/timeline.rs:49 | a property holds of all sorted elements iff it holds of all inputs |
| Sorting.BestWhere | openadr-client/src/timeline.rs:49-89 | the reference winner: an element satisfying p, None iff none does |
| Sorting.BestWhereIsMaximal | openadr-client/src/timeline.rs:49-89 | the winner has the greatest key among those satisfying p |
| Sorting.BestWhereIsLast | openadr-client/src/timeline.rs:49-89 | every later element satisfying p has a smaller key |
| Sorting.SortedLastIsBest | openadr-client/src/timeline.rs:49-89 | after the stable sort, the last element satisfying p is the reference winner |
| Timelines.NewTimeline | openadr-client/src/timeline.rs:36-40 | an empty, valid timeline |
| Timelines.ResolvedPeriod | openadr-client/src/timeline.rs:54-61 | the interval's own period, else the event's, else the program's; None iff all three are missing |
| Timelines.SegmentOfCovers | openadr-client/src/timeline.rs:63-81 | an interval's range is [start, start+duration), or [start, MAX_UTC) without a duration, and it carries that period |
| Timelines.EventSegments | openadr-client/src/timeline.rs:59-81 | one range per interval, in order, each with the event's index, priority and the interval's payloads; None iff some period is missing |
| Timelines.Candidates | openadr-client/src/timeline.rs:51-91 | the ranges of all events in order; Some iff every interval resolves a period |
| Timelines.SortedKeepsConditions | openadr-client/src/timeline.rs:49 | sorting keeps "every period resolves" and "every period is well timed" |
| Timelines.ReachedTimedIffAllTimed | openadr-client/src/timeline.rs:51-89 | the loop reaches every interval when all find a period, so "every reached period is well timed" then means "every period is" |
| Timelines.FromEvents | openadr-client/src/timeline.rs:46-94 | admits any input whose reached periods, in sorted order, can be inserted; Some iff every interval of every event finds a period |
| Timelines.FromEventsRequirement | openadr-client/src/timeline.rs:51-89 | the precondition is exactly "every period the loop reaches before its first missing period is well timed" |
| Timelines.StopsBeforeIllTimed | openadr-client/src/timeline.rs:59-61 | an event with no period stops the loop, so a later zero-length interval is admitted and the result is None |
| Timelines.FromEventsValid | openadr-client/src/timeline.rs:46-94 | the result's ranges are sorted, disjoint and coalesced |
| Timelines.FromEventsValues | openadr-client/src/timeline.rs:49-89 | the value at t is that of the last covering interval of the last covering event in priority order |
| Timelines.FromEventsWinner | openadr-client/src/timeline.rs:49-89 | the value at t comes from a covering interval of an event of greatest covering priority, with its index, priority and payloads |
| Timelines.FromEventsPriorityWins | openadr-client/src/timeline.rs:49-89 | a lower-priority event never overwrites a higher one at t |
| Timelines.FromEventsLaterWins | openadr-client/src/timeline.rs:49-89 | among equal priorities the later input wins |
| Timelines.SortTwo | openadr-client/src/timeline.rs:49 | two events are swapped by the sort exactly when the second has the lower priority |
| Timelines.TwoEventsTimeline | openadr-client/src/timeline.rs:46-94 | two single-interval events build the map of inserting the first sorted event's range, then the second's |
| Timelines.SamePriorityEventsTimeline | openadr-client/src/timeline.rs:226-252 | with equal priorities the event given last overwrites the overlap, in both input orders |
| Timelines.UnderlapEventsTimeline | openadr-client/src/timeline.rs:254-278 | a lower-priority event does not overwrite a higher one, in both input orders |
| Timelines.OverlapEventsTimeline | openadr-client/src/timeline.rs:280-304 | a higher-priority event overwrites a lower one, in both input orders |
| Timelines.SplitEventsTimeline | openadr-client/src/timeline.rs:306-324 | a MAX-priority event inside a randomised one splits it into three ranges, the outer two with the randomised event's id |
| Timelines.AtDatetime | openadr-client/src/timeline.rs:103-115 | the range containing t with its randomisation and payloads, or None iff no range contains t |
| Timelines.AtDatetimeFromEvents | openadr-client/src/timeline.rs:103-115 | on a built timeline, the lookup's payloads are those of the winning interval |
| Timelines.FirstEndingAfter | openadr-client/src/timeline.rs:124 | the first stored range ending after s, None iff none does |
| Timelines.FirstOverlapping | openadr-client/src/timeline.rs:124 | a range meeting [s, e), and in a well-formed map None iff none does |
| Timelines.NextUpdate | openadr-client/src/timeline.rs:117-127 | the end of the range containing t; else the start of the first range after t; None iff every range ends by t |
| Timelines.IdsBeforeFirst | openadr-client/src/timeline.rs:151 | an id is new to the `seen` set iff no earlier range has it |
| Timelines.IdsBeforeMembers | openadr-client/src/timeline.rs:140-151 | the `seen` set after k ranges is exactly the ids of those ranges |
| Timelines.Iterate | openadr-client/src/timeline.rs:143-160 | one item per range in order; the randomisation is kept on the first range of each id and dropped on later ones |
| Timelines.IterateRandomizesOnce | openadr-client/src/timeline.rs:143-160 | a later range with the same id never reports a randomised start |
| Timelines.SplitEventsIterate | openadr-client/src/timeline.rs:326-358 | iterating the split timeline keeps the random start on its first range only |
| AppErrors.FromSqlx | openadr-vtn/src/error.rs:63-79 | RowNotFound → NotFound; unique violation → Conflict, tested first; foreign-key violation → ForeignKeyConstraintViolated; else Sql |
| AppErrors.FromJsonRejection | openadr-vtn/src/error.rs:81-90 | a missing JSON content type becomes UnsupportedMediaType with its text; every other rejection is Json |
| AppErrors.FromFormRejection | openadr-vtn/src/error.rs:92-101 | a wrong form content type becomes UnsupportedMediaType; every other rejection is Form |
| AppErrors.StatusOf | openadr-vtn/src/error.rs:109-332 | per-status iff: 404 NotFound, 403 Forbidden, 401 Auth, 409 Conflict, 501, 405, 415, 500 for Sql/SerdeJsonInternal/PasswordHash, 400 for the rest |
| AppErrors.DetailOf | openadr-vtn/src/error.rs:109-332 | no detail iff NotFound or SerdeJsonInternalServerError; fixed generic texts for Sql and PasswordHashError; the message otherwise |
| AppErrors.IntoProblem | openadr-vtn/src/error.rs:109-349 | type "about:blank", title the status text, instance the reference, with the status and detail above |
| AppErrors.IntoResponse | openadr-vtn/src/error.rs:335-340 | the HTTP status equals the problem's status |
| AppErrors.StatusClasses | openadr-vtn/src/error.rs:109-332 | every status is one of nine codes, and ≥ 500 exactly for server faults and NotImplemented |
| AppErrors.UniqueBeforeForeignKey | openadr-vtn/src/error.rs:66-73 | an error that is both unique and foreign-key violation is a Conflict with status 409 |
| AppErrors.SqlxStatuses | openadr-vtn/src/error.rs:63-247 | a database error surfaces as 404 iff RowNotFound, as 409, 400, or 500 with the generic text |
| Jwt.RolePredicatesPartition | openadr-vtn/src/jwt.rs:34-50 | each role satisfies exactly one role predicate |
| Jwt.HasRole | openadr-vtn/src/jwt.rs:124-138 | `is_*` on claims holds iff some role satisfies the role predicate |
| Jwt.VenIds | openadr-vtn/src/jwt.rs:84-95 | v is listed iff VEN(v) is a role; never longer than the roles |
| Jwt.VenIdsAppend | openadr-vtn/src/jwt.rs:84-95 | `ven_ids` of concatenated roles is the concatenation, so role order and duplicates are kept |
| Jwt.VenIdsSingle | openadr-vtn/src/jwt.rs:87-93 | one role contributes its id iff it is a VEN role |
| Jwt.VenIdsString | openadr-vtn/src/jwt.rs:97-108 | `ven_ids_string` is `ven_ids` rendered, same length and order |
| Jwt.IsVenIffVenIds | openadr-vtn/src/jwt.rs:84-126 | `is_ven` holds iff `ven_ids` is non-empty |
| Jwt.BusinessIdList | openadr-vtn/src/jwt.rs:113-119 | b is listed iff Business(b) is a role |
| Jwt.BusinessIdListAppend | openadr-vtn/src/jwt.rs:113-119 | the list of concatenated roles is the concatenation, in role order |
| Jwt.BusinessIdsOf | openadr-vtn/src/jwt.rs:110-122 | Any iff AnyBusiness is a role, wherever it sits; otherwise Specific of every Business id in order |
| Jwt.ExtractUser | openadr-vtn/src/jwt.rs:216-233 | a missing bearer gives Auth, a token that fails validation Forbidden, otherwise its claims |
| Jwt.ExtractWithRole | openadr-vtn/src/jwt.rs:244-299 | passes the user's error through; without the role Forbidden, except Auth for the VEN-manager guard |
| Jwt.RoleRefusalStatus | openadr-vtn/src/jwt.rs:244-299 | a refused valid token is 403, or 401 from the VEN-manager guard; a missing header is 401 |
| Permissions.AsValue | openadr-vtn/src/data_source/mod.rs:142-151 | None iff AllAllowed; otherwise the ids as text, same length and order |
| Permissions.FromClaims | openadr-vtn/src/data_source/mod.rs:154-166 | VenManager gives AllAllowed even with VEN roles; VEN roles alone give Specific(ven_ids); neither gives Forbidden |
| Permissions.FromClaimsSpecificNonEmpty | openadr-vtn/src/data_source/mod.rs:159-160 | a Specific produced from claims is never empty |
| Permissions.FromClaimsAsValue | openadr-vtn/src/data_source/mod.rs:142-160 | the Specific ids as text are `ven_ids_string` |
| Permissions.VenGetAccess | openadr-vtn/src/api/ven.rs:43-49 | passes iff the VEN requests one of its own ids, or a non-VEN is a VEN manager; otherwise Forbidden with the branch's message |
| Permissions.VenGetAccessCovers | openadr-vtn/src/api/ven.rs:43-49 | whoever passes gets permissions covering the requested id |
| Permissions.VenBranchFirst | openadr-vtn/src/api/ven.rs:43-47 | a VEN that is also a VEN manager is refused another VEN's id |
| Queries.QueryAppError | openadr-vtn/src/error.rs:114-165 | a refused query string is a 400, QueryParams when undecodable and Validation when invalid |
| Queries.OrDefault | openadr-vtn/src/api/program.rs:79-98 | an absent parameter takes its default, a present one its value |
| Queries.ListFieldIssues | openadr-vtn/src/api/program.rs:79-85 | reports skip < 0 and a limit outside 1..=50, and only those |
| Queries.ValidateListQuery | openadr-vtn/src/api/program.rs:77-94 | no issue iff skip ≥ 0, 1 ≤ limit ≤ 50 and type and values are both set or both unset (the VEN and resource listings, api/ven.rs and api/resource.rs, apply the same bounds and pairing) |
| Queries.ParseListQuery | openadr-vtn/src/api/program.rs:70-98 | Ok iff every field decodes into its type and validation passes; then skip defaults to 0 and limit to 50 |
| Queries.ListQueryDefaults | openadr-vtn/src/api/program.rs:79-98 | the empty query string gives skip 0, limit 50, no target |
| Queries.ListQueryExamples | openadr-vtn/src/api/program.rs:385-420 | skip −1, limit 0, limit −1 and a type without values are refused with 400; skip 0 is accepted |
| Queries.ParseEventQuery | openadr-vtn/src/api/event.rs:141-158 | Ok iff every field decodes and limit ≤ 50; skip defaults to 0, limit to 50 |
| Queries.EventMatches | openadr-vtn/src/api/event.rs:160-184 | programID decides alone; EVENT_NAME: unnamed → false, no values → BadRequest, else name ∈ values; other types NotImplemented; no filter → true |
| Queries.EventMatchesFailures | openadr-vtn/src/api/event.rs:164-180 | a failure needs no programID and a target type: 400 for EVENT_NAME with a named event and no values, else 501 |
| Queries.EventMatchesLocal | openadr-vtn/src/api/event.rs:160-184 | the decision depends only on the event's program id and name |
| Queries.ParseReportQuery | openadr-vtn/src/api/report.rs:149-166 | Ok iff every field decodes and limit ≤ 50; skip defaults to 0, limit to 50 |
| Queries.ReportMatches | openadr-vtn/src/api/report.rs:168-180 | never Err; the first filter given decides, in the order eventID, clientName, programID; no filter → true |
| Queries.ReportMatchesAllFilters | openadr-vtn/src/api/report.rs:168-180 | a report agreeing with every given filter matches |
| Queries.ReportMatchesIgnoresLaterFilters | openadr-vtn/src/api/report.rs:170-171 | with eventID given, clientName and programID are ignored |
| PgFilters.TargetsFilters | openadr-vtn/src/data_source/postgres/ven.rs:97-106 | one single-valued entry per value under the label's text, same count and order |
| PgFilters.TargetsFiltersValues | openadr-vtn/src/data_source/postgres/ven.rs:97-106 | the entries' values give back the value list |
| PgFilters.ProgramFilterOf | openadr-vtn/src/data_source/postgres/program.rs:132-149 | skip/limit copied; VEN, event and program names to their own list; other labels to type/values; nothing without a type |
| PgFilters.ProgramFilterOneGroup | openadr-vtn/src/data_source/postgres/program.rs:139-149 | at most one filter group is set, and for a validated query exactly one iff a type is given |
| PgFilters.VenFilterOf | openadr-vtn/src/data_source/postgres/ven.rs:85-109 | skip/limit copied; VEN and resource names to their lists; other labels one entry per value; no values → no entries |
| PgFilters.ResourceFilterOf | openadr-vtn/src/data_source/postgres/resource.rs:85-109 | skip/limit copied; VEN_NAME and RESOURCE_NAME both fill resource names; other labels one entry per value |
| PgFilters.ResourceFilterVenNameIsResourceName | openadr-vtn/src/data_source/postgres/resource.rs:93-96 | a VEN_NAME query builds the same filter as a RESOURCE_NAME query |
| PgFilters.VenAndResourceFiltersAgree | openadr-vtn/src/data_source/postgres/resource.rs:93-108 | apart from VEN_NAME the two stores build the same resource list and entries |
| PgFilters.PermissionFilter | openadr-vtn/src/data_source/postgres/mod.rs:92-104 | one VEN_NAME entry per VEN role, in role order, carrying that VEN id |
| PgFilters.PermissionFilterValues | openadr-vtn/src/data_source/postgres/mod.rs:80-104 | the values are `ven_ids_string`; empty iff no VEN role; every label "VEN_NAME" |
| Listing.FilterMatches | openadr-vtn/src/data_source/memory/event.rs:38-42 | keeps matches as Ok and failures as Err, drops non-matches; every item traces back to an input |
| Listing.FilterMatchesWithoutErrors | openadr-vtn/src/data_source/memory/event.rs:38-42 | without failures it yields exactly the selected elements as Ok |
| Listing.Window | openadr-vtn/src/data_source/memory/event.rs:43-44 | `skip(n).take(m)`: the elements at positions n .. n+m that exist |
| Listing.Collect | openadr-vtn/src/data_source/memory/event.rs:45 | every value when all are Ok, else the first error |
| Listing.CollectOks | openadr-vtn/src/data_source/memory/event.rs:45 | collecting all-Ok items gives their values |
| Listing.CollectWindow | openadr-vtn/src/data_source/memory/event.rs:43-45 | collecting a window fails iff an error sits inside it |
| Listing.ListWindow | openadr-vtn/src/data_source/memory/event.rs:35-45 | at most limit matching inputs; fails iff a failed match lands in the window, with that error; skipped errors are discarded |
| Listing.ListWindowWithoutErrors | openadr-vtn/src/data_source/memory/event.rs:35-45 | without failures the listing is the window of the selected elements |
| Stores.Values | openadr-vtn/src/data_source/memory/event.rs:37 | the records in iteration order, one per key |
| Stores.Retrieve | openadr-vtn/src/data_source/memory/event.rs:27-29 | the stored record, or NotFound iff the id is absent (the same for reports and programs, memory/report.rs and memory/program.rs) |
| Stores.Insert | openadr-vtn/src/data_source/memory/event.rs:21-25 | adds exactly the fresh key with the given content, created and modified now; other records unchanged (the same for reports, memory/report.rs, with no name check) |
| Stores.Update | openadr-vtn/src/data_source/memory/event.rs:48-61 | present id: content replaced, modification time now, id and creation time kept, others unchanged; absent: NotFound, no change (the same for reports, memory/report.rs) |
| Stores.Delete | openadr-vtn/src/data_source/memory/event.rs:63-68 | removes exactly that key and returns its record; absent: NotFound, no change (the same for reports and programs, memory/report.rs and memory/program.rs) |
| Stores.OperationsKeepIdsConsistent | openadr-vtn/src/data_source/memory/event.rs:21-68 | insert, update and delete keep every record under its own id |
| Stores.RetrieveAfterWrite | openadr-vtn/src/data_source/memory/event.rs:21-68 | a retrieve sees the last insert or update; a delete removes only its key |
| Stores.FindNameConflict | openadr-vtn/src/data_source/memory/program.rs:23-75 | the first record in order, other than the excluded id, with the name; None iff there is none |
| Stores.CreateProgram | openadr-vtn/src/data_source/memory/program.rs:22-47 | Conflict, store unchanged, iff the name is taken, naming a clashing record's id; otherwise a plain insert |
| Stores.UpdateProgram | openadr-vtn/src/data_source/memory/program.rs:67-92 | Conflict iff another record has the name; else NotFound iff the id is absent; else the plain update |
| Stores.ProgramOperationsKeepUniqueNames | openadr-vtn/src/data_source/memory/program.rs:22-99 | create, update and delete keep program names pairwise distinct |
| Stores.RetrieveAllPrograms | openadr-vtn/src/data_source/memory/program.rs:53-65 | the [skip, skip+limit) window of the programs `matches` accepts; fails iff a failure lands in the window |
| Stores.RetrieveAllEvents | openadr-vtn/src/data_source/memory/event.rs:31-46 | at most limit matching events from the window; cannot fail with a programID or without a target type |
| Stores.RetrieveAllReports | openadr-vtn/src/data_source/memory/report.rs:38-53 | never fails; the [skip, skip+limit) window of matching reports |
| OAuth.ErrorCode | src/wire/oauth.rs:1-11 | the snake-case `error` code of each type |
| OAuth.ErrorCodeInjective | src/wire/oauth.rs:1-11 | distinct error types have distinct codes |
| OAuth.NewError | src/wire/oauth.rs:22-29 | the bare type, no description, no URI |
| OAuth.WithDescription | src/wire/oauth.rs:31-34 | sets the description and keeps the rest |
| OAuth.WithUri | src/wire/oauth.rs:36-39 | sets the URI and keeps the rest |
| OAuth.IntoResponse | openadr-vtn/src/api/auth.rs:30-45 | InvalidClient → 401 with `Basic realm="VTN"`; ServerError → 500; others → 400; the header only on 401 |
| OAuth.FromJwtError | openadr-vtn/src/api/auth.rs:47-54 | a signing failure is ServerError "Could not issue a new token", status 500 |
| OAuth.BodyCredentials | openadr-vtn/src/api/auth.rs:94-103 | present iff id or secret is; a missing secret reads "", a missing id reads "" |
| OAuth.HeaderCredentials | openadr-vtn/src/api/auth.rs:90-92 | the Basic header's username and password |
| OAuth.Presented | openadr-vtn/src/api/auth.rs:111 | the body's credentials when it has any, else the header's; None iff neither source has any |
| OAuth.Token | openadr-vtn/src/api/auth.rs:78-139 | wrong grant → UnsupportedGrantType; both sources → InvalidRequest; neither or unknown → InvalidClient; known credentials → Ok(bearer token from the signer, 2592000 s, no scope), or the JWT error when signing fails |
| OAuth.GrantCheckedFirst | openadr-vtn/src/api/auth.rs:84-88 | with a wrong grant the result ignores header, lookup and signer |
| OAuth.PartialBodyCredentials | openadr-vtn/src/api/auth.rs:94-128 | a lone client id authenticates with secret "", a lone secret as client id "" |
| OAuth.TokenErrorStatuses | openadr-vtn/src/api/auth.rs:30-131 | a wrong grant or both sources is 400; no credentials is 401 with the challenge; 500 iff the signer failed for known credentials, with the signing message |
| OAuth.TokenSucceedsIff | openadr-vtn/src/api/auth.rs:78-139 | a token is issued iff the grant is right, one source presents credentials, the store knows them and the signer succeeds |

## Left out

- I/O and concurrency:
  - HTTP routing and the axum extractors' plumbing are left out;
  - the `RwLock` around the memory stores is left out, so operations run one at a time and the non-atomic check-then-insert of program `create` is modelled sequentially;
  - logging (`warn!`, `info!`) is left out, including the overlap warning of the timeline.
- Floating point:
  - payload values and points are kept as their bit patterns, so equality is bitwise, unlike `f64` (NaN, ±0.0);
  - ISO 8601 durations are whole seconds; the `f32` text form and calendar units are left out;
  - accuracy and confidence are abstract.
- `RangeMap`: the rangemap crate is not part of this model. `RangeMaps` is a reference range map that overwrites overlapped parts and coalesces touching ranges with equal values, as the crate documents.
- Timelines.FromEvents: does not model the `id as u32` truncation of event indices, because no realistic event list has 2^32 entries.
- Timelines.FromEvents: requires every period the loop reaches, in sorted order and up to the first interval without a period, to be a non-empty range ending by `MAX_UTC`, because rangemap panics on empty ranges and chrono panics on overflow; those panics are not modelled.
- JWT cryptography and clocks: `JwtManager::create` and `decode_and_validate` are parameters (`issue`, `validate`); the test-only `Claims::new` helpers are left out.
- Ids: the VenId, ResourceId, EventId and ReportId wrappers behave exactly as ProgramId. They are declared, but their constructors are not repeated.
- Serde in general: only the explicit validators and defaults are modelled, plus the wire texts of labels, report types, resource names and event types. An untagged fallback that does not match fails with serde's "data did not match any variant of untagged enum" error (`UntaggedMessage`), not the inner validator's message. The validator crate's messages become the model-level `QueryIssue` classification.
- Queries.ValidateListQuery: the pairing check runs only when the field checks pass. This models the validator's schema-level check, which is skipped on field errors.
- Stores.CreateProgram and Stores.UpdateProgram:
  - the source builds `AppError::Conflict` with one argument, while the variant takes a message and an optional database error;
  - the model uses `None` for the database error.
- Stores.Insert:
  - requires the fresh id to be absent from the store, because `Event::new`, `Report::new` and `Program::new` are not part of this model;
  - they are taken to draw a new random id and to set created = modified = now.
- Stores.RetrieveAllPrograms: requires skip and limit to be non-negative, because the handler only passes validated queries, so the `as usize` conversion of negative values is not modelled.
- openadr-wire/src/oauth.rs is not part of this model. The OAuth wire types are modelled from src/wire/oauth.rs, the older copy.
- Postgres: the SQL text, jsonb operators, row-level permission filtering and `TryFrom<Postgres*>` decoding are left out; only the filter values built in Rust are modelled.
