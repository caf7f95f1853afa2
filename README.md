# Groove domain entities in Dafny

This project models the domain layer of Groove in Dafny and proves what that code promises. Groove is a small .NET application.

- **`DomainEntity<T>`** is the base class of every persisted entity. It covers the following:
  - An entity is transient while its `Id` is null or the default for its key type.
  - Its `Equals` decision goes by reference identity first, then by a shared non-default id, then by business signature.
  - It has two hash paths. Persistent entities use the type hash and the id hash, cached forever. Transient entities fold the signature values left to right in wrapping 32-bit arithmetic.
  - Its `ToString` has the form `Name: [Id:x] (P:v, ...IsTransient:True)`. The signature segment is cached and rebuilt when the values drift from a snapshot taken on the first call.
  - A static dictionary memoises the signature members of each type. In the model an entity reaches it through its `index` field, and the memo is shared only where entities are given the same `SignatureIndex` object, as the scenarios do.
- **`DomainEntityIdentityComparer.IsNullOrDefault`** is the transience test.
- **`User` and `UserGroup`** hold a many-to-many link on both sides. Their add and remove helpers keep the two lists in step. `User.SetUsername` has a default rule for the friendly name.
- **`ValidatePasswordLengthAttribute`** checks a minimum password length.

How the model is laid out:

- **Pure parts.** `IsNullOrDefault`, the equality decision, the hash fold and the rendering are functions. Lemmas state what the repository's tests and comments promise about them. These live in `IdentityComparer`, `EntitySpec`, `ListOps` and `PasswordValidation`.
- **Stateful parts.** These are classes whose methods change fields in place: the entity and its three caches, the memo dictionary, and the two link lists.
  - Each method is proved to leave exactly the state that a step function of `EntitySpec`, `ListOps` or `Accounts` computes from the old state: `HashStep`, `SignatureSegment`, `CheckSignature`, `MemoLookup`, `Added`, `Removed`.
  - The lemmas about those functions carry the properties: caching, drift, stale text after a revert, agreement of the two link tables, and the hash/equality law.
- **Exceptions.** The null dereferences and missing dictionary keys the code can meet are outcomes: an `Outcome` is either `Ok(value)` or `Thrown(fault)`, so a method that can throw returns one.
- **Runtime hooks.** What the .NET runtime decides is a `Runtime` value of uninterpreted functions passed as a parameter. This covers the hash of a type, of a value and of an id, and the text of a reference-typed id. `base.GetHashCode()` is a per-object constant.
- **Test scenarios.** `EntityScenarios` replays the domain tests on the stub type `DomainEntityStub`1`, whose only signature member is `Property1`. Each scenario pins down the expected string, hash equality or `Equals` outcome for every choice of those functions.

## Model

| member | source | states |
|---|---|---|
| IdentityComparer.IsNullOrDefault | Groove.Domain/Entities/DomainEntityIdentityComparer.cs:18-27 | An identifier is null-or-default exactly when it equals the default of its kind, or it is the empty string. The string test comes first, so `""` counts. The predicate is total. |
| IdentityComparer.IntDefaults | Groove.Domain/Entities/DomainEntityIdentityComparer.cs:26 | For int keys, 0 is default and 1 is not. |
| IdentityComparer.StringDefaults | Groove.Domain/Entities/DomainEntityIdentityComparer.cs:20-24 | For string keys, null and `""` are default and every non-empty string is not. |
| IdentityComparer.ReferenceDefaults | Groove.Domain/Entities/DomainEntityIdentityComparer.cs:26 | For a reference key type, null is default and any instance is not. Each reference type is its own key kind. |
| IdentityComparer.EmptyStringIsDefaultButNotDefaultOf | Groove.Domain/Entities/DomainEntityIdentityComparer.cs:20-26 | `""` is accepted as default even though it is not `default(string)`. |
| EntitySpec.Transient | Groove.Domain/Entities/DomainEntity.cs:244-247 | Reference definition: an entity state is transient when its id is null or default (`IsNullOrDefault`). |
| Primitives.DecimalRoundTrip | Groove.Domain/Entities/DomainEntity.cs:363 | The decimal text of an Id (as `String.Format` renders an Int32) reads back as the same number. |
| Primitives.IntText | Groove.Domain/Entities/DomainEntity.cs:363 | The Int32 text of a number denotes that number: a leading minus sign exactly when it is negative, followed by decimal digits whose value is its magnitude. |
| Primitives.Utf16Length | Groove.Domain/EntityValidation/ValidatePasswordLengthAttribute.cs:50 | `String.Length` counts UTF-16 code units: at least one and at most two per character, and exactly one per character when every character is in the Basic Multilingual Plane. |
| DomainEntities.Entity.constructor | Groove.Domain/Entities/DomainEntity.cs:49-56 | A new entity has the following state, so it is transient: <ul><li>the default id</li><li>no row timestamp</li><li>no cached hash</li><li>an empty cached text</li><li>no snapshot</li></ul> |
| DomainEntities.Entity.WithId | Groove.Domain/Entities/DomainEntity.cs:64-71 | The id is the one given and the caches start empty. The entity is transient exactly when that id is null or default. |
| DomainEntities.SignatureIndex.constructor | Groove.Domain/Entities/DomainEntity.cs:76-79 | The static constructor leaves the shared dictionary null. |
| DomainEntities.Entity.IsTransient | Groove.Domain/Entities/DomainEntity.cs:244-247 | The entity is transient exactly when its state is (`Transient`): its id is null or default. |
| DomainEntities.Entity.SetId | Groove.Domain/Entities/DomainEntity.cs:87 | Only the id changes and the caches are untouched. |
| DomainEntities.Entity.SetRowTimestamp | Groove.Domain/Entities/DomainEntity.cs:92 | Only the row timestamp changes. |
| DomainEntities.Entity.SetValue | Groove.Domain.Tests/Entities/DomainEntityTests.cs:53 | A property setter changes that one property value and no cache. |
| DomainEntities.Entity.GetSignatureProperties | Groove.Domain/Entities/DomainEntity.cs:252-267 | Returns the type's declared signature members. The shared memo afterwards is what `MemoLookup` gives: created when null, the type added on first access, other keys unchanged. |
| EntitySpec.MemoLookup | Groove.Domain/Entities/DomainEntity.cs:252-267 | The lookup returns the type's members. The memo afterwards holds that type, keeps every earlier entry and stays valid. |
| EntitySpec.MemoLookupStable | Groove.Domain/Entities/DomainEntity.cs:261-264 | For a stored type, a later lookup returns the identical list and leaves the memo as it is. |
| EntitySpec.SameType | Groove.Domain/Entities/DomainEntity.cs:145-148 | Reference definition of IsOfSameType: the two entities have the same `EntityType` value, that is handle, name and signature together. |
| EntitySpec.SameNonDefaultId | Groove.Domain/Entities/DomainEntity.cs:105-109 | Reference definition of HasSameNoneDefaultIdAs: both ids are non-default, they are equal, and the types are the same. |
| EntitySpec.SameBusinessSignature | Groove.Domain/Entities/DomainEntity.cs:120-138 | Reference definition of HasSameBusinessSignatureAs: no member mismatches, and the signature is non-empty or the two are the same reference. |
| EntitySpec.EntityEquals | Groove.Domain/Entities/DomainEntity.cs:279-293 | Reference definition of Equals on the cast argument: the same reference, or non-null and (same non-default id, or same type with one side transient and the same business signature). |
| DomainEntities.Entity.TakeSnapshot | Groove.Domain/Entities/DomainEntity.cs:195-200 | The loop stores the rendered value of each member up to the first null one, where `.ToString()` throws (`SnapshotOf` of that prefix). It reports whether it got through every member. Dictionary.Add never meets a key twice. |
| DomainEntities.Entity.HasSignatureChanged | Groove.Domain/Entities/DomainEntity.cs:191-207 | The outcome and the new snapshot are what `CheckSignature` gives, including the exceptions. |
| EntitySpec.CheckSignature | Groove.Domain/Entities/DomainEntity.cs:191-207 | The first call never reports a change. It reports no change exactly when no member is null, and otherwise throws. The snapshot it leaves holds only current texts of members, and all of them when none is null. A later call keeps the snapshot as it is. |
| EntitySpec.FirstNull | Groove.Domain/Entities/DomainEntity.cs:197-200 | The position of the first null member, or the number of members: every member before it is present. It is the number of members exactly when none is null. |
| EntitySpec.SnapshotOf | Groove.Domain/Entities/DomainEntity.cs:195-200 | The snapshot of present members maps exactly those members to their rendered values. |
| EntitySpec.SnapshotOfStep | Groove.Domain/Entities/DomainEntity.cs:197-200 | One more present member adds one entry, under a key not yet used when member names are distinct. |
| EntitySpec.ValueText | Groove.Domain/Entities/DomainEntity.cs:199 | Reference definition of a value's `ToString()`: a string as itself, a bool as `True`/`False`, an Int32 in decimal. |
| EntitySpec.ScanSignature | Groove.Domain/Entities/DomainEntity.cs:205-206 | Reference definition of the `Any` scan, left to right: a member with no snapshot entry throws `KeyNotFoundException`, a null member throws `NullReferenceException`, the first member whose text differs gives true, and the end gives false. |
| EntitySpec.ScanUnchanged | Groove.Domain/Entities/DomainEntity.cs:205-206 | The `Any` scan reports no change exactly when every member is present and matches its snapshot entry. |
| EntitySpec.ScanChanged | Groove.Domain/Entities/DomainEntity.cs:205-206 | The scan reports a change exactly when some member has drifted and every member before it matches. A null or missing entry after the first drift is never reached. |
| EntitySpec.ScanMatchesDrifted | Groove.Domain/Entities/DomainEntity.cs:205-206 | With a full snapshot and no null member, the scan never throws and reports the reference definition `Drifted`: some member renders differently from its entry. |
| EntitySpec.Drifted | Groove.Domain/Entities/DomainEntity.cs:205-206 | Reference definition of drift: some member renders differently from its snapshot entry. |
| EntitySpec.ScanAgree | Groove.Domain/Entities/DomainEntity.cs:205-206 | The scan reads only signature values. |
| EntitySpec.ScanSkipsMatches | Groove.Domain/Entities/DomainEntity.cs:205-206 | Members that match their entries are passed over: the scan goes on with the rest. |
| EntitySpec.CheckAgree | Groove.Domain/Entities/DomainEntity.cs:191-207 | HasSignatureChanged reads only signature values: entities that agree on them get the same outcome and snapshot. |
| DomainEntities.Entity.BuildSignatureText | Groove.Domain/Entities/DomainEntity.cs:167-179 | The loop builds `Render`: one `Name:value, ` per non-null member, in declaration order. |
| EntitySpec.RenderNonEmpty | Groove.Domain/Entities/DomainEntity.cs:165 | With all values present, a non-empty signature never renders empty. So the `IsNullOrEmpty` test on the cache only fires before the first rendering. |
| EntitySpec.RenderAgree | Groove.Domain/Entities/DomainEntity.cs:169-177 | The rendering reads only signature values. |
| EntitySpec.Piece | Groove.Domain/Entities/DomainEntity.cs:173-176 | Reference definition of one `AppendFormat("{0}:{1}, ")` entry: `Name:value, ` for a non-null value, nothing for null. |
| EntitySpec.Render | Groove.Domain/Entities/DomainEntity.cs:167-180 | Reference definition of the StringBuilder text: `Name:value, ` for each non-null member, in declaration order. |
| DomainEntities.Entity.SignaturePropertiesString | Groove.Domain/Entities/DomainEntity.cs:154-183 | The outcome and the caches afterwards are what `SignatureSegment` gives, including an exception from `HasSignatureChanged`. An empty signature gives and stores `""`. |
| EntitySpec.SignatureSegment | Groove.Domain/Entities/DomainEntity.cs:154-183 | The cached hash is untouched. A returned segment becomes the cached text, and an exception leaves the cached text as it was. An empty signature gives `""` and no snapshot is taken. Otherwise a snapshot exists afterwards. |
| EntitySpec.FirstSegmentIsCurrent | Groove.Domain/Entities/DomainEntity.cs:164-202 | With no null member, the first rendering is built from the current values and stores their snapshot. |
| EntitySpec.FirstSegmentThrowsOnNull | Groove.Domain/Entities/DomainEntity.cs:197-200 | A null member on the first call throws `NullReferenceException` and leaves the cached text as it was. |
| EntitySpec.PartialSnapshotThenKeyNotFound | Groove.Domain/Entities/DomainEntity.cs:195-206 | After a first call throws at a null member, the stored snapshot lacks that member, so a later call whose earlier members kept their values throws `KeyNotFoundException`, whatever the null member holds by then. |
| EntitySpec.RebuiltAfterDrift | Groove.Domain/Entities/DomainEntity.cs:165-206 | When the scan reports drift, the segment is rebuilt from the current values with nulls skipped, and the snapshot is kept. Members after the first drifted one may be null. |
| EntitySpec.CachedWithoutDrift | Groove.Domain/Entities/DomainEntity.cs:165-182 | When the scan reports no drift, a non-empty cached segment is returned and all caches stay as they are. |
| EntitySpec.DriftBeforeNullRenders | Groove.Domain/Entities/DomainEntity.cs:165-206 | Signature `[A, B]` rendered with A="a" and B="b", then A="c" and B=null: the scan stops at A, nothing throws, and the segment is `A:c, `. |
| EntitySpec.SegmentIgnoresNonSignature | Groove.Domain/Entities/DomainEntity.cs:154-207 | Entities that agree on the signature values get the same segment and the same caches. |
| EntitySpec.SnapshotMatches | Groove.Domain/Entities/DomainEntity.cs:195-206 | A snapshot taken from the current values matches them. |
| EntitySpec.SegmentIdempotent | Groove.Domain/Entities/DomainEntity.cs:154-207 | Once a rendering has returned, rendering again with nothing changed returns the same segment and leaves the caches as they are. |
| EntitySpec.ToStringStableUnderNonSignatureChange | Groove.Domain/Entities/DomainEntity.cs:360-365 | Render, change a non-signature property, and render again from the caches left: the second text and caches equal the first. |
| EntitySpec.IdText | Groove.Domain/Entities/DomainEntity.cs:363 | How `String.Format` renders the Id: Int32 in decimal, a string as itself, null as empty, and a reference id by the runtime. |
| EntitySpec.EntityText | Groove.Domain/Entities/DomainEntity.cs:363-364 | Reference definition of the ToString text: `Name: [Id:id] (segmentIsTransient:b)`, where b is True or False. |
| EntitySpec.StaleAfterRevert | Groove.Domain/Entities/DomainEntity.cs:165-206 | After render with a, change to b, then back to a, the text built for b is returned. This is the code as written. |
| DomainEntities.Entity.ToString | Groove.Domain/Entities/DomainEntity.cs:360-365 | The text is `EntityText`, that is `Name: [Id:id] (segmentIsTransient:b)`, with the segment of `SignatureSegment`. An exception from the segment propagates. The caches change as that function says. |
| DomainEntities.Entity.GetHashCode | Groove.Domain/Entities/DomainEntity.cs:308-353 | The outcome and the caches afterwards are what `HashStep` gives. |
| EntitySpec.HashStep | Groove.Domain/Entities/DomainEntity.cs:308-353 | The transient path never writes the cached hash. The persistent path never throws and stores and returns the hash. Neither touches the cached text. With no cached hash nothing throws. |
| EntitySpec.PresentValues | Groove.Domain/Entities/DomainEntity.cs:326-328 | The non-null signature values in order: never more than there are members. When none is null, there is one per member and each is that member's value. |
| EntitySpec.PresentValuesMembers | Groove.Domain/Entities/DomainEntity.cs:326-328 | A value is in the list exactly when some signature member holds it. |
| EntitySpec.HashFold | Groove.Domain/Entities/DomainEntity.cs:329 | Reference definition of `Aggregate`: a left fold of `(current*31) ^ hash(value)` in wrapping 32-bit arithmetic. |
| EntitySpec.Combine | Groove.Domain/Entities/DomainEntity.cs:329 | Reference definition of one hash step: `(current * HashMultiplier) ^ next` with HashMultiplier 31, in unchecked 32-bit arithmetic. |
| EntitySpec.TransientHash | Groove.Domain/Entities/DomainEntity.cs:324-331 | Reference definition of the transient hash: the fold seeded with the type hash over the non-null values, or `base.GetHashCode()` for an empty signature. |
| EntitySpec.PersistentHash | Groove.Domain/Entities/DomainEntity.cs:347-350 | Reference definition of the persistent hash: `(typeHash*31) ^ idHash`. |
| EntitySpec.HashFoldStep | Groove.Domain/Entities/DomainEntity.cs:329 | The fold is a left fold: one more value multiplies the hash by 31 (wrapping) and xors in the value's hash. |
| EntitySpec.PresentValuesAgree | Groove.Domain/Entities/DomainEntity.cs:326-328 | Entities that agree on the signature have the same non-null values. |
| EntitySpec.TransientHashIgnoresNonSignature | Groove.Domain/Entities/DomainEntity.cs:319-331 | The transient hash reads only the signature values. |
| EntitySpec.PersistentHashCachedForever | Groove.Domain/Entities/DomainEntity.cs:338-352 | The first persistent call stores `(typeHash*31)^idHash`. Every later persistent call returns it, whatever the values are then. |
| EntitySpec.TransientHashWritesNothing | Groove.Domain/Entities/DomainEntity.cs:310-335 | With no cached hash, the transient path returns the fold (or the reference hash for an empty signature) and changes no cache. |
| EntitySpec.EqualPersistentHashEqual | Groove.Domain/Entities/DomainEntity.cs:338-352 | Equal persistent entities with no cached hash hash equal. |
| EntitySpec.EqualTransientHashEqual | Groove.Domain/Entities/DomainEntity.cs:310-335 | Equal transient entities with no cached hash hash equal. |
| DomainEntities.Entity.Cast | Groove.Domain/Entities/DomainEntity.cs:281 | `obj as DomainEntity<T>` gives the argument exactly when it is an entity with the same key type, and null otherwise. |
| DomainEntities.Entity.Equals | Groove.Domain/Entities/DomainEntity.cs:279-293 | The result is the `EntityEquals` decision on the cast argument. The memo is consulted exactly when the signature comparison is reached. |
| EntitySpec.MismatchIsInequality | Groove.Domain/Entities/DomainEntity.cs:127-128 | The two `where` filters select exactly the members whose values differ. |
| EntitySpec.EqualsReflexive | Groove.Domain/Entities/DomainEntity.cs:283-286 | Any entity equals itself. |
| EntitySpec.EqualsNull | Groove.Domain/Entities/DomainEntity.cs:281-288 | Equals is false for null, and for anything that is not a `DomainEntity<T>` with the same T. |
| EntitySpec.DifferentTypesNeverEqual | Groove.Domain/Entities/DomainEntity.cs:105-292 | Entities of different types are never equal, even with the same id or signature. |
| EntitySpec.SameNameDifferentClassUnequal | Groove.Domain/Entities/DomainEntity.cs:145-148 | Type identity is the runtime Type object: two classes with the same Name and the same signature members are told apart, even with the same id and values. |
| EntitySpec.SameIdEqual | Groove.Domain/Entities/DomainEntity.cs:105-288 | Same type with an equal non-default id: equal whatever else differs. |
| EntitySpec.DifferentIdsUnequal | Groove.Domain/Entities/DomainEntity.cs:105-292 | Both persistent with different ids: never equal, even with identical signatures. |
| EntitySpec.SignatureEquality | Groove.Domain/Entities/DomainEntity.cs:120-292 | Same type with one side transient: equal iff the signature is non-empty and every member is both null or both non-null and Equal. |
| EntitySpec.NullAgainstValueUnequal | Groove.Domain/Entities/DomainEntity.cs:127-128 | One null value against one non-null value is a mismatch. |
| EntitySpec.EmptySignatureDistinctUnequal | Groove.Domain/Entities/DomainEntity.cs:137 | With no signature members, distinct instances that are not equal by id are unequal. |
| EntitySpec.EqualsSymmetric | Groove.Domain/Entities/DomainEntity.cs:279-293 | Between distinct instances, Equals is symmetric. |
| EntitySpec.EqualsNotTransitive | Groove.Domain/Entities/DomainEntity.cs:288-292 | One persistent entity equals a transient one and the transient one equals another persistent entity, yet the two persistent entities differ. |
| ListOps.Added | Groove.Domain/Entities/User.cs:70-77 | The guarded Add: the element is present afterwards, nothing else joins, the list only grows, and it grows by one only when the element was absent. |
| ListOps.AddedIdempotent | Groove.Domain/Entities/User.cs:70-77 | Adding twice is adding once. |
| ListOps.AddedPreservesNoDuplicates | Groove.Domain/Entities/User.cs:70-77 | The guarded Add never creates a duplicate. |
| ListOps.IndexOf | Groove.Domain/Entities/User.cs:88 | The first position of the element, or -1 exactly when it is absent. |
| ListOps.Removed | Groove.Domain/Entities/User.cs:86-93 | Remove drops one occurrence (multiset difference) and leaves a list without the element unchanged. When the element is present, the result is the list with the position `IndexOf` finds (the first one) cut out, in order. |
| ListOps.RemovedFirstOccurrence | Groove.Domain/Entities/User.cs:86-93 | There is a position holding the element with no earlier copy, and the result is the list with that position cut out. |
| ListOps.RemovedKeepsOthers | Groove.Domain/Entities/User.cs:86-93 | Removal does not change whether any other element is present. |
| ListOps.RemovedLeavesNone | Groove.Domain/Entities/User.cs:84-94 | On a duplicate-free list, the element is gone afterwards. |
| ListOps.RemovedPreservesNoDuplicates | Groove.Domain/Entities/User.cs:84-94 | Removal keeps a list duplicate-free. |
| ListOps.RemovedAfterAdded | Groove.Domain/Entities/User.cs:68-94 | Removing what was just added to a list that lacked it gives the list back. |
| Accounts.LinksAgree | Groove.Domain/Entities/User.cs:68-94 | Reference definition of the two-sided link: a user lists a group exactly when the group lists the user, and no list holds an element twice. |
| Accounts.Link | Groove.Domain/Entities/User.cs:68-78 | The tables after an add helper: the user's list and the group's list each become `Added` of their old value, and no table gains or loses a key. |
| Accounts.Unlink | Groove.Domain/Entities/User.cs:84-94 | The tables after a remove helper: each list becomes `Removed` of its old value, and no table gains or loses a key. |
| Accounts.LinkKeepsAgreement | Groove.Domain/Entities/User.cs:68-78 | From two agreeing link tables, an add helper leaves them agreeing: mutual membership and no duplicates. The pair is linked on both sides. |
| Accounts.UnlinkKeepsAgreement | Groove.Domain/Entities/User.cs:84-94 | A remove helper keeps the tables agreeing and leaves the pair unlinked on both sides. |
| Accounts.UnlinkUndoesLink | Groove.Domain/Entities/User.cs:68-94 | Removing a pair that was just added, and was not linked before, restores both tables. |
| Accounts.User.constructor | Groove.Domain/Entities/User.cs:14-22 | The three strings are empty, both flags are false and there are no groups. |
| Accounts.User.AddUserGroup | Groove.Domain/Entities/User.cs:68-78 | Each list becomes `Added` of its old value, so both contain the other. Duplicate-free lists stay duplicate-free. Only these two lists change. |
| Accounts.User.RemoveUserGroup | Groove.Domain/Entities/User.cs:84-94 | Each list becomes `Removed` of its old value. On duplicate-free lists, neither holds the other afterwards. Only these two lists change. |
| Accounts.User.SetUsername | Groove.Domain/Entities/User.cs:102-109 | Username is set. FriendlyName takes the new value exactly when it was null or empty, and is otherwise untouched. A non-empty username leaves a non-empty friendly name. |
| Accounts.UserGroup.constructor | Groove.Domain/Entities/UserGroup.cs:15-21 | Name and description are empty, the group is not locked and it has no users. |
| Accounts.UserGroup.AddUser | Groove.Domain/Entities/UserGroup.cs:39-49 | Leaves the same pair of lists as `User.AddUserGroup`. Only this group's and the user's lists change. |
| Accounts.UserGroup.RemoveUser | Groove.Domain/Entities/UserGroup.cs:51-61 | Leaves the same pair of lists as `User.RemoveUserGroup`. |
| PasswordValidation.ValidatePasswordLength.constructor | Groove.Domain/EntityValidation/ValidatePasswordLengthAttribute.cs:18-26 | MinCharacters is the argument. It is a constant and never changes afterwards. |
| PasswordValidation.ValidatePasswordLength.IsValid | Groove.Domain/EntityValidation/ValidatePasswordLengthAttribute.cs:47-51 | Only strings are valid. A string of at least MinCharacters characters is valid, and one of fewer than MinCharacters/2 characters (twice its character count below MinCharacters) is not. |
| PasswordValidation.ValidatePasswordLength.BmpLength | Groove.Domain/EntityValidation/ValidatePasswordLengthAttribute.cs:50 | For text inside the Basic Multilingual Plane, a string is valid iff its character count is at least MinCharacters. |
| PasswordValidation.SurrogatePairsCountTwice | Groove.Domain/EntityValidation/ValidatePasswordLengthAttribute.cs:50 | Three emoji take six UTF-16 code units, so they pass a minimum of six. |
| PasswordValidation.ValidatePasswordLength.RejectsNonStrings | Groove.Domain/EntityValidation/ValidatePasswordLengthAttribute.cs:49-50 | Null and any non-string object are invalid. |
| PasswordValidation.ValidatePasswordLength.NonPositiveAcceptsAll | Groove.Domain/EntityValidation/ValidatePasswordLengthAttribute.cs:50 | A threshold of 0 or less accepts every string. |
| PasswordValidation.ThresholdMonotone | Groove.Domain/EntityValidation/ValidatePasswordLengthAttribute.cs:50 | A value valid under a threshold is valid under every lower one. |
| EntityScenarios.StubSignatureMembers | Groove.Domain.Tests/Entities/DomainEntityTests.cs:182-198 | The stub's signature members are exactly `[Property1]`. |
| EntityScenarios.TransienceOfNewStubs | Groove.Domain.Tests/Entities/DomainEntityTests.cs:141-172 | A default-constructed stub is transient and one built with id 1 is not. |
| EntityScenarios.EmptyPropertyText | Groove.Domain.Tests/Entities/DomainEntityTests.cs:205-217 | The text is `DomainEntityStub`1: [Id:0] (Property1:, IsTransient:True)`. |
| EntityScenarios.SignatureFollowsSignatureChanges | Groove.Domain.Tests/Entities/DomainEntityTests.cs:223-238 | The text shows `Initial`, and after Property1 changes it shows `Changed`. |
| EntityScenarios.SignatureIgnoresOtherChanges | Groove.Domain.Tests/Entities/DomainEntityTests.cs:245-260 | Changing Property2 leaves the text as it was. |
| EntityScenarios.PersistentHashesMatch | Groove.Domain.Tests/Entities/DomainEntityTests.cs:270-288 | Two stubs with id 1 hash alike, whatever their reference hashes. |
| EntityScenarios.TransientHashesMatch | Groove.Domain.Tests/Entities/DomainEntityTests.cs:312-330 | Two transient stubs with the same Property1 hash alike. |
| EntityScenarios.PersistentEqualityOutcomes | Groove.Domain.Tests/Entities/DomainEntityTests.cs:396-431 | Same id gives equal and different ids give unequal. A stub of another type with the same id is unequal (test at lines 501-518). |
| EntityScenarios.TransientEqualityOutcomes | Groove.Domain.Tests/Entities/DomainEntityTests.cs:434-497 | The same signature gives equal, a different Property1 gives unequal, and another type gives unequal. |
| EntityScenarios.LinkThenUnlink | Groove.Domain/Entities/User.cs:68-94 | New user and group, linked and unlinked: both lists end empty. |
| EntityScenarios.LinkFromBothSides | Groove.Domain/Entities/UserGroup.cs:39-49 | Calling both add helpers leaves the lists as one call does. |
| EntityScenarios.AddThenRemove | Groove.Domain/Entities/User.cs:84-94 | `g.AddUser(u)` followed by `u.RemoveUserGroup(g)` on an unlinked pair restores both lists. |
| EntityScenarios.UsernameThenRename | Groove.Domain/Entities/User.cs:102-109 | The first username becomes the friendly name and a second one does not replace it. |

## Left out

- Reflection (`GetType().GetProperties()`, `Attribute.IsDefined`, `PropertyInfo.GetValue`): each entity type carries its signature members as an ordered list of names, and the property values as a map. `DomainSignatureAttribute` has no behaviour.
- The static signature-member dictionary exists once per closed `DomainEntity<T>` and per thread (`[ThreadStatic]`). The model gives each entity a `SignatureIndex` reference fixed at construction and does not itself tie entities of one `T` and one thread to one dictionary: which entities share it is up to the caller. Threads are not modelled.
- `GetTypeUnproxied` is taken to be `GetType`, with no NHibernate proxies. `[Serializable]` is not modelled, and `RowTimestamp` is an opaque field.
- Concrete hash values: the hashes of a type, of a value and of an id, and `base.GetHashCode()`, are uninterpreted. The tests that expect different hashes are probabilistic and are not modelled.
- There is no hash/equality law for a persistent entity against a transient one. Such a pair can be equal yet hash by different paths, so the two laws are stated only for both-persistent and both-transient pairs.
- Exceptions are outcomes rather than control flow. A throw from `HasSignatureChanged` leaves the state the code leaves at that point: the partial snapshot stays stored, and the cached text is unchanged.
- `Int32.ToString()` and `String.Format` use the current culture. The model writes an ASCII minus sign, as the invariant culture and the usual cultures do. A culture whose negative sign is another character (U+2212, say) is not modelled.
- Strings are sequences of Unicode scalar values, so a lone UTF-16 surrogate cannot occur in a password.
- PasswordValidation.ValidatePasswordLength.IsValid: its contract bounds the decision by the character count from both sides. Between those bounds the decision is the UTF-16 length itself, as `BmpLength` and `SurrogatePairsCountTwice` show.
- ToString, Equals and hashing cover three value kinds: string, bool and Int32. Values compare by structural equality, which is what `Equals` does on those kinds.
- Identifiers cover three key kinds: Int32, string and reference types. Each reference type is told apart by an abstract class handle, and the text of a reference-typed id comes from the runtime.
- EntitySpec.SameNonDefaultId: `Id.Equals(compareTo.Id)` on a reference key dispatches to the key type's `Equals`, which may be overridden. The model compares reference ids by object identity (equal handles), so a key type whose `Equals` is value-based is not modelled.
- DomainEntities.Entity.constructor: the signature members of a type are keyed by name and must be distinct (`Distinct`, also required by `WithId`, `TakeSnapshot` and kept in `Valid`). Reflection can list two `[DomainSignature]` properties with one name, when a subclass re-declares a base property with `new`. The code then throws `ArgumentException` from `Dictionary.Add` on the first `HasSignatureChanged`, and the two properties read different fields. A name-keyed value map cannot express either, so such types are outside the model.
- Accounts.User.AddUserGroup: the argument is a non-null `UserGroup`. A null argument makes the code throw `NullReferenceException` at its first statement, before either list changes; that path is not modelled. The same holds for RemoveUserGroup, and for a null `User` passed to UserGroup.AddUser and UserGroup.RemoveUser.
- The cached transient hash: nothing in DomainEntity ever writes a hash while the entity is transient. A cached hash left from a persistent phase is handled as the code does.
- Lists are sequences held in a field. Two entities sharing one list object (aliasing) is not modelled.
- `List.Contains` and `Remove` on users and groups compare by object identity. The `Utilities.Domain.DomainEntity` base class of `User` and `UserGroup`, which may override `Equals`, is not part of this model.
- Accounts.User.AddUserGroup: the agreement of all users' and groups' lists is stated on link tables (`LinksAgree`, `LinkKeepsAgreement`, `UnlinkKeepsAgreement`) rather than on the heap. The methods state each list's new value, which is what `Link` and `Unlink` apply to the tables. This also holds for RemoveUserGroup, AddUser and RemoveUser.
- `PropertiesMustMatchAttribute` and both `FormatErrorMessage` methods: they depend on `TypeDescriptor` reflection and culture-dependent formatting.
- Plain property setters (`FriendlyName`, `EmailAddress`, `InActive`, `Deleted`, `Name`, `Description`) are bare field assignments and need no method.
