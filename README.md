# Unassign-tag command of a contact-management address book

This project models the command core of a desktop address book, plus two
small helpers:

- The `unassign` command removes one created tag from one contact. It targets the contact by its zero-based position in the displayed list (`execute`) or as the contact in the detailed contact view (`executeInDetailedView`).
- The command checks three things in a fixed order. The tag must have been created. In index mode the index must be in range. The contact must carry the tag. Only then does the command build a copy of the contact without that tag and swap it in with a single `setPerson`. In detailed-view mode it also points the view at the edited contact.
- The favourite-contact filter `PersonIsFavouriteContactPredicate` is modelled with its `equals`.
- The test builder `PersonBuilder` is modelled: a mutable object whose setters each overwrite one field.

Modules:

- `Wrappers` (`wrappers.dfy`): `Option` and `Result`.
- `Persons` (`person.dfy`): the value objects and the immutable ten-field `Person`.
- `AddressModel` (`model.dfy`): the `Model` class. It holds the displayed list (`persons`), the created tags and the detailed-view contact. `setPerson` replaces the first occurrence of its target and fails when the target is absent.
- `UnassignTag` (`unassign_tag_command.dfy`): the command. `UnassignByIndex` and `UnassignInDetailedView` are pure functions over a `ModelState` snapshot. The imperative `Execute` and `ExecuteInDetailedView` mutate a `Model`, and their contracts tie them to those functions. Errors are values of `CommandError`, not exceptions.
- `FavouritePredicate` (`favourite_predicate.dfy`): `test` and `equals`.
- `TestUtil` (`person_builder.dfy`): the `PersonBuilder` class.

## Model

| member | source | states |
|---|---|---|
| `AddressModel.IndexOf` | src/main/java/seedu/address/logic/commands/UnassignTagCommand.java:88 | the position `setPerson` edits: the first occurrence of the target, or -1 exactly when it is absent |
| `AddressModel.IndexOfDistinct` | src/main/java/seedu/address/logic/commands/UnassignTagCommand.java:81-88 | in a list without duplicates, the person taken at index i is found at i |
| `AddressModel.ReplacePerson` | src/main/java/seedu/address/logic/commands/UnassignTagCommand.java:88 | `setPerson` succeeds iff the target is listed; it then changes exactly the first occurrence to the edited person (length kept, multiset loses the target and gains the edited person) |
| `AddressModel.Model.SetPerson` | src/main/java/seedu/address/logic/commands/UnassignTagCommand.java:109 | the mutating `setPerson`: reports whether the target was found, and the new list is the replacement (unchanged when not found); tags and detailed view untouched |
| `AddressModel.Model.SetDetailedContactView` | src/main/java/seedu/address/logic/commands/UnassignTagCommand.java:110 | only the detailed-view contact changes |
| `UnassignTag.ForIndex` | src/main/java/seedu/address/logic/commands/UnassignTagCommand.java:51-54 | the index constructor keeps the given index and tag name |
| `UnassignTag.ForDetailedView` | src/main/java/seedu/address/logic/commands/UnassignTagCommand.java:61-64 | the tag-only constructor has no index |
| `UnassignTag.CanRemoveTag` | src/main/java/seedu/address/logic/commands/UnassignTagCommand.java:148-154 | a tag can be removed iff the person carries it, i.e. iff removing it shrinks the tag set |
| `UnassignTag.RemoveTagFromNewPerson` | src/main/java/seedu/address/logic/commands/UnassignTagCommand.java:121-140 | the new person's tags are the old tags minus the tag; the other nine fields are equal; the person is unchanged iff the tag could not be removed |
| `UnassignTag.RemoveThenCannotRemove` | src/main/java/seedu/address/logic/commands/UnassignTagCommand.java:136-153 | `canRemoveTag` after a removal: the removed tag is gone, every other tag's removability is unchanged |
| `UnassignTag.UnassignByIndex` | src/main/java/seedu/address/logic/commands/UnassignTagCommand.java:67-90 | `execute` on a snapshot: a failure leaves the model as it was; the tags, the detailed view and the list length never change; a success is unflagged, needs an in-range index whose person carries the tag, and lists an edited person whose tags are the old ones minus the tag |
| `UnassignTag.UnassignInDetailedView` | src/main/java/seedu/address/logic/commands/UnassignTagCommand.java:93-113 | `executeInDetailedView` on a snapshot: a failure leaves the model as it was; the tags and list length never change; a success is flagged, needs the viewed person to carry the tag, and makes the view the edited person, which is listed and has the old tags minus the tag |
| `UnassignTag.Execute` | src/main/java/seedu/address/logic/commands/UnassignTagCommand.java:67-90 | the index-mode result and the new model are those of `UnassignByIndex` on the old model; a missing index is allowed only for an unknown tag; setPerson always finds the person |
| `UnassignTag.ExecuteInDetailedView` | src/main/java/seedu/address/logic/commands/UnassignTagCommand.java:93-113 | the detailed-view result and the new model are those of `UnassignInDetailedView` on the old model |
| `UnassignTag.UnknownTagReportedFirst` | src/main/java/seedu/address/logic/commands/UnassignTagCommand.java:69-100 | an unknown tag fails with the unknown-tag error in both modes, whatever the index (absent or out of range), with the model unchanged |
| `UnassignTag.InvalidIndexReported` | src/main/java/seedu/address/logic/commands/UnassignTagCommand.java:76-79 | a created tag with an index at or past the list length fails with the invalid-index error, model unchanged |
| `UnassignTag.NotTaggedReported` | src/main/java/seedu/address/logic/commands/UnassignTagCommand.java:83-106 | a target without the tag fails with the not-tagged error in both modes, model unchanged |
| `UnassignTag.ByIndexSucceedsIff` | src/main/java/seedu/address/logic/commands/UnassignTagCommand.java:67-90 | index mode succeeds iff tag created, index in range and person tagged; every failure leaves the model equal to the old one |
| `UnassignTag.InDetailedViewSucceedsIff` | src/main/java/seedu/address/logic/commands/UnassignTagCommand.java:93-113 | detailed mode succeeds iff tag created, viewed person tagged and listed; every failure leaves the model equal to the old one |
| `UnassignTag.ByIndexSuccess` | src/main/java/seedu/address/logic/commands/UnassignTagCommand.java:81-89 | on success the result is unflagged and carries the edited person; the first occurrence of the target is replaced; tags and detailed view untouched |
| `UnassignTag.ByIndexSuccessInPlace` | src/main/java/seedu/address/logic/commands/UnassignTagCommand.java:81-88 | with no duplicate persons, success replaces exactly the person at the index and nothing else |
| `UnassignTag.InDetailedViewSuccess` | src/main/java/seedu/address/logic/commands/UnassignTagCommand.java:102-112 | on success the result is flagged as a detailed-view result; the list entry and the view both become the edited person; tags untouched |
| `UnassignTag.ByIndexSecondUnassignFails` | src/main/java/seedu/address/logic/commands/UnassignTagCommand.java:83-88 | with no duplicate persons, repeating a successful index-mode unassign fails with not-tagged |
| `UnassignTag.InDetailedViewSecondUnassignFails` | src/main/java/seedu/address/logic/commands/UnassignTagCommand.java:104-110 | repeating a successful detailed-view unassign fails with not-tagged |
| `UnassignTag.UnassignKeepsTagsRegistered` | src/main/java/seedu/address/logic/commands/UnassignTagCommand.java:87-110 | if every listed and viewed person's tags were created before, the same holds after either mode |
| `AddressModel.ReplaceKeepsNoDuplicates` | src/main/java/seedu/address/logic/commands/UnassignTagCommand.java:88 | replacing one entry of a duplicate-free list by a different person keeps it duplicate-free iff that person is not already listed |
| `UnassignTag.UnassignKeepsNoDuplicatesIff` | src/main/java/seedu/address/logic/commands/UnassignTagCommand.java:87-109 | after a success in either mode, a duplicate-free list stays duplicate-free iff the edited person was not already listed |
| `UnassignTag.ExampleUnassignTwice` | src/main/java/seedu/address/logic/commands/UnassignTagCommand.java:67-90 | "Amy Bee" tagged {friends, colleagues} keeps only colleagues; the second identical command fails with not-tagged |
| `UnassignTag.Equals` | src/main/java/seedu/address/logic/commands/UnassignTagCommand.java:157-169 | equal iff the other object is an unassign command with the same optional index and the same raw tag name |
| `UnassignTag.EqualsProperties` | src/main/java/seedu/address/logic/commands/UnassignTagCommand.java:157-169 | reflexive, symmetric and transitive; the index and detailed forms are never equal; "friends" and "Friends" differ; other objects are unequal |
| `FavouritePredicate.Test` | src/main/java/seedu/address/model/person/PersonIsFavouriteContactPredicate.java:11-13 | `test` accepts exactly the persons marked favourite |
| `FavouritePredicate.TestDependsOnlyOnFavourite` | src/main/java/seedu/address/model/person/PersonIsFavouriteContactPredicate.java:12 | two persons with the same favourite status get the same answer |
| `FavouritePredicate.Equals` | src/main/java/seedu/address/model/person/PersonIsFavouriteContactPredicate.java:16-19 | as written: against a favourite predicate, equal iff it is the same object; any name-keyword predicate is equal; any other object is not |
| `FavouritePredicate.EqualsReflexive` | src/main/java/seedu/address/model/person/PersonIsFavouriteContactPredicate.java:17 | a predicate equals itself |
| `FavouritePredicate.EqualsAnyNameKeywords` | src/main/java/seedu/address/model/person/PersonIsFavouriteContactPredicate.java:18 | as written, any name-keyword predicate compares equal |
| `FavouritePredicate.EqualsRejectsDistinctInstance` | src/main/java/seedu/address/model/person/PersonIsFavouriteContactPredicate.java:16-19 | a distinct favourite predicate and any unrelated object compare unequal |
| `FavouritePredicate.EqualsCorrected` | src/main/java/seedu/address/model/person/PersonIsFavouriteContactPredicate.java:16-19 | the intended equality: equal iff the other object is a favourite predicate |
| `FavouritePredicate.EqualsCorrectedProperties` | src/main/java/seedu/address/model/person/PersonIsFavouriteContactPredicate.java:16-19 | the corrected equality is reflexive, symmetric and rejects name-keyword predicates, which the written one accepts |
| `TestUtil.GetTagSet` | src/test/java/seedu/address/testutil/PersonBuilder.java:78-81 | the tag set holds exactly one tag per given name |
| `TestUtil.DefaultFields` | src/test/java/seedu/address/testutil/PersonBuilder.java:23-51 | the defaults: name "Amy Bee", not favourite, no tags, empty notes |
| `TestUtil.CopyFields` | src/test/java/seedu/address/testutil/PersonBuilder.java:56-65 | the copied fields are the person's name, phone, email, address, favourite status, tags and notes contents, and its first deadline when it has one |
| `TestUtil.BuildPerson` | src/test/java/seedu/address/testutil/PersonBuilder.java:131-133 | the built person carries the fields, with the one deadline as its deadline list, normal importance and no images |
| `TestUtil.BuildThenCopy` | src/test/java/seedu/address/testutil/PersonBuilder.java:131-133 | copying a built person yields the builder's fields |
| `TestUtil.CopyThenBuild` | src/test/java/seedu/address/testutil/PersonBuilder.java:56-65 | a copying builder rebuilds a person unchanged iff that person has one deadline, normal importance and no images |
| `TestUtil.PersonBuilder.constructor` | src/test/java/seedu/address/testutil/PersonBuilder.java:42-51 | a new builder holds the default fields |
| `TestUtil.PersonBuilder.Copy` | src/test/java/seedu/address/testutil/PersonBuilder.java:56-65 | the copy constructor takes name, phone, email, address, notes, deadline, favourite status and tags from the person |
| `TestUtil.PersonBuilder.WithName` | src/test/java/seedu/address/testutil/PersonBuilder.java:70-73 | only the name changes; the same builder is returned |
| `TestUtil.PersonBuilder.WithTags` | src/test/java/seedu/address/testutil/PersonBuilder.java:78-81 | the tag set is replaced whole by the given names' tags, not added to; nothing else changes; same builder returned |
| `TestUtil.PersonBuilder.WithAddress` | src/test/java/seedu/address/testutil/PersonBuilder.java:86-89 | only the address changes; same builder returned |
| `TestUtil.PersonBuilder.WithDeadline` | src/test/java/seedu/address/testutil/PersonBuilder.java:94-97 | only the deadline changes; same builder returned |
| `TestUtil.PersonBuilder.WithPhone` | src/test/java/seedu/address/testutil/PersonBuilder.java:102-105 | only the phone changes; same builder returned |
| `TestUtil.PersonBuilder.WithEmail` | src/test/java/seedu/address/testutil/PersonBuilder.java:110-113 | only the email changes; same builder returned |
| `TestUtil.PersonBuilder.WithNotes` | src/test/java/seedu/address/testutil/PersonBuilder.java:118-121 | only the notes change; same builder returned |
| `TestUtil.PersonBuilder.WithFavourite` | src/test/java/seedu/address/testutil/PersonBuilder.java:126-129 | only the favourite status changes; same builder returned |
| `TestUtil.PersonBuilder.Build` | src/test/java/seedu/address/testutil/PersonBuilder.java:131-133 | the built person has exactly the builder's fields, with its one deadline as the deadline list, normal importance and no images; the builder is not modified |

## Left out

- Message texts (`String.format`, `Person.toString`) are not modelled. A result is a `CommandError` or a `CommandResult` holding the edited person and the detailed-view flag.
- `Tag` is compared by its exact name. The usage text calls tag names case-insensitive, but `Tag` is not part of this model.
- `Index` is not part of this model; an index is a zero-based `nat`.
- Value-object validation (`Name`, `Phone`, `Email`, `Address`, `Deadline`, `Notes`, `ImageDetailsList`) is not modelled; each value object is a plain wrapper.
- `Favourite.valueOf` is not part of this model. `FavouriteValueOf` assumes the token "true" means favourite and any other token does not.
- `Model`, `UniquePersonList` and the sorted or filtered view are not part of this model. Their assumed contract: the displayed list is the person list, and `setPerson` replaces the first occurrence of its target and fails if the target is absent. The duplicate-person check `setPerson` may also perform is not modelled.
- The model does not keep the rule that the address book never holds two equal persons. If the edited person is already listed, a successful unassign leaves it in the list twice, a state the source forbids. `UnassignKeepsNoDuplicatesIff` gives the exact condition under which the rule survives. `ByIndexSuccessInPlace` and `ByIndexSecondUnassignFails` assume the list is duplicate-free.
- A detailed-view contact is assumed always present. Outside the detailed view the source may have none, and `canRemoveTag` would then throw a null-pointer exception.
- The 8-argument `Person` constructor used by `build` is not part of this model, and neither is `Person.getDeadline`. `NewPerson` assumes the one deadline becomes the deadline list, importance is normal and there are no images. `GetDeadline` assumes the first deadline is returned, or the "*No deadline specified*" placeholder when there is none.
- `Notes.getNewNotes` and `Notes.loadNotesFromList` are not part of this model. New notes are assumed empty, and loading keeps the given list.
- `SampleDataUtil.getTagSet` is not part of this model. `GetTagSet` assumes one tag per given name.
- Aliasing of the copied tag set is not modelled. Dafny sets are values, so a builder and its source person can never share a mutable set.
- Index-mode `execute` requires an index unless the tag is unknown. The source dereferences a null index only after the unknown-tag check, so any other call without an index is a null dereference and is excluded.
- `PersonNotFound` is the unchecked exception `setPerson` throws when the detailed-view contact is no longer in the list. In index mode it cannot occur.
- The JSON storage layer and its load-time rejections (duplicate persons, duplicate tags, invalid fields) are not modelled, because the class they test is not part of this model.
- GUI rendering of the detailed view and logging are not modelled.

## Findings

| source | as written | input that shows it | evidently intended | confidence | as-written member | corrected member |
|---|---|---|---|---|---|---|
| src/main/java/seedu/address/model/person/PersonIsFavouriteContactPredicate.java:16-19 | `equals` is true for the same object and for any `NameContainsKeywordsPredicate`, and false for another favourite predicate | a favourite predicate compared with a `NameContainsKeywordsPredicate` of any keywords gives true; two distinct favourite predicates, which accept the same persons, give false | equal iff the other object is a `PersonIsFavouriteContactPredicate` (a type check copied from the keyword predicate but not renamed) | medium, not executed | `FavouritePredicate.EqualsAnyNameKeywords` | `FavouritePredicate.EqualsCorrectedProperties` |
