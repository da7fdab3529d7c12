/// The `unassign` command: removes one created tag from one person, chosen
/// either by its position in the displayed list or as the person in the
/// detailed contact view. Validation always precedes the single mutation.
module UnassignTag {
  import opened Wrappers
  import opened Persons
  import opened AddressModel

  /// `targetIndex` is zero-based; `None` is the null index of the
  /// detailed-view form of the command.
  datatype UnassignTagCommand = UnassignTagCommand(targetIndex: Option<nat>, tagName: string)

  datatype CommandError =
    | UnknownTag(tagName: string)        // the tag was never created
    | InvalidPersonDisplayedIndex        // the index is past the displayed list
    | NotTagged                          // the person does not carry the tag
    | PersonNotFound                     // setPerson could not find the person

  /// The success result: the edited person the message describes, and
  /// whether the presentation layer must refresh the detailed view.
  datatype CommandResult = CommandResult(editedPerson: Person, detailedView: bool)

  /// What one execution reports, and the model it leaves behind.
  datatype Outcome = Outcome(result: Result<CommandResult, CommandError>, after: ModelState)

  /// The index form of the command.
  function ForIndex(targetIndex: nat, tagName: string): (c: UnassignTagCommand)
    ensures c.targetIndex.Some? && c.targetIndex.value == targetIndex
    ensures c.tagName == tagName
  {
    UnassignTagCommand(Some(targetIndex), tagName)
  }

  /// The detailed-view form of the command: it has no index.
  function ForDetailedView(tagName: string): (c: UnassignTagCommand)
    ensures c.targetIndex.None?
    ensures c.tagName == tagName
  {
    UnassignTagCommand(None, tagName)
  }

  /// Whether `t` can be removed from `p`: `p` carries it, so removing it
  /// shrinks the tag set.
  function CanRemoveTag(p: Person, t: Tag): (r: bool)
    ensures r <==> t in p.tags
    ensures r <==> |p.tags - {t}| < |p.tags|
  {
    t in p.tags
  }

  /// A new person equal to `p` except that `t` is no longer among its tags.
  function RemoveTagFromNewPerson(p: Person, t: Tag): (r: Person)
    ensures r.tags == p.tags - {t}
    ensures r.name == p.name && r.phone == p.phone && r.email == p.email
    ensures r.address == p.address && r.deadlines == p.deadlines && r.notes == p.notes
    ensures r.favourite == p.favourite && r.highImportance == p.highImportance
    ensures r.images == p.images
    ensures r == p <==> !CanRemoveTag(p, t)
  {
    var newTags := p.tags - {t};
    Person(p.name, p.phone, p.email, p.address, p.deadlines, p.notes, newTags,
           p.favourite, p.highImportance, p.images)
  }

  /// Once a tag is removed it can no longer be removed; every other tag can
  /// be removed exactly when it could before.
  lemma RemoveThenCannotRemove(p: Person, t: Tag, u: Tag)
    ensures !CanRemoveTag(RemoveTagFromNewPerson(p, t), t)
    ensures u != t ==> CanRemoveTag(RemoveTagFromNewPerson(p, t), u) == CanRemoveTag(p, u)
  {
  }

  /// `execute` on a model snapshot. The index is only read once the tag is
  /// known to exist, so a missing index is harmless for an unknown tag.
  function UnassignByIndex(s: ModelState, targetIndex: Option<nat>, tagName: string): (o: Outcome)
    requires targetIndex.Some? || Tag(tagName) !in s.tags
    ensures o.result.Err? ==> o.after == s
    ensures o.after.tags == s.tags && o.after.detailed == s.detailed
    ensures |o.after.persons| == |s.persons|
    ensures o.result.Ok? ==> !o.result.value.detailedView
                             && targetIndex.Some? && targetIndex.value < |s.persons|
                             && Tag(tagName) in s.persons[targetIndex.value].tags
                             && o.result.value.editedPerson.tags
                                == s.persons[targetIndex.value].tags - {Tag(tagName)}
                             && o.result.value.editedPerson in o.after.persons
  {
    var newTag := Tag(tagName);
    if newTag !in s.tags then Outcome(Err(UnknownTag(tagName)), s)
    else if targetIndex.value >= |s.persons| then Outcome(Err(InvalidPersonDisplayedIndex), s)
    else
      var personToEdit := s.persons[targetIndex.value];
      if !CanRemoveTag(personToEdit, newTag) then Outcome(Err(NotTagged), s)
      else
        var editedPerson := RemoveTagFromNewPerson(personToEdit, newTag);
        var persons := ReplacePerson(s.persons, personToEdit, editedPerson).value;
        Outcome(Ok(CommandResult(editedPerson, false)), s.(persons := persons))
  }

  /// `executeInDetailedView` on a model snapshot.
  function UnassignInDetailedView(s: ModelState, tagName: string): (o: Outcome)
    ensures o.result.Err? ==> o.after == s
    ensures o.after.tags == s.tags && |o.after.persons| == |s.persons|
    ensures o.result.Ok? ==> o.result.value.detailedView
                             && Tag(tagName) in s.detailed.tags
                             && o.after.detailed == o.result.value.editedPerson
                             && o.after.detailed.tags == s.detailed.tags - {Tag(tagName)}
                             && o.after.detailed in o.after.persons
  {
    var newTag := Tag(tagName);
    if newTag !in s.tags then Outcome(Err(UnknownTag(tagName)), s)
    else
      var personToEdit := s.detailed;
      if !CanRemoveTag(personToEdit, newTag) then Outcome(Err(NotTagged), s)
      else
        var editedPerson := RemoveTagFromNewPerson(personToEdit, newTag);
        match ReplacePerson(s.persons, personToEdit, editedPerson)
        case None => Outcome(Err(PersonNotFound), s)
        case Some(persons) =>
          Outcome(Ok(CommandResult(editedPerson, true)), ModelState(persons, s.tags, editedPerson))
  }

  /// `execute`: the index form, mutating the model.
  method Execute(c: UnassignTagCommand, model: Model) returns (r: Result<CommandResult, CommandError>)
    requires c.targetIndex.Some? || !model.HasTag(Tag(c.tagName))
    modifies model
    ensures r == UnassignByIndex(old(model.State()), c.targetIndex, c.tagName).result
    ensures model.State() == UnassignByIndex(old(model.State()), c.targetIndex, c.tagName).after
  {
    var newTag := Tag(c.tagName);
    var tagHasBeenCreated := model.HasTag(newTag);
    if !tagHasBeenCreated {
      return Err(UnknownTag(c.tagName));
    }
    var lastShownList := model.GetSortedPersonList();
    if c.targetIndex.value >= |lastShownList| {
      return Err(InvalidPersonDisplayedIndex);
    }
    var personToEdit := lastShownList[c.targetIndex.value];
    if !CanRemoveTag(personToEdit, newTag) {
      return Err(NotTagged);
    }
    var editedPerson := RemoveTagFromNewPerson(personToEdit, newTag);
    var found := model.SetPerson(personToEdit, editedPerson);
    // the person was taken from the list, so setPerson always finds it
    assert found;
    return Ok(CommandResult(editedPerson, false));
  }

  /// `executeInDetailedView`: the detailed-view form, mutating the model.
  method ExecuteInDetailedView(c: UnassignTagCommand, model: Model)
    returns (r: Result<CommandResult, CommandError>)
    modifies model
    ensures r == UnassignInDetailedView(old(model.State()), c.tagName).result
    ensures model.State() == UnassignInDetailedView(old(model.State()), c.tagName).after
  {
    var newTag := Tag(c.tagName);
    var tagHasBeenCreated := model.HasTag(newTag);
    if !tagHasBeenCreated {
      return Err(UnknownTag(c.tagName));
    }
    var personToEdit := model.GetDetailedContactViewPerson();
    if !CanRemoveTag(personToEdit, newTag) {
      return Err(NotTagged);
    }
    var editedPerson := RemoveTagFromNewPerson(personToEdit, newTag);
    var found := model.SetPerson(personToEdit, editedPerson);
    if !found {
      return Err(PersonNotFound);
    }
    model.SetDetailedContactView(editedPerson);
    return Ok(CommandResult(editedPerson, true));
  }

  // ---------------------------------------------------------------------
  // Properties of the two entry points

  /// An unknown tag is reported before the index or the person is looked
  /// at, whatever the index is, and the model is left as it was.
  lemma UnknownTagReportedFirst(s: ModelState, targetIndex: Option<nat>, tagName: string)
    requires Tag(tagName) !in s.tags
    ensures UnassignByIndex(s, targetIndex, tagName) == Outcome(Err(UnknownTag(tagName)), s)
    ensures UnassignInDetailedView(s, tagName) == Outcome(Err(UnknownTag(tagName)), s)
  {
  }

  /// In index mode an index past the displayed list fails, model unchanged.
  lemma InvalidIndexReported(s: ModelState, targetIndex: nat, tagName: string)
    requires Tag(tagName) in s.tags && targetIndex >= |s.persons|
    ensures UnassignByIndex(s, Some(targetIndex), tagName)
            == Outcome(Err(InvalidPersonDisplayedIndex), s)
  {
  }

  /// A target that does not carry the tag fails with "not tagged" in both
  /// modes, model unchanged.
  lemma NotTaggedReported(s: ModelState, targetIndex: nat, tagName: string)
    requires Tag(tagName) in s.tags
    ensures targetIndex < |s.persons| && Tag(tagName) !in s.persons[targetIndex].tags ==>
              UnassignByIndex(s, Some(targetIndex), tagName) == Outcome(Err(NotTagged), s)
    ensures Tag(tagName) !in s.detailed.tags ==>
              UnassignInDetailedView(s, tagName) == Outcome(Err(NotTagged), s)
  {
  }

  /// Index mode succeeds exactly when the tag exists, the index is in range
  /// and the person carries the tag; every failure leaves the model as it was.
  lemma ByIndexSucceedsIff(s: ModelState, targetIndex: nat, tagName: string)
    ensures var o := UnassignByIndex(s, Some(targetIndex), tagName);
            (o.result.Ok? <==> Tag(tagName) in s.tags && targetIndex < |s.persons|
                               && Tag(tagName) in s.persons[targetIndex].tags)
            && (o.result.Err? ==> o.after == s)
  {
  }

  /// Detailed-view mode succeeds exactly when the tag exists, the viewed
  /// person carries it and is in the list; every failure changes nothing.
  lemma InDetailedViewSucceedsIff(s: ModelState, tagName: string)
    ensures var o := UnassignInDetailedView(s, tagName);
            (o.result.Ok? <==> Tag(tagName) in s.tags && Tag(tagName) in s.detailed.tags
                               && s.detailed in s.persons)
            && (o.result.Err? ==> o.after == s)
  {
  }

  /// On success in index mode the edited person is the target minus the
  /// tag, and it replaces the first occurrence of the target; the tag
  /// registry and the detailed view are untouched and the result is not a
  /// detailed-view result. With no duplicates, the replaced position is the
  /// index itself.
  lemma ByIndexSuccess(s: ModelState, targetIndex: nat, tagName: string)
    requires UnassignByIndex(s, Some(targetIndex), tagName).result.Ok?
    ensures var o := UnassignByIndex(s, Some(targetIndex), tagName);
            var target := s.persons[targetIndex];
            var edited := RemoveTagFromNewPerson(target, Tag(tagName));
            var k := IndexOf(s.persons, target);
            && o.result == Ok(CommandResult(edited, false))
            && edited.tags == target.tags - {Tag(tagName)}
            && 0 <= k <= targetIndex
            && o.after == ModelState(s.persons[k := edited], s.tags, s.detailed)
  {
  }

  /// With no duplicate persons, a successful index-mode unassign replaces
  /// exactly the person at the index and nothing else.
  lemma ByIndexSuccessInPlace(s: ModelState, targetIndex: nat, tagName: string)
    requires NoDuplicates(s.persons)
    requires UnassignByIndex(s, Some(targetIndex), tagName).result.Ok?
    ensures var o := UnassignByIndex(s, Some(targetIndex), tagName);
            o.after.persons == s.persons[targetIndex := o.result.value.editedPerson]
  {
  }

  /// On success in detailed-view mode the viewed person is replaced by the
  /// edited one in the list and in the view, and the result is flagged.
  lemma InDetailedViewSuccess(s: ModelState, tagName: string)
    requires UnassignInDetailedView(s, tagName).result.Ok?
    ensures var o := UnassignInDetailedView(s, tagName);
            var edited := RemoveTagFromNewPerson(s.detailed, Tag(tagName));
            var k := IndexOf(s.persons, s.detailed);
            && o.result == Ok(CommandResult(edited, true))
            && 0 <= k
            && o.after == ModelState(s.persons[k := edited], s.tags, edited)
  {
  }

  /// Repeating a successful index-mode unassign fails with "not tagged",
  /// provided the list holds no duplicate persons (otherwise setPerson may
  /// have edited an earlier copy of the target).
  lemma ByIndexSecondUnassignFails(s: ModelState, targetIndex: nat, tagName: string)
    requires NoDuplicates(s.persons)
    requires UnassignByIndex(s, Some(targetIndex), tagName).result.Ok?
    ensures var s1 := UnassignByIndex(s, Some(targetIndex), tagName).after;
            UnassignByIndex(s1, Some(targetIndex), tagName) == Outcome(Err(NotTagged), s1)
  {
  }

  /// Repeating a successful detailed-view unassign fails with "not tagged".
  lemma InDetailedViewSecondUnassignFails(s: ModelState, tagName: string)
    requires UnassignInDetailedView(s, tagName).result.Ok?
    ensures var s1 := UnassignInDetailedView(s, tagName).after;
            UnassignInDetailedView(s1, tagName) == Outcome(Err(NotTagged), s1)
  {
  }

  /// Removing a tag never breaks the rule that every tag a listed or viewed
  /// person carries has been created, in either mode.
  lemma UnassignKeepsTagsRegistered(s: ModelState, targetIndex: nat, tagName: string)
    requires TagsRegistered(s)
    requires s.detailed.tags <= s.tags
    ensures var o := UnassignByIndex(s, Some(targetIndex), tagName);
            TagsRegistered(o.after) && o.after.detailed.tags <= s.tags
    ensures var o := UnassignInDetailedView(s, tagName);
            TagsRegistered(o.after) && o.after.detailed.tags <= s.tags
  {
  }

  /// A successful unassign keeps a duplicate-free list duplicate-free
  /// exactly when the edited person was not already listed; otherwise the
  /// list ends up holding that person twice.
  lemma {:induction false} UnassignKeepsNoDuplicatesIff(s: ModelState, targetIndex: nat, tagName: string)
    requires NoDuplicates(s.persons)
    ensures var o := UnassignByIndex(s, Some(targetIndex), tagName);
            o.result.Ok? ==>
              (NoDuplicates(o.after.persons) <==> o.result.value.editedPerson !in s.persons)
    ensures var o := UnassignInDetailedView(s, tagName);
            o.result.Ok? ==>
              (NoDuplicates(o.after.persons) <==> o.result.value.editedPerson !in s.persons)
  {
    var o := UnassignByIndex(s, Some(targetIndex), tagName);
    if o.result.Ok? {
      ByIndexSuccess(s, targetIndex, tagName);
      var target := s.persons[targetIndex];
      ReplaceKeepsNoDuplicates(s.persons, IndexOf(s.persons, target), o.result.value.editedPerson);
    }
    var d := UnassignInDetailedView(s, tagName);
    if d.result.Ok? {
      InDetailedViewSuccess(s, tagName);
      ReplaceKeepsNoDuplicates(s.persons, IndexOf(s.persons, s.detailed), d.result.value.editedPerson);
    }
  }

  /// A worked example: "Amy Bee" tagged friends and colleagues loses
  /// friends at index 0; the same command then fails with "not tagged".
  lemma {:induction false} ExampleUnassignTwice(amy: Person)
    requires amy.name == Name("Amy Bee") && amy.tags == {Tag("friends"), Tag("colleagues")}
    ensures var s := ModelState([amy], {Tag("friends"), Tag("colleagues")}, amy);
            var o := UnassignByIndex(s, Some(0), "friends");
            && o.result.Ok?
            && o.after.persons == [amy.(tags := {Tag("colleagues")})]
            && UnassignByIndex(o.after, Some(0), "friends") == Outcome(Err(NotTagged), o.after)
  {
    var s := ModelState([amy], {Tag("friends"), Tag("colleagues")}, amy);
    assert NoDuplicates(s.persons);
    ByIndexSuccessInPlace(s, 0, "friends");
    ByIndexSecondUnassignFails(s, 0, "friends");
    assert {Tag("friends"), Tag("colleagues")} - {Tag("friends")} == {Tag("colleagues")};
  }

  // ---------------------------------------------------------------------
  // Equality

  /// What `equals` may be handed: another unassign command or any other object.
  datatype Object = UnassignTagObject(command: UnassignTagCommand) | OtherObject

  /// `equals`: same target index (both absent counts as the same) and the
  /// same tag name as raw strings.
  function Equals(c: UnassignTagCommand, other: Object): (r: bool)
    ensures r <==> other.UnassignTagObject?
                   && other.command.targetIndex == c.targetIndex
                   && other.command.tagName == c.tagName
    ensures r <==> other == UnassignTagObject(c)
  {
    if other == UnassignTagObject(c) then true
    else if !other.UnassignTagObject? then false
    else
      var e := other.command;
      e.targetIndex == c.targetIndex && c.tagName == e.tagName
  }

  /// Equality is an equivalence on commands; the two forms are never equal,
  /// and tag names are compared case-sensitively.
  lemma EqualsProperties(a: UnassignTagCommand, b: UnassignTagCommand, c: UnassignTagCommand,
                         i: nat, name: string)
    ensures Equals(a, UnassignTagObject(a))
    ensures Equals(a, UnassignTagObject(b)) == Equals(b, UnassignTagObject(a))
    ensures Equals(a, UnassignTagObject(b)) && Equals(b, UnassignTagObject(c))
            ==> Equals(a, UnassignTagObject(c))
    ensures !Equals(ForIndex(i, name), UnassignTagObject(ForDetailedView(name)))
    ensures !Equals(ForDetailedView("friends"), UnassignTagObject(ForDetailedView("Friends")))
    ensures !Equals(a, OtherObject)
  {
  }
}
