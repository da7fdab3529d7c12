/// The filter that keeps favourite contacts, and its `equals`.
module FavouritePredicate {
  import opened Persons

  /// What `equals` may be handed. A predicate object is identified by its
  /// reference, modelled as `id`.
  datatype Object =
    | PersonIsFavouriteContact(id: nat)
    | NameContainsKeywords(keywords: seq<string>)
    | OtherObject

  /// `test`: the person is kept exactly when it is marked favourite.
  function Test(p: Person): (r: bool)
    ensures r <==> p.favourite == Favourite(true)
  {
    p.favourite.isFavourite
  }

  /// `equals` of the predicate object `self`: true for the same object and
  /// for any name-keyword predicate; false otherwise.
  function Equals(self: nat, other: Object): (r: bool)
    ensures other.PersonIsFavouriteContact? ==> (r <==> other.id == self)
    ensures other.NameContainsKeywords? ==> r
    ensures other.OtherObject? ==> !r
  {
    other == PersonIsFavouriteContact(self) || other.NameContainsKeywords?
  }

  /// `test` reads no field of the person other than its favourite status.
  lemma TestDependsOnlyOnFavourite(p: Person, q: Person)
    requires p.favourite == q.favourite
    ensures Test(p) == Test(q)
  {
  }

  /// Every object is equal to itself.
  lemma EqualsReflexive(self: nat)
    ensures Equals(self, PersonIsFavouriteContact(self))
  {
  }

  /// Any name-keyword predicate compares equal, whatever its keywords.
  lemma EqualsAnyNameKeywords(self: nat, keywords: seq<string>)
    ensures Equals(self, NameContainsKeywords(keywords))
  {
  }

  /// A distinct favourite predicate, although it accepts exactly the same
  /// persons, compares unequal; so does any unrelated object.
  lemma EqualsRejectsDistinctInstance(self: nat, other: nat)
    requires self != other
    ensures !Equals(self, PersonIsFavouriteContact(other))
    ensures !Equals(self, OtherObject)
  {
  }

  /// The evidently intended `equals`: any favourite predicate compares
  /// equal, since all of them accept the same persons, and nothing else does.
  function EqualsCorrected(self: nat, other: Object): (r: bool)
    ensures r <==> other.PersonIsFavouriteContact?
  {
    other == PersonIsFavouriteContact(self) || other.PersonIsFavouriteContact?
  }

  /// The corrected `equals` is reflexive, symmetric between favourite
  /// predicates and rejects name-keyword predicates, which the written one
  /// accepts.
  lemma EqualsCorrectedProperties(self: nat, other: nat, keywords: seq<string>)
    ensures EqualsCorrected(self, PersonIsFavouriteContact(self))
    ensures EqualsCorrected(self, PersonIsFavouriteContact(other))
            == EqualsCorrected(other, PersonIsFavouriteContact(self))
    ensures !EqualsCorrected(self, NameContainsKeywords(keywords))
    ensures Equals(self, NameContainsKeywords(keywords))
  {
  }
}
