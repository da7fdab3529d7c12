/// The fluent test builder for Person values: a mutable object whose
/// setters each overwrite one field and return the builder itself.
module TestUtil {
  import opened Persons

  const DEFAULT_NAME: string := "Amy Bee"
  const DEFAULT_PHONE: string := "85355255"
  const DEFAULT_EMAIL: string := "amy@gmail.com"
  const DEFAULT_ADDRESS: string := "123, Jurong West Ave 6, #08-111"
  const DEFAULT_DEADLINE: string := NO_DEADLINE
  const DEFAULT_FAVOURITE: string := "false"

  /// The builder's eight fields, as one value.
  datatype BuilderFields = BuilderFields(
    name: Name,
    phone: Phone,
    email: Email,
    address: Address,
    notes: Notes,
    deadline: Deadline,
    favouriteStatus: Favourite,
    tags: set<Tag>)

  /// `Favourite.valueOf`: the token "true" marks a favourite.
  function FavouriteValueOf(s: string): Favourite
  {
    Favourite(s == "true")
  }

  /// `SampleDataUtil.getTagSet`: one tag per given name.
  function GetTagSet(tagNames: seq<string>): (r: set<Tag>)
    ensures forall t :: t in r <==> t.tagName in tagNames
    ensures |tagNames| == 0 ==> r == {}
  {
    set n | n in tagNames :: Tag(n)
  }

  /// The fields of a fresh builder.
  function DefaultFields(): (f: BuilderFields)
    ensures f.name == Name("Amy Bee") && f.favouriteStatus == Favourite(false)
    ensures f.tags == {} && f.notes == Notes([])
  {
    BuilderFields(Name(DEFAULT_NAME), Phone(DEFAULT_PHONE), Email(DEFAULT_EMAIL),
                  Address(DEFAULT_ADDRESS), Notes([]), Deadline(DEFAULT_DEADLINE),
                  FavouriteValueOf(DEFAULT_FAVOURITE), {})
  }

  /// The fields of a builder that copies `p`.
  function CopyFields(p: Person): (f: BuilderFields)
    ensures f.name == p.name && f.phone == p.phone && f.email == p.email
    ensures f.address == p.address && f.favouriteStatus == p.favourite && f.tags == p.tags
    ensures f.notes.value == p.notes.value
    ensures |p.deadlines| > 0 ==> f.deadline == p.deadlines[0]
  {
    BuilderFields(p.name, p.phone, p.email, p.address, Notes(p.notes.value),
                  GetDeadline(p), p.favourite, p.tags)
  }

  /// The person `build` makes from the given fields.
  function BuildPerson(f: BuilderFields): (p: Person)
    ensures p.name == f.name && p.phone == f.phone && p.email == f.email
    ensures p.address == f.address && p.notes == f.notes && p.tags == f.tags
    ensures p.favourite == f.favouriteStatus && p.deadlines == [f.deadline]
    ensures !p.highImportance.isHighImportance && p.images == []
  {
    NewPerson(f.name, f.phone, f.email, f.address, f.deadline, f.notes, f.tags,
              f.favouriteStatus)
  }

  /// Copying a built person gives back the fields it was built from.
  lemma BuildThenCopy(f: BuilderFields)
    ensures CopyFields(BuildPerson(f)) == f
  {
  }

  /// A person with one deadline, normal importance and no images is
  /// rebuilt unchanged from a copying builder; any other person loses its
  /// extra deadlines, importance or images.
  lemma CopyThenBuild(p: Person)
    ensures BuildPerson(CopyFields(p)) == p <==>
              |p.deadlines| == 1 && !p.highImportance.isHighImportance && p.images == []
  {
  }

  class PersonBuilder {
    var name: Name
    var phone: Phone
    var email: Email
    var address: Address
    var notes: Notes
    var deadline: Deadline
    var favouriteStatus: Favourite
    var tags: set<Tag>

    function Fields(): BuilderFields
      reads this
    {
      BuilderFields(name, phone, email, address, notes, deadline, favouriteStatus, tags)
    }

    /// A builder holding the default details.
    constructor ()
      ensures Fields() == DefaultFields()
    {
      name := Name(DEFAULT_NAME);
      phone := Phone(DEFAULT_PHONE);
      email := Email(DEFAULT_EMAIL);
      address := Address(DEFAULT_ADDRESS);
      notes := Notes([]);
      deadline := Deadline(DEFAULT_DEADLINE);
      favouriteStatus := FavouriteValueOf(DEFAULT_FAVOURITE);
      tags := {};
    }

    /// A builder holding the details of `personToCopy`.
    constructor Copy(personToCopy: Person)
      ensures Fields() == CopyFields(personToCopy)
    {
      name := personToCopy.name;
      phone := personToCopy.phone;
      email := personToCopy.email;
      address := personToCopy.address;
      notes := Notes(personToCopy.notes.value);
      deadline := GetDeadline(personToCopy);
      favouriteStatus := personToCopy.favourite;
      tags := personToCopy.tags;
    }

    method WithName(name: string) returns (b: PersonBuilder)
      modifies this
      ensures b == this && Fields() == old(Fields()).(name := Name(name))
    {
      this.name := Name(name);
      return this;
    }

    /// Replaces the whole tag set; the previous tags are dropped.
    method WithTags(tagNames: seq<string>) returns (b: PersonBuilder)
      modifies this
      ensures b == this && Fields() == old(Fields()).(tags := GetTagSet(tagNames))
    {
      this.tags := GetTagSet(tagNames);
      return this;
    }

    method WithAddress(address: string) returns (b: PersonBuilder)
      modifies this
      ensures b == this && Fields() == old(Fields()).(address := Address(address))
    {
      this.address := Address(address);
      return this;
    }

    method WithDeadline(deadline: string) returns (b: PersonBuilder)
      modifies this
      ensures b == this && Fields() == old(Fields()).(deadline := Deadline(deadline))
    {
      this.deadline := Deadline(deadline);
      return this;
    }

    method WithPhone(phone: string) returns (b: PersonBuilder)
      modifies this
      ensures b == this && Fields() == old(Fields()).(phone := Phone(phone))
    {
      this.phone := Phone(phone);
      return this;
    }

    method WithEmail(email: string) returns (b: PersonBuilder)
      modifies this
      ensures b == this && Fields() == old(Fields()).(email := Email(email))
    {
      this.email := Email(email);
      return this;
    }

    method WithNotes(notes: seq<string>) returns (b: PersonBuilder)
      modifies this
      ensures b == this && Fields() == old(Fields()).(notes := Notes(notes))
    {
      this.notes := Notes(notes);
      return this;
    }

    method WithFavourite(favourite: string) returns (b: PersonBuilder)
      modifies this
      ensures b == this && Fields() == old(Fields()).(favouriteStatus := FavouriteValueOf(favourite))
    {
      this.favouriteStatus := FavouriteValueOf(favourite);
      return this;
    }

    /// The person with the builder's current details; the builder is unchanged.
    method Build() returns (p: Person)
      ensures CopyFields(p) == Fields()
      ensures p.deadlines == [deadline] && !p.highImportance.isHighImportance && p.images == []
    {
      p := NewPerson(name, phone, email, address, deadline, notes, tags, favouriteStatus);
    }
  }
}
