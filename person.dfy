/// Value objects and the immutable Person aggregate of the address book.
/// Validation of the value objects (Name, Phone, Email, Deadline, ...) is
/// not part of this model: each is a plain wrapper compared by value.
module Persons {

  datatype Name = Name(fullName: string)
  datatype Phone = Phone(value: string)
  datatype Email = Email(value: string)
  datatype Address = Address(value: string)
  datatype Deadline = Deadline(value: string)
  datatype Notes = Notes(value: seq<string>)
  datatype Favourite = Favourite(isFavourite: bool)
  datatype HighImportance = HighImportance(isHighImportance: bool)
  datatype ImageDetails = ImageDetails(path: string)

  /// A tag is identified by its name; tag names compare as raw strings.
  datatype Tag = Tag(tagName: string)

  type DeadlineList = seq<Deadline>
  type ImageDetailsList = seq<ImageDetails>

  /// An immutable contact record; editing always builds a new value.
  datatype Person = Person(
    name: Name,
    phone: Phone,
    email: Email,
    address: Address,
    deadlines: DeadlineList,
    notes: Notes,
    tags: set<Tag>,
    favourite: Favourite,
    highImportance: HighImportance,
    images: ImageDetailsList)

  /// Text of the deadline a person has when none was given.
  const NO_DEADLINE: string := "*No deadline specified*"

  /// The eight-argument Person constructor used by the test builder: one
  /// deadline, normal importance and no images.
  function NewPerson(name: Name, phone: Phone, email: Email, address: Address,
                     deadline: Deadline, notes: Notes, tags: set<Tag>,
                     favourite: Favourite): Person
  {
    Person(name, phone, email, address, [deadline], notes, tags, favourite,
           HighImportance(false), [])
  }

  /// The single deadline a person reports: the first one of its list, or the
  /// "no deadline" placeholder when the list is empty.
  function GetDeadline(p: Person): Deadline
  {
    if |p.deadlines| > 0 then p.deadlines[0] else Deadline(NO_DEADLINE)
  }
}
