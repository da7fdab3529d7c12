/// The in-memory address book as the command layer sees it: the displayed
/// (sorted) list of persons, the registry of created tags and the person
/// shown in the detailed contact view.
module AddressModel {
  import opened Wrappers
  import opened Persons

  /// A snapshot of everything a command can read or change.
  datatype ModelState = ModelState(persons: seq<Person>, tags: set<Tag>, detailed: Person)

  /// No person appears twice in the list.
  ghost predicate NoDuplicates(ps: seq<Person>)
  {
    forall i, j :: 0 <= i < j < |ps| ==> ps[i] != ps[j]
  }

  /// Every tag carried by a listed person has been created in the registry.
  ghost predicate TagsRegistered(s: ModelState)
  {
    forall p :: p in s.persons ==> p.tags <= s.tags
  }

  /// Position of the first occurrence of `x` in `ps`, or -1 when it is absent.
  function IndexOf(ps: seq<Person>, x: Person): (i: int)
    ensures -1 <= i < |ps|
    ensures i == -1 <==> x !in ps
    ensures 0 <= i ==> ps[i] == x && forall j :: 0 <= j < i ==> ps[j] != x
    decreases |ps|
  {
    if |ps| == 0 then -1
    else if ps[0] == x then 0
    else
      var k := IndexOf(ps[1..], x);
      if k == -1 then -1 else k + 1
  }

  /// In a list without duplicates a person is found at its own position.
  lemma IndexOfDistinct(ps: seq<Person>, i: nat)
    requires NoDuplicates(ps) && i < |ps|
    ensures IndexOf(ps, ps[i]) == i
  {
  }

  /// `setPerson(target, edited)`: the first occurrence of `target` is
  /// replaced by `edited`; the operation fails when `target` is not listed.
  function ReplacePerson(ps: seq<Person>, target: Person, edited: Person): (r: Option<seq<Person>>)
    ensures r.Some? <==> target in ps
    ensures r.Some? ==> exists k :: 0 <= k < |ps| && ps[k] == target
                                    && (forall j :: 0 <= j < k ==> ps[j] != target)
                                    && r.value == ps[k := edited]
    ensures r.Some? ==> |r.value| == |ps| && edited in r.value
    ensures r.Some? ==> multiset(r.value) == multiset(ps) - multiset{target} + multiset{edited}
  {
    var k := IndexOf(ps, target);
    if k == -1 then None
    else
      assert ps == ps[..k] + [target] + ps[k + 1..];
      assert ps[k := edited] == ps[..k] + [edited] + ps[k + 1..];
      Some(ps[k := edited])
  }

  /// Replacing one entry of a duplicate-free list keeps it duplicate-free
  /// exactly when the new entry is not already elsewhere in the list.
  lemma {:induction false} ReplaceKeepsNoDuplicates(ps: seq<Person>, k: nat, e: Person)
    requires NoDuplicates(ps) && k < |ps| && ps[k] != e
    ensures NoDuplicates(ps[k := e]) <==> e !in ps
  {
    var qs := ps[k := e];
    if e in ps {
      var j :| 0 <= j < |ps| && ps[j] == e;
      assert j != k && qs[j] == qs[k];
      if j < k { assert !NoDuplicates(qs) by { assert qs[j] == qs[k]; } }
      else { assert !NoDuplicates(qs) by { assert qs[k] == qs[j]; } }
    } else {
      forall i, j | 0 <= i < j < |qs|
        ensures qs[i] != qs[j]
      {
        if i == k { assert qs[j] == ps[j]; }
        else if j == k { assert qs[i] == ps[i]; }
        else { assert qs[i] == ps[i] && qs[j] == ps[j]; }
      }
    }
  }

  /// The model object the command mutates.
  class Model {
    var persons: seq<Person>
    var tags: set<Tag>
    var detailedContactView: Person

    constructor (persons: seq<Person>, tags: set<Tag>, detailed: Person)
      ensures State() == ModelState(persons, tags, detailed)
    {
      this.persons := persons;
      this.tags := tags;
      this.detailedContactView := detailed;
    }

    /// The abstract value of the model.
    function State(): ModelState
      reads this
    {
      ModelState(persons, tags, detailedContactView)
    }

    function HasTag(t: Tag): bool
      reads this
    {
      t in tags
    }

    function GetSortedPersonList(): seq<Person>
      reads this
    {
      persons
    }

    function GetDetailedContactViewPerson(): Person
      reads this
    {
      detailedContactView
    }

    /// Replaces `target` by `edited`; `found` is false, and nothing changes,
    /// when `target` is not in the list.
    method SetPerson(target: Person, edited: Person) returns (found: bool)
      modifies this
      ensures found <==> target in old(persons)
      ensures found ==> persons == ReplacePerson(old(persons), target, edited).value
      ensures !found ==> persons == old(persons)
      ensures tags == old(tags) && detailedContactView == old(detailedContactView)
    {
      var r := ReplacePerson(persons, target, edited);
      found := r.Some?;
      if found {
        persons := r.value;
      }
    }

    method SetDetailedContactView(p: Person)
      modifies this
      ensures State() == old(State()).(detailed := p)
    {
      detailedContactView := p;
    }
  }
}
