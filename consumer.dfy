/**
 * The person who will eat the food: a name and a set of allergies, both of
 * which may be overwritten after creation.
 */
module Consumers {
  import opened Wrappers

  /** A snapshot of a consumer's two fields; `None` is a `null` field. */
  datatype Profile = Profile(name: Option<string>, allergies: Option<set<string>>)

  class Consumer {
    var name: Option<string>
    var allergies: Option<set<string>>

    /** The consumer's current field values. */
    function Snapshot(): Profile
      reads this
    {
      Profile(name, allergies)
    }

    /** The default constructor used when loading: no name yet, no allergies. */
    constructor Empty()
      ensures name == None && allergies == Some({})
    {
      name := None;
      allergies := Some({});
    }

    /** Stores exactly the given name and allergy set (either may be `null`). */
    constructor (consumerName: Option<string>, consumerAllergies: Option<set<string>>)
      ensures name == consumerName && allergies == consumerAllergies
    {
      name := consumerName;
      allergies := consumerAllergies;
    }

    /** Overwrites the name; the allergies are untouched. */
    method SetName(newName: Option<string>)
      modifies this
      ensures name == newName && allergies == old(allergies)
    {
      name := newName;
    }

    /** Returns the current name and changes nothing. */
    method GetName() returns (n: Option<string>)
      ensures n == name
    {
      n := name;
    }

    /** Returns the current allergy set and changes nothing. */
    method GetAllergies() returns (a: Option<set<string>>)
      ensures a == allergies
    {
      a := allergies;
    }

    /** Replaces the whole allergy set (no merge with the old one); the name is untouched. */
    method SetAllergies(consumerAllergies: Option<set<string>>)
      modifies this
      ensures allergies == consumerAllergies && name == old(name)
    {
      allergies := consumerAllergies;
    }
  }
}
