/**
 * The consumer registry and the allergen check. The registry is the set of
 * live `Consumer` objects the manager knows, compared by object identity;
 * saving a consumer registers it, loading the saved files registers one new
 * consumer per file, and the allergen check matches a product's ingredients
 * against the union of every registered consumer's allergies.
 *
 * The file system, the product catalogue and the pluralisation library are
 * outside this model: a write is reduced to whether it succeeded, a saved
 * file to the fields read from it, a product lookup to an `Option`, and the
 * plural to a function parameter.
 */
module AllergenChecker {
  import opened Wrappers
  import opened FoodProducts
  import opened Consumers
  import opened ConsumerRecords
  import opened AllergenMatching

  /** Why the allergen check throws instead of answering. */
  datatype CheckError =
    | NullAllergies     // a registered consumer's allergy set is null
    | ProductNotFound   // the catalogue lookup returned no product

  /**
   * The loader throws when its field loop reaches the key switch with no
   * field name (an empty file, or a value that is not an object); `file` is
   * that file's position.
   */
  datatype LoadError = NullFieldName(file: nat)

  /** Every registered consumer has an allergy set (none is null). */
  ghost predicate AllergiesPresent(cs: set<Consumer>)
    reads cs
    ensures AllergiesPresent(cs) ==>
      forall c :: c in cs ==> c.allergies.Some? && c.allergies.value <= TrackedAllergens(cs)
  {
    forall c :: c in cs ==> c.allergies.Some?
  }

  /** The union of the allergy sets of the consumers in `cs`. */
  ghost function TrackedAllergens(cs: set<Consumer>): (r: set<string>)
    reads cs
    ensures forall c :: c in cs && c.allergies.Some? ==> c.allergies.value <= r
    ensures forall a :: a in r ==> exists c :: c in cs && c.allergies.Some? && a in c.allergies.value
  {
    set c, a | c in cs && c.allergies.Some? && a in c.allergies.value :: a
  }

  /** Adding one consumer adds exactly its allergies to the union. */
  lemma TrackedAddOne(cs: set<Consumer>, c: Consumer)
    requires c.allergies.Some?
    ensures TrackedAllergens(cs + {c}) == TrackedAllergens(cs) + c.allergies.value
  {
  }

  /** The union over two groups of consumers is the union of their unions. */
  lemma TrackedUnion(xs: set<Consumer>, ys: set<Consumer>)
    ensures TrackedAllergens(xs + ys) == TrackedAllergens(xs) + TrackedAllergens(ys)
  {
  }

  /** Registering more consumers can only grow the union of allergies. */
  lemma TrackedMonotone(small: set<Consumer>, large: set<Consumer>)
    requires small <= large
    ensures TrackedAllergens(small) <= TrackedAllergens(large)
  {
  }

  /**
   * For the same ingredient text, a larger registry can only find more
   * allergens.
   */
  lemma MatchesGrowWithRegistry(small: set<Consumer>, large: set<Consumer>, ingredients: string, plural: string -> string)
    requires small <= large
    ensures Matches(TrackedAllergens(small), ingredients, plural) <= Matches(TrackedAllergens(large), ingredients, plural)
  {
  }

  /**
   * Between two states in which no consumer of `cs` lost an allergen (and no
   * set that was there became null), the union and therefore the matches can
   * only grow.
   */
  twostate lemma MatchesGrowWithAllergies(cs: set<Consumer>, ingredients: string, plural: string -> string)
    requires forall c :: c in cs && old(c.allergies).Some? ==>
      c.allergies.Some? && old(c.allergies).value <= c.allergies.value
    ensures old(TrackedAllergens(cs)) <= TrackedAllergens(cs)
    ensures Matches(old(TrackedAllergens(cs)), ingredients, plural) <= Matches(TrackedAllergens(cs), ingredients, plural)
  {
    MatchesMonotone(old(TrackedAllergens(cs)), TrackedAllergens(cs), ingredients, plural);
  }

  /** The number of files the loader gets through before one on which it throws. */
  function FilesBeforeFailure(files: seq<ConsumerFile>): (n: nat)
    ensures n <= |files|
    ensures forall i :: 0 <= i < n ==> !files[i].NotAnObject?
    ensures n < |files| ==> files[n].NotAnObject?
  {
    if files == [] || files[0].NotAnObject? then 0 else 1 + FilesBeforeFailure(files[1..])
  }

  /**
   * Builds the consumer for one readable file: a default consumer, then a
   * switch on each field's key, in file order, until the object closes or
   * the reader fails.
   */
  method ReadConsumer(fields: seq<Field>) returns (c: Consumer)
    ensures fresh(c)
    ensures c.Snapshot() == LoadedProfile(fields)
  {
    c := new Consumer.Empty();
    var i := 0;
    while i < |fields|
      invariant 0 <= i <= |fields|
      invariant LoadFields(c.Snapshot(), fields[i..]) == LoadedProfile(fields)
    {
      var field := fields[i];
      if field.key == NameKey {
        if field.value.JsonStrings? {
          break;
        }
        c.SetName(Some(if field.value.JsonText? then field.value.text else NullText));
      } else if field.key == AllergiesKey {
        if field.value.JsonText? {
          break;
        }
        c.SetAllergies(if field.value.JsonStrings? then Some(field.value.items) else None);
      }
      i := i + 1;
    }
  }

  class JsonManager {
    /** The registered consumers, by identity. */
    var consumers: set<Consumer>

    /** A manager with no consumers registered yet. */
    constructor ()
      ensures consumers == {}
    {
      consumers := {};
    }

    /**
     * Loads every saved consumer file, in the order given. Each file the
     * loader gets through yields exactly one new consumer, even if reading it
     * failed part-way (the consumer holds the fields read before the failure)
     * or failed at once (the consumer is the default one). At the first file
     * on which the field switch receives a null key the source throws: the
     * files before it stay registered and the rest are not read.
     */
    method SetUpConsumers(files: seq<ConsumerFile>) returns (r: Result<set<Consumer>, LoadError>, ghost added: seq<Consumer>)
      modifies this
      ensures |added| == FilesBeforeFailure(files)
      ensures forall i :: 0 <= i < |added| ==>
        fresh(added[i]) && added[i].Snapshot() == FileProfile(files[i])
      ensures forall i, j :: 0 <= i < j < |added| ==> added[i] != added[j]
      ensures consumers == old(consumers) + set c | c in added
      ensures r == if |added| == |files| then Success(consumers) else Failure(NullFieldName(|added|))
    {
      added := [];
      var i := 0;
      while i < |files|
        invariant 0 <= i <= |files| && |added| == i
        invariant forall k :: 0 <= k < i ==> !files[k].NotAnObject?
        invariant forall k :: 0 <= k < i ==>
          fresh(added[k]) && added[k].Snapshot() == FileProfile(files[k])
        invariant forall k, l :: 0 <= k < l < i ==> added[k] != added[l]
        invariant consumers == old(consumers) + set c | c in added
      {
        if files[i].NotAnObject? {
          r := Failure(NullFieldName(i));
          return;
        }
        var consumer;
        if files[i].Unreadable? {
          consumer := new Consumer.Empty();
        } else {
          consumer := ReadConsumer(files[i].fields);
        }
        consumers := consumers + {consumer};
        added := added + [consumer];
        i := i + 1;
      }
      r := Success(consumers);
    }

    /**
     * Writes the consumer's file, then registers the consumer if it is not
     * registered yet. Registration happens whether or not the write
     * succeeded; `saved` reports which, where the source only logs.
     */
    method SaveConsumer(consumer: Consumer, writeSucceeds: bool) returns (saved: bool)
      modifies this
      ensures consumers == old(consumers) + {consumer}
      ensures saved == writeSucceeds
    {
      saved := writeSucceeds;
      if consumer !in consumers {
        consumers := consumers + {consumer};
      }
    }

    /** Creates a consumer with the given name and allergies, saves and registers it. */
    method CreateNewConsumer(consumerName: Option<string>, consumerAllergies: Option<set<string>>, writeSucceeds: bool)
      returns (c: Consumer)
      modifies this
      ensures fresh(c)
      ensures c.name == consumerName && c.allergies == consumerAllergies
      ensures consumers == old(consumers) + {c}
    {
      c := new Consumer(consumerName, consumerAllergies);
      var _ := SaveConsumer(c, writeSucceeds);
    }

    /**
     * Replaces the consumer's allergies in place, saves and registers it, and
     * returns the same object. A failed write does not undo the change.
     */
    method UpdateAllergies(consumer: Consumer, consumerAllergies: Option<set<string>>, writeSucceeds: bool)
      returns (r: Consumer)
      modifies this, consumer
      ensures r == consumer
      ensures consumer.allergies == consumerAllergies && consumer.name == old(consumer.name)
      ensures consumers == old(consumers) + {consumer}
    {
      consumer.SetAllergies(consumerAllergies);
      var _ := SaveConsumer(consumer, writeSucceeds);
      r := consumer;
    }

    /**
     * Renames the consumer in place, saves and registers it, and returns the
     * same object. A failed write does not undo the change.
     */
    method UpdateName(consumer: Consumer, name: Option<string>, writeSucceeds: bool)
      returns (r: Consumer)
      modifies this, consumer
      ensures r == consumer
      ensures consumer.name == name && consumer.allergies == old(consumer.allergies)
      ensures consumers == old(consumers) + {consumer}
    {
      consumer.SetName(name);
      var _ := SaveConsumer(consumer, writeSucceeds);
      r := consumer;
    }

    /**
     * The allergens of the registered consumers that the product's
     * ingredients contain. `product` is the outcome of the catalogue lookup.
     * The union of allergy sets is built first, so a null allergy set throws
     * before a missing product does; a missing product is a failure, never an
     * empty answer. Nothing is modified.
     */
    method CheckForAllergens(product: Option<FoodProduct>, plural: string -> string)
      returns (r: Result<set<string>, CheckError>)
      ensures !AllergiesPresent(consumers) ==> r == Failure(NullAllergies)
      ensures AllergiesPresent(consumers) && product.None? ==> r == Failure(ProductNotFound)
      ensures AllergiesPresent(consumers) && product.Some? ==>
        r == Success(Matches(TrackedAllergens(consumers), product.value.ingredients, plural))
    {
      var consumerAllergens: set<string> := {};
      var remaining := consumers;
      while remaining != {}
        invariant remaining <= consumers
        invariant AllergiesPresent(consumers - remaining)
        invariant consumerAllergens == TrackedAllergens(consumers - remaining)
        decreases remaining
      {
        var consumer :| consumer in remaining;
        var allergies := consumer.GetAllergies();
        if allergies.None? {
          r := Failure(NullAllergies);
          return;
        }
        TrackedAddOne(consumers - remaining, consumer);
        assert consumers - (remaining - {consumer}) == (consumers - remaining) + {consumer};
        consumerAllergens := consumerAllergens + allergies.value;
        remaining := remaining - {consumer};
      }
      assert consumers - remaining == consumers;
      if product.None? {
        r := Failure(ProductNotFound);
        return;
      }
      var ingredients := product.value.ingredients;
      var allergensFound: set<string> := {};
      var unchecked := consumerAllergens;
      while unchecked != {}
        invariant unchecked <= consumerAllergens
        invariant allergensFound == Matches(consumerAllergens - unchecked, ingredients, plural)
        decreases unchecked
      {
        var allergen :| allergen in unchecked;
        if Found(ingredients, allergen, plural) {
          allergensFound := allergensFound + {allergen};
        }
        unchecked := unchecked - {allergen};
      }
      assert consumerAllergens - unchecked == consumerAllergens;
      r := Success(allergensFound);
    }
  }
}
