/**
 * The registry tests of the source, replayed against the model. The tests
 * save to a fixed directory; here the outcome of every write is a parameter,
 * and the results hold whether the writes succeed or not.
 */
module Scenarios {
  import opened Wrappers
  import opened Consumers
  import opened AllergenChecker

  /**
   * Creates "jane" with a peanut allergy, gives "ross" (created with a null
   * allergy set) three allergies, and renames "Pierre" to "Ross"; reads back
   * what each test asserts.
   */
  method RegistryTests(writeSucceeds: bool)
    returns (janeAllergies: Option<set<string>>, rossAllergies: Option<set<string>>, renamed: Option<string>)
    ensures janeAllergies == Some({"peanut"})
    ensures rossAllergies == Some({"peanut", "tree nut", "egg"})
    ensures renamed == Some("Ross")
  {
    var manager := new JsonManager();

    var jane := manager.CreateNewConsumer(Some("jane"), Some({"peanut"}), writeSucceeds);
    janeAllergies := jane.GetAllergies();

    var ross := new Consumer(Some("ross"), None);
    var updated := manager.UpdateAllergies(ross, Some({"peanut", "tree nut", "egg"}), writeSucceeds);
    rossAllergies := ross.GetAllergies();

    var pierre := new Consumer(Some("Pierre"), Some({"peanut", "hazelnut", "egg"}));
    var renamedConsumer := manager.UpdateName(pierre, Some("Ross"), writeSucceeds);
    renamed := pierre.GetName();
  }
}
