/**
 * The allergen test of the checker: an allergen is present when its
 * lower-cased singular or lower-cased plural form occurs anywhere in the
 * lower-cased ingredient text. It is a plain substring test, so it also
 * matches inside longer words.
 *
 * The plural form comes from an English inflection library, which is not
 * part of this model; it is passed in as the function `plural`.
 */
module AllergenMatching {
  import opened Text

  /** The per-allergen test the matching loop runs. */
  function Found(ingredients: string, allergen: string, plural: string -> string): (found: bool)
    ensures found <==>
      IsSubstring(Lower(allergen), Lower(ingredients)) ||
      IsSubstring(Lower(plural(allergen)), Lower(ingredients))
  {
    var text := Lower(ingredients);
    Contains(text, Lower(allergen)) || Contains(text, Lower(plural(allergen)))
  }

  /** The allergens of `tracked` that the ingredient text contains. */
  ghost function Matches(tracked: set<string>, ingredients: string, plural: string -> string): (r: set<string>)
    ensures r <= tracked
    ensures forall a :: a in r <==> a in tracked && Found(ingredients, a, plural)
  {
    set a | a in tracked && Found(ingredients, a, plural)
  }

  /** More tracked allergens can only give more matches for the same text. */
  lemma MatchesMonotone(small: set<string>, large: set<string>, ingredients: string, plural: string -> string)
    requires small <= large
    ensures Matches(small, ingredients, plural) <= Matches(large, ingredients, plural)
  {
  }

  /**
   * Each allergen is judged on its own, so matching a union is the union of
   * the matches: the result does not depend on how the tracked set was put
   * together or in which order it is scanned.
   */
  lemma MatchesUnion(a: set<string>, b: set<string>, ingredients: string, plural: string -> string)
    ensures Matches(a + b, ingredients, plural) == Matches(a, ingredients, plural) + Matches(b, ingredients, plural)
  {
  }

  /** Matching ignores the case of the ingredient text. */
  lemma MatchesIgnoreTextCase(tracked: set<string>, ingredients: string, plural: string -> string)
    ensures Matches(tracked, Lower(ingredients), plural) == Matches(tracked, ingredients, plural)
  {
    LowerIdempotent(ingredients);
  }

  /** An allergen written verbatim in the text, in any case, is found. */
  lemma VerbatimAllergenFound(tracked: set<string>, allergen: string, ingredients: string, plural: string -> string)
    requires allergen in tracked
    requires IsSubstring(allergen, ingredients)
    ensures allergen in Matches(tracked, ingredients, plural)
  {
    LowerKeepsOccurrence(allergen, ingredients);
  }

  /** The same holds for its plural form. */
  lemma VerbatimPluralFound(tracked: set<string>, allergen: string, ingredients: string, plural: string -> string)
    requires allergen in tracked
    requires IsSubstring(plural(allergen), ingredients)
    ensures allergen in Matches(tracked, ingredients, plural)
  {
    LowerKeepsOccurrence(plural(allergen), ingredients);
  }

  /**
   * An allergen is not found when a character that is not an upper-case
   * letter occurs in its singular and in its plural but in no case form in
   * the text.
   */
  lemma NotFoundWhenCharMissing(tracked: set<string>, allergen: string, ingredients: string, plural: string -> string, c: char)
    requires !('A' <= c <= 'Z')
    requires c in allergen && c in plural(allergen) && c !in Lower(ingredients)
    ensures allergen !in Matches(tracked, ingredients, plural)
  {
    var i :| 0 <= i < |allergen| && allergen[i] == c;
    var j :| 0 <= j < |plural(allergen)| && plural(allergen)[j] == c;
    assert Lower(allergen)[i] == c;
    assert Lower(plural(allergen))[j] == c;
    MissingCharNotSubstring(Lower(allergen), Lower(ingredients), c);
    MissingCharNotSubstring(Lower(plural(allergen)), Lower(ingredients), c);
  }

  /** A simple regular plural, standing in for the inflection library in the example below. */
  function AddS(s: string): string
  {
    s + "s"
  }

  /** What the example below needs to know about its ingredient text. */
  lemma ExampleText(text: string)
    requires text == "contains eggs and wheat flour"
    ensures 'p' !in Lower(text) && 'z' !in Lower(text)
    ensures IsSubstring("egg", text)
  {
    assert text[9..12] == "egg";
    assert OccursAt("egg", text, 9);
    assert 'p' !in text && 'z' !in text;
    LowerOfLowerCase(text);
  }

  /** Which of peanut, hazelnut and egg the example text contains. */
  lemma EggExampleMembership(text: string)
    requires text == "contains eggs and wheat flour"
    ensures "egg" in Matches({"peanut", "hazelnut", "egg"}, text, AddS)
    ensures "peanut" !in Matches({"peanut", "hazelnut", "egg"}, text, AddS)
    ensures "hazelnut" !in Matches({"peanut", "hazelnut", "egg"}, text, AddS)
  {
    var tracked := {"peanut", "hazelnut", "egg"};
    assert 'p' in AddS("peanut") && 'z' in AddS("hazelnut");
    ExampleText(text);
    VerbatimAllergenFound(tracked, "egg", text, AddS);
    NotFoundWhenCharMissing(tracked, "peanut", text, AddS, 'p');
    NotFoundWhenCharMissing(tracked, "hazelnut", text, AddS, 'z');
  }

  /** A subset of the example's allergens holding egg but neither nut is exactly {egg}. */
  lemma OnlyEgg(found: set<string>)
    requires found <= {"peanut", "hazelnut", "egg"}
    requires "egg" in found && "peanut" !in found && "hazelnut" !in found
    ensures found == {"egg"}
  {
  }

  /**
   * The worked example for the consumer "ross": of peanut, hazelnut and egg,
   * only egg is found in "contains eggs and wheat flour".
   */
  lemma EggExample(text: string)
    requires text == "contains eggs and wheat flour"
    ensures Matches({"peanut", "hazelnut", "egg"}, text, AddS) == {"egg"}
  {
    EggExampleMembership(text);
    OnlyEgg(Matches({"peanut", "hazelnut", "egg"}, text, AddS));
  }
}
