/**
 * A saved consumer file, as the loader sees it once JSON tokenising is
 * abstracted away, and what reading one does to the consumer being built.
 */
module ConsumerRecords {
  import opened Wrappers
  import opened Consumers

  /** A field value as the JSON reader delivers it: a scalar token, a list of strings, or `null`. */
  datatype JsonValue = JsonText(text: string) | JsonStrings(items: set<string>) | JsonNull

  /** One `"key": value` pair of the top-level object. */
  datatype Field = Field(key: string, value: JsonValue)

  /**
   * A consumer file, as far as the loader gets with it.
   * - `ObjectRecord`: an object whose fields were read in order, up to its
   *   closing brace or up to the first I/O, parse or mapping error; the
   *   error is caught and the fields read so far are kept.
   * - `Unreadable`: a file that fails before its first field, because it
   *   cannot be opened (a sub-directory, say) or a token before the first
   *   field does not parse (`hello`, `5 x`); the error is caught and the
   *   default consumer is kept.
   * - `NotAnObject`: a file on which the field loop reaches the key switch
   *   with no field name, which throws; for example an empty file, `5` or
   *   `[1, 2]`.
   */
  datatype ConsumerFile = ObjectRecord(fields: seq<Field>) | Unreadable | NotAnObject

  const NameKey := "name"
  const AllergiesKey := "allergies"

  /** The text the reader reports for a `null` token. */
  const NullText := "null"

  /** The consumer made by the default constructor, before any field is read. */
  const EmptyProfile := Profile(None, Some({}))

  /**
   * The reader can turn the value into what the field's setter takes. A
   * `name` needs a scalar or `null`; an `allergies` value that is neither a
   * list of strings nor `null` is a mapping error, which ends the read like
   * any other read error.
   */
  predicate Decodes(f: Field)
  {
    (f.key == NameKey ==> !f.value.JsonStrings?) && (f.key == AllergiesKey ==> !f.value.JsonText?)
  }

  /**
   * The field switch: `name` sets the name to the token's text (`"null"` for
   * a `null` token), `allergies` sets the allergy set (null for a `null`
   * value), any other key is skipped.
   */
  function Dispatch(p: Profile, f: Field): (r: Option<Profile>)
    ensures r.None? <==> !Decodes(f)
    ensures r.Some? && f.key == NameKey && f.value.JsonText? ==> r.value.name == Some(f.value.text)
    ensures r.Some? && f.key == NameKey && f.value.JsonNull? ==> r.value.name == Some(NullText)
    ensures r.Some? && f.key == AllergiesKey && f.value.JsonStrings? ==> r.value.allergies == Some(f.value.items)
    ensures r.Some? && f.key == AllergiesKey && f.value.JsonNull? ==> r.value.allergies == None
    ensures r.Some? && f.key != NameKey ==> r.value.name == p.name
    ensures r.Some? && f.key != AllergiesKey ==> r.value.allergies == p.allergies
  {
    if !Decodes(f) then None
    else if f.key == NameKey then
      Some(p.(name := Some(if f.value.JsonText? then f.value.text else NullText)))
    else if f.key == AllergiesKey then
      Some(p.(allergies := if f.value.JsonStrings? then Some(f.value.items) else None))
    else Some(p)
  }

  /** Applies the fields in file order, stopping at the first one that cannot be decoded. */
  function LoadFields(p: Profile, fields: seq<Field>): (r: Profile)
    ensures r.name != p.name ==>
      r.name.Some? &&
      (Field(NameKey, JsonText(r.name.value)) in fields ||
       (r.name.value == NullText && Field(NameKey, JsonNull) in fields))
    ensures r.allergies != p.allergies && r.allergies.Some? ==>
      Field(AllergiesKey, JsonStrings(r.allergies.value)) in fields
    ensures r.allergies != p.allergies && r.allergies.None? ==> Field(AllergiesKey, JsonNull) in fields
    decreases |fields|
  {
    if fields == [] then p
    else match Dispatch(p, fields[0])
      case None => p
      case Some(q) => LoadFields(q, fields[1..])
  }

  /** The consumer a readable file yields: the default consumer with its fields applied. */
  function LoadedProfile(fields: seq<Field>): (p: Profile)
    ensures p.name == None || Field(NameKey, JsonText(p.name.value)) in fields ||
      (p.name == Some(NullText) && Field(NameKey, JsonNull) in fields)
    ensures p.allergies.None? ==> Field(AllergiesKey, JsonNull) in fields
    ensures p.allergies.Some? && p.allergies.value != {} ==>
      Field(AllergiesKey, JsonStrings(p.allergies.value)) in fields
  {
    LoadFields(EmptyProfile, fields)
  }

  /**
   * The consumer the loader registers for a file it does not throw on: the
   * loaded fields of an object, the default consumer for an unreadable file.
   */
  function FileProfile(file: ConsumerFile): (p: Profile)
    requires !file.NotAnObject?
    ensures p.allergies.None? ==> file.ObjectRecord? && Field(AllergiesKey, JsonNull) in file.fields
    ensures file.ObjectRecord? ==> p == LoadedProfile(file.fields)
  {
    match file
    case ObjectRecord(fields) => LoadedProfile(fields)
    case Unreadable => EmptyProfile
  }

  /** The fields the switch acts on. */
  function Recognised(fields: seq<Field>): (r: seq<Field>)
    ensures forall f :: f in r ==> f in fields && f.key in {NameKey, AllergiesKey}
  {
    if fields == [] then []
    else if fields[0].key in {NameKey, AllergiesKey} then [fields[0]] + Recognised(fields[1..])
    else Recognised(fields[1..])
  }

  /** Fields under any other key are ignored: dropping them changes nothing. */
  lemma {:induction false} LoadIgnoresOtherKeys(p: Profile, fields: seq<Field>)
    ensures LoadFields(p, fields) == LoadFields(p, Recognised(fields))
    decreases |fields|
  {
    if fields != [] {
      var rest := fields[1..];
      if fields[0].key in {NameKey, AllergiesKey} {
        assert Recognised(fields)[1..] == Recognised(rest);
        match Dispatch(p, fields[0])
        case None =>
        case Some(q) => LoadIgnoresOtherKeys(q, rest);
      } else {
        LoadIgnoresOtherKeys(p, rest);
      }
    }
  }

  /** Reading a prefix that decodes throughout, then the rest, is reading the whole. */
  lemma {:induction false} LoadAppend(p: Profile, front: seq<Field>, back: seq<Field>)
    requires forall f :: f in front ==> Decodes(f)
    ensures LoadFields(p, front + back) == LoadFields(LoadFields(p, front), back)
    decreases |front|
  {
    if front != [] {
      assert (front + back)[0] == front[0] && Decodes(front[0]);
      assert (front + back)[1..] == front[1..] + back;
      assert forall f :: f in front[1..] ==> f in front;
      LoadAppend(Dispatch(p, front[0]).value, front[1..], back);
    } else {
      assert front + back == back;
    }
  }

  /** Without a `name` field the name keeps its value; without `allergies` so does the set. */
  lemma {:induction false} LoadKeepsAbsentFields(p: Profile, fields: seq<Field>)
    ensures (forall f :: f in fields ==> f.key != NameKey) ==> LoadFields(p, fields).name == p.name
    ensures (forall f :: f in fields ==> f.key != AllergiesKey) ==> LoadFields(p, fields).allergies == p.allergies
    decreases |fields|
  {
    if fields != [] {
      match Dispatch(p, fields[0])
      case None =>
      case Some(q) =>
        assert forall f :: f in fields[1..] ==> f in fields;
        LoadKeepsAbsentFields(q, fields[1..]);
    }
  }

  /**
   * The last `name` field wins: after a `name` with a scalar or `null` value
   * that is read (everything before it decodes), the name is that token's
   * text whatever follows, as long as no later field is a `name`.
   */
  lemma LoadLastNameWins(p: Profile, front: seq<Field>, v: JsonValue, back: seq<Field>)
    requires !v.JsonStrings?
    requires forall f :: f in front ==> Decodes(f)
    requires forall f :: f in back ==> f.key != NameKey
    ensures LoadFields(p, front + [Field(NameKey, v)] + back).name ==
      Some(if v.JsonText? then v.text else NullText)
  {
    var named := Field(NameKey, v);
    assert front + [named] + back == front + ([named] + back);
    LoadAppend(p, front, [named] + back);
    var q := LoadFields(p, front);
    assert ([named] + back)[1..] == back;
    LoadKeepsAbsentFields(q.(name := Some(if v.JsonText? then v.text else NullText)), back);
  }

  /**
   * The last `allergies` field replaces the set wholesale: after it is read,
   * the allergies are exactly its items, as long as no later field is an
   * `allergies`.
   */
  lemma LoadLastAllergiesWin(p: Profile, front: seq<Field>, items: set<string>, back: seq<Field>)
    requires forall f :: f in front ==> Decodes(f)
    requires forall f :: f in back ==> f.key != AllergiesKey
    ensures LoadFields(p, front + [Field(AllergiesKey, JsonStrings(items))] + back).allergies == Some(items)
  {
    var listed := Field(AllergiesKey, JsonStrings(items));
    assert front + [listed] + back == front + ([listed] + back);
    LoadAppend(p, front, [listed] + back);
    var q := LoadFields(p, front);
    assert ([listed] + back)[1..] == back;
    LoadKeepsAbsentFields(q.(allergies := Some(items)), back);
  }

  /**
   * A `null` allergies value that is read, and not followed by another
   * `allergies` field, leaves the loaded consumer with a null allergy set.
   */
  lemma LoadNullAllergies(p: Profile, front: seq<Field>, back: seq<Field>)
    requires forall f :: f in front ==> Decodes(f)
    requires forall f :: f in back ==> f.key != AllergiesKey
    ensures LoadFields(p, front + [Field(AllergiesKey, JsonNull)] + back).allergies == None
  {
    var nulled := Field(AllergiesKey, JsonNull);
    assert front + [nulled] + back == front + ([nulled] + back);
    LoadAppend(p, front, [nulled] + back);
    var q := LoadFields(p, front);
    assert ([nulled] + back)[1..] == back;
    LoadKeepsAbsentFields(q.(allergies := None), back);
  }
}
