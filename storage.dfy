/** The local contact cache (src/storage.tsx): one persisted slot named "contacts" holding an
    object that maps string keys to contact snapshots. Every operation reads the whole slot;
    the upsert and the delete change the decoded object and write the whole object back.
    Entries are WRITTEN under the decimal text of the contact's id but LOOKED UP under an
    arbitrary slug. */
module Storage {

  import opened Wrappers
  import opened ContactModel
  import TextRules

  /** A character that can occur in the key of an id: a digit or the minus sign. */
  predicate IsIdKeyChar(c: char) {
    TextRules.IsDigit(c) || c == '-'
  }

  predicate AllDigits(s: string) {
    forall i :: 0 <= i < |s| ==> TextRules.IsDigit(s[i])
  }

  function DigitChar(d: nat): (c: char)
    requires d < 10
    ensures TextRules.IsDigit(c) && c as int - '0' as int == d
  {
    ('0' as int + d) as char
  }

  /** The shortest decimal numeral of `n`. */
  function NatToDecimal(n: nat): (s: string)
    ensures |s| >= 1 && AllDigits(s)
    ensures s[0] == '0' ==> n == 0
  {
    if n < 10 then [DigitChar(n)] else NatToDecimal(n / 10) + [DigitChar(n % 10)]
  }

  /** The number a string of decimal digits denotes. */
  function DecimalValue(s: string): (v: nat)
    requires AllDigits(s)
  {
    if s == [] then 0 else 10 * DecimalValue(s[..|s| - 1]) + (s[|s| - 1] as int - '0' as int)
  }

  lemma {:induction false} DecimalRoundTrip(n: nat)
    ensures DecimalValue(NatToDecimal(n)) == n
  {
    if n >= 10 {
      DecimalRoundTrip(n / 10);
      var s := NatToDecimal(n);
      assert s[..|s| - 1] == NatToDecimal(n / 10);
    }
  }

  /** The property key JavaScript uses for `data[contact.id]` and `delete data[id]`: an integer
      id becomes its decimal text, with a leading minus sign when negative. */
  function IdKey(id: int): (k: string)
    ensures |k| >= 1
    ensures forall i :: 0 <= i < |k| ==> IsIdKeyChar(k[i])
  {
    if id < 0 then "-" + NatToDecimal(-id) else NatToDecimal(id)
  }

  /** Reads a key back as an id; `None` when the key is not the text of any id. */
  function ParseIdKey(k: string): (r: Option<int>)
    ensures r.Some? ==> forall i :: 0 <= i < |k| ==> IsIdKeyChar(k[i])
  {
    if |k| >= 2 && k[0] == '-' && AllDigits(k[1..]) && k[1] != '0' then Some(-(DecimalValue(k[1..]) as int))
    else if |k| >= 1 && AllDigits(k) && (k[0] != '0' || |k| == 1) then Some(DecimalValue(k))
    else None
  }

  /** Every id key reads back as the id it was made from. */
  lemma IdKeyRoundTrip(id: int)
    ensures ParseIdKey(IdKey(id)) == Some(id)
  {
    var k := IdKey(id);
    if id < 0 {
      DecimalRoundTrip(-id);
      assert k[1..] == NatToDecimal(-id);
    } else {
      DecimalRoundTrip(id);
    }
  }

  /** Distinct ids never share a cache slot. */
  lemma IdKeyInjective(a: int, b: int)
    ensures IdKey(a) == IdKey(b) ==> a == b
  {
    IdKeyRoundTrip(a);
    IdKeyRoundTrip(b);
  }

  /** The cache after `data[contact.id] = contact`. */
  function Upserted(m: map<string, Contact>, c: Contact): (r: map<string, Contact>)
    ensures IdKey(c.id) in r && r[IdKey(c.id)] == c
    ensures r.Keys == m.Keys + {IdKey(c.id)}
    ensures forall k :: k in m && k != IdKey(c.id) ==> r[k] == m[k]
  {
    m[IdKey(c.id) := c]
  }

  /** The cache after `delete data[id]`. */
  function Deleted(m: map<string, Contact>, id: int): (r: map<string, Contact>)
    ensures r.Keys == m.Keys - {IdKey(id)}
    ensures forall k :: k in r ==> r[k] == m[k]
    ensures IdKey(id) !in m ==> r == m
  {
    m - {IdKey(id)}
  }

  /** Upserting a contact whose key was free and then deleting its id gives back the cache. */
  lemma UpsertThenDeleteRestores(m: map<string, Contact>, c: Contact)
    requires IdKey(c.id) !in m
    ensures Deleted(Upserted(m, c), c.id) == m
  {
    var r := Deleted(Upserted(m, c), c.id);
    assert r.Keys == m.Keys;
  }

  /** A cache every key of which is the key of some id: what `upsertContact` writes. */
  predicate KeyedByIds(m: map<string, Contact>) {
    forall k :: k in m ==> ParseIdKey(k).Some?
  }

  lemma UpsertKeepsKeyedByIds(m: map<string, Contact>, c: Contact)
    requires KeyedByIds(m)
    ensures KeyedByIds(Upserted(m, c))
  {
    IdKeyRoundTrip(c.id);
  }

  lemma DeleteKeepsKeyedByIds(m: map<string, Contact>, id: int)
    requires KeyedByIds(m)
    ensures KeyedByIds(Deleted(m, id))
  {
  }

  /** The slug/id mismatch: in a cache written by `upsertContact` alone, a slug holding any
      character other than a digit or a minus sign (for instance a letter) has no own entry. */
  lemma SlugWithNonIdCharMisses(m: map<string, Contact>, slug: string, i: nat)
    requires KeyedByIds(m)
    requires i < |slug| && !IsIdKeyChar(slug[i])
    ensures slug !in m
  {
  }

  /** The properties every plain object inherits from `Object.prototype`. Reading one of them
      from the decoded object (`safeGet()[slug]`) yields a function or the prototype itself,
      a truthy value, unless the object has an own property of that name. */
  const InheritedNames: set<string> := {
    "constructor", "__defineGetter__", "__defineSetter__", "hasOwnProperty",
    "__lookupGetter__", "__lookupSetter__", "isPrototypeOf", "propertyIsEnumerable",
    "toString", "valueOf", "__proto__", "toLocaleString"
  }

  /** What a property read `data[slug]` on the decoded object yields. */
  datatype Lookup =
    | Own(contact: Contact)    // an entry of the map
    | Inherited(name: string)  // a member of `Object.prototype`: truthy, not a contact
    | Undefined

  /** `data[slug]`: the own entry when there is one, else the inherited member of that name,
      else `undefined`. */
  function LookupKey(m: map<string, Contact>, slug: string): (r: Lookup)
    ensures r.Own? <==> slug in m
    ensures r.Own? ==> r.contact == m[slug]
    ensures r.Inherited? <==> slug !in m && slug in InheritedNames
    ensures r.Inherited? ==> r.name == slug
    ensures r.Undefined? <==> slug !in m && slug !in InheritedNames
  {
    if slug in m then Own(m[slug])
    else if slug in InheritedNames then Inherited(slug)
    else Undefined
  }

  /** An empty cache still answers a lookup of an inherited name. */
  lemma EmptyCacheAnswersInheritedNames(slug: string)
    requires slug in InheritedNames
    ensures LookupKey(map[], slug) == Inherited(slug)
  {
  }

  /** Every inherited name holds a letter, so in a cache written by `upsertContact` alone it
      is the only kind of slug with a letter that a lookup finds. */
  lemma IdKeyedLookupFindsOnlyInherited(m: map<string, Contact>, slug: string, i: nat)
    requires KeyedByIds(m)
    requires i < |slug| && !IsIdKeyChar(slug[i])
    ensures LookupKey(m, slug).Undefined? <==> slug !in InheritedNames
  {
    SlugWithNonIdCharMisses(m, slug, i);
  }

  /** The persisted store. `slot` is what the storage holds under the name "contacts": `None` when the
      slot is absent or empty, otherwise the decoded object. */
  class LocalStore {

    var slot: Option<map<string, Contact>>

    /** A store over a slot that holds `initial`. */
    constructor (initial: Option<map<string, Contact>>)
      ensures slot == initial
    {
      slot := initial;
    }

    /** The map every operation works on: an absent slot reads as the empty map. */
    function Data(): (m: map<string, Contact>)
      reads this
      ensures slot.None? ==> m == map[]
      ensures slot.Some? ==> m == slot.value
    {
      if slot.Some? then slot.value else map[]
    }

    /** `safeGet`: the decoded slot, `{}` when nothing is stored. */
    method SafeGet() returns (data: map<string, Contact>)
      ensures slot.None? ==> data == map[]
      ensures slot.Some? ==> data == slot.value
    {
      match slot
      case None => data := map[];
      case Some(m) => data := m;
    }

    /** `save`: the slot is overwritten with the whole object. */
    method Save(data: map<string, Contact>)
      modifies this
      ensures slot == Some(data)
    {
      slot := Some(data);
    }

    /** `getContacts`, i.e. `Object.values(safeGet())`: one element per entry. The ghost
        `keys` names, for each element, the entry it comes from. */
    method GetContacts() returns (list: seq<Contact>, ghost keys: seq<string>)
      ensures |list| == |Data()|
      ensures forall i :: 0 <= i < |list| ==> list[i] in Data().Values
      ensures forall k :: k in Data() ==> Data()[k] in list
      ensures |keys| == |list|
      ensures forall i, j :: 0 <= i < j < |keys| ==> keys[i] != keys[j]
      ensures forall i :: 0 <= i < |keys| ==> keys[i] in Data() && list[i] == Data()[keys[i]]
      ensures forall k :: k in Data() ==> k in keys
    {
      var data := SafeGet();
      var rest := data;
      list, keys := [], [];
      while rest != map[]
        invariant rest.Keys <= data.Keys
        invariant |list| == |keys|
        invariant |keys| + |rest| == |data|
        invariant forall i, j :: 0 <= i < j < |keys| ==> keys[i] != keys[j]
        invariant forall i :: 0 <= i < |keys| ==> keys[i] in data && keys[i] !in rest && list[i] == data[keys[i]]
        invariant forall k :: k in data ==> k in rest || k in keys
        invariant forall k :: k in rest ==> rest[k] == data[k]
        decreases |rest|
      {
        var k :| k in rest;
        list, keys := list + [rest[k]], keys + [k];
        rest := rest - {k};
      }
    }

    /** `getContactBySlug`: the property `slug` of the decoded object: the entry stored under
        exactly that key, else an inherited `Object.prototype` member of that name (also for
        an empty slot), else `undefined`. */
    method GetContactBySlug(slug: string) returns (r: Lookup)
      ensures r == LookupKey(Data(), slug)
      // The cases of `LookupKey`'s contract, restated here for callers of the method.
      ensures r.Own? <==> slug in Data()
      ensures r.Own? ==> r.contact == Data()[slug]
      ensures r.Inherited? <==> slug !in Data() && slug in InheritedNames
      ensures r.Inherited? ==> r.name == slug
      ensures r.Undefined? <==> slug !in Data() && slug !in InheritedNames
    {
      var data := SafeGet();
      r := LookupKey(data, slug);
    }

    /** `upsertContact`: the entry under the contact's id key becomes the contact. */
    method UpsertContact(contact: Contact)
      modifies this
      ensures slot == Some(Upserted(old(Data()), contact))
    {
      var data := SafeGet();
      data := data[IdKey(contact.id) := contact];
      Save(data);
    }

    /** `deleteContactBySlug`, which despite its name takes an id: the entry under the id key
        is removed; the slot is written back even when there was nothing to remove. */
    method DeleteContactBySlug(id: int)
      modifies this
      ensures slot == Some(Deleted(old(Data()), id))
    {
      var data := SafeGet();
      data := data - {IdKey(id)};
      Save(data);
    }
  }
}
