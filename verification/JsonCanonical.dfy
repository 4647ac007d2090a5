/**
 Canonical JSON: object entries are sorted by code units, then strings and keys are normalised. For values
 whose strings are normalised already, equal canonical texts mean equal values.
 */
module JsonCanonical {
  import opened Prelude
  import opened JsonLexical
  import opened JsonGrammar
  import opened JsonValues

  type Normal = Text -> Text

  // ---- Order of keys ----

  predicate Less(a: Text, b: Text) {
    match (a, b)
    case (_, Empty) => false
    case (Empty, Char(_, _)) => true
    case (Char(u, as'), Char(w, bs)) => u < w || (u == w && Less(as', bs))
  }

  lemma {:induction false} LessTotal(a: Text, b: Text)
    ensures Less(a, b) || a == b || Less(b, a)
    ensures !(Less(a, b) && Less(b, a)) && (a == b ==> !Less(a, b))
    decreases a
  {
    if a.Char? && b.Char? {
      LessTotal(a.rest, b.rest);
    }
  }

  lemma {:induction false} LessTransitive(a: Text, b: Text, c: Text)
    requires Less(a, b) && Less(b, c)
    ensures Less(a, c)
    decreases a
  {
    if a.Char? && a.rest != b.rest && Less(a.rest, b.rest) && Less(b.rest, c.rest) {
      LessTransitive(a.rest, b.rest, c.rest);
    }
    if a.Char? && a.head == b.head == c.head {
      LessTransitive(a.rest, b.rest, c.rest);
    }
  }

  // ---- Canonical form ----

  function Inserted(members: Members, key: Text, value: Value): Members {
    match members
    case NoMember => Member(key, value, NoMember)
    case Member(k, v, rest) =>
      if Less(key, k) then Member(key, value, members) else Member(k, v, Inserted(rest, key, value))
  }

  /** The entries in the order of their keys. */
  function SortedMembers(members: Members): Members {
    match members
    case NoMember => NoMember
    case Member(k, v, rest) => Inserted(SortedMembers(rest), k, v)
  }

  /** An assignment to a property: it replaces the value or adds the property at the end. */
  function Assigned(members: Members, key: Text, value: Value): Members {
    match members
    case NoMember => Member(key, value, NoMember)
    case Member(k, v, rest) => if k == key then Member(k, value, rest) else Member(k, v, Assigned(rest, key, value))
  }

  /** An object from entries whose keys are normalised on the way; later entries replace earlier ones. */
  function FromEntries(nfc: Normal, so_far: Members, entries: Members): Members
    decreases entries
  {
    match entries
    case NoMember => so_far
    case Member(k, v, rest) => FromEntries(nfc, Assigned(so_far, nfc(k), v), rest)
  }

  function Canonical(nfc: Normal, v: Value): Value {
    match v
    case Str(text) => Str(nfc(text))
    case Arr(items) => Arr(CanonicalValues(nfc, items))
    case Obj(members) => Obj(FromEntries(nfc, NoMember, SortedMembers(CanonicalMembers(nfc, members))))
    case _ => v
  }

  function CanonicalValues(nfc: Normal, items: Values): Values {
    match items
    case NoValue => NoValue
    case Values(head, rest) => Values(Canonical(nfc, head), CanonicalValues(nfc, rest))
  }

  /** The children in canonical form, the keys as they are. */
  function CanonicalMembers(nfc: Normal, members: Members): Members {
    match members
    case NoMember => NoMember
    case Member(k, v, rest) => Member(k, Canonical(nfc, v), CanonicalMembers(nfc, rest))
  }

  // ---- Sameness of values ----

  function Found(members: Members, key: Text): Option<Value> {
    match members
    case NoMember => None
    case Member(k, v, rest) => if k == key then Some(v) else Found(rest, key)
  }

  function Without(members: Members, key: Text): Members {
    match members
    case NoMember => NoMember
    case Member(k, v, rest) => if k == key then rest else Member(k, v, Without(rest, key))
  }

  /** Equal up to the order of the members of objects, at every depth. */
  predicate Same(v: Value, w: Value) {
    match (v, w)
    case (Arr(as'), Arr(bs)) => SameValues(as', bs)
    case (Obj(as'), Obj(bs)) => SameMembers(as', bs)
    case _ => v == w
  }

  predicate SameValues(a: Values, b: Values) {
    match (a, b)
    case (NoValue, NoValue) => true
    case (Values(v, vs), Values(w, ws)) => Same(v, w) && SameValues(vs, ws)
    case _ => false
  }

  predicate SameMembers(a: Members, b: Members)
    decreases a
  {
    match a
    case NoMember => b.NoMember?
    case Member(k, v, rest) => Found(b, k).Some? && Same(v, Found(b, k).value) && SameMembers(rest, Without(b, k))
  }

  // ---- Normalised values ----

  predicate Fixed(nfc: Normal, v: Value) {
    match v
    case Str(text) => nfc(text) == text
    case Arr(items) => FixedValues(nfc, items)
    case Obj(members) => FixedMembers(nfc, members)
    case _ => true
  }

  predicate FixedValues(nfc: Normal, items: Values) {
    items.Values? ==> Fixed(nfc, items.head) && FixedValues(nfc, items.rest)
  }

  predicate FixedMembers(nfc: Normal, members: Members) {
    members.Member? ==> nfc(members.key) == members.key && Fixed(nfc, members.value) && FixedMembers(nfc, members.rest)
  }

  predicate FixedKeys(nfc: Normal, members: Members) {
    members.Member? ==> nfc(members.key) == members.key && FixedKeys(nfc, members.rest)
  }

  // ---- Keys ----

  function Keys(members: Members): set<Text> {
    match members
    case NoMember => {}
    case Member(k, _, rest) => {k} + Keys(rest)
  }

  predicate KeysOnce(members: Members) {
    members.Member? ==> members.key !in Keys(members.rest) && KeysOnce(members.rest)
  }

  predicate Ascending(members: Members) {
    members.Member? && members.rest.Member? ==> Less(members.key, members.rest.key) && Ascending(members.rest)
  }

  lemma {:induction false} DistinctMeansOnce(members: Members, keys: set<Text>)
    requires MembersDistinct(members, keys)
    ensures KeysOnce(members) && Keys(members) * keys == {}
    decreases members
  {
    if members.Member? {
      DistinctMeansOnce(members.rest, keys + {members.key});
    }
  }

  lemma {:induction false} InsertedIs(members: Members, key: Text, value: Value)
    requires KeysOnce(members) && Ascending(members) && key !in Keys(members)
    ensures var r := Inserted(members, key, value); KeysOnce(r) && Ascending(r) && Keys(r) == Keys(members) + {key}
    ensures Without(Inserted(members, key, value), key) == members
            && Found(Inserted(members, key, value), key) == Some(value)
    decreases members
  {
    if members.Member? {
      LessTotal(key, members.key);
      InsertedIs(members.rest, key, value);
    }
  }

  lemma {:induction false} SortedIs(members: Members)
    requires KeysOnce(members)
    ensures KeysOnce(SortedMembers(members)) && Ascending(SortedMembers(members))
    ensures Keys(SortedMembers(members)) == Keys(members)
    decreases members
  {
    if members.Member? {
      SortedIs(members.rest);
      InsertedIs(SortedMembers(members.rest), members.key, members.value);
    }
  }

  lemma {:induction false} InsertionsCommute(members: Members, j: Text, v: Value, k: Text, w: Value)
    requires j != k
    ensures Inserted(Inserted(members, j, v), k, w) == Inserted(Inserted(members, k, w), j, v)
    decreases members
  {
    LessTotal(j, k);
    if members.Member? {
      LessTotal(j, members.key);
      LessTotal(k, members.key);
      if Less(j, k) && Less(k, members.key) { LessTransitive(j, k, members.key); }
      if Less(k, j) && Less(j, members.key) { LessTransitive(k, j, members.key); }
      InsertionsCommute(members.rest, j, v, k, w);
    }
  }

  /** Sorting does not depend on where an entry stood. */
  lemma {:induction false} SortedTakesAnyFirst(members: Members, key: Text)
    requires KeysOnce(members) && key in Keys(members)
    ensures Found(members, key).Some? && KeysOnce(Without(members, key))
    ensures Keys(Without(members, key)) == Keys(members) - {key}
    ensures SortedMembers(members) == Inserted(SortedMembers(Without(members, key)), key, Found(members, key).value)
    decreases members
  {
    if members.key != key {
      SortedTakesAnyFirst(members.rest, key);
      InsertionsCommute(SortedMembers(Without(members.rest, key)), key, Found(members, key).value, members.key,
                        members.value);
    }
  }

  // ---- Normalised values keep their entries ----

  lemma {:induction false} AssignedAppends(members: Members, key: Text, value: Value, rest: Members)
    requires key !in Keys(members)
    ensures Appended(Assigned(members, key, value), rest) == Appended(members, Member(key, value, rest))
    ensures Keys(Assigned(members, key, value)) == Keys(members) + {key}
    decreases members
  {
    if members.Member? {
      AssignedAppends(members.rest, key, value, rest);
    }
  }

  function Appended(a: Members, b: Members): Members {
    match a
    case NoMember => b
    case Member(k, v, rest) => Member(k, v, Appended(rest, b))
  }

  lemma {:induction false} AppendedNothing(a: Members)
    ensures Appended(a, NoMember) == a
  {
    if a.Member? {
      AppendedNothing(a.rest);
    }
  }

  /** Nothing is merged when the keys are normalised and distinct. */
  lemma {:induction false} EntriesKept(nfc: Normal, so_far: Members, entries: Members)
    requires FixedKeys(nfc, entries) && KeysOnce(entries) && Keys(so_far) * Keys(entries) == {}
    ensures FromEntries(nfc, so_far, entries) == Appended(so_far, entries)
    decreases entries
  {
    if entries.Member? {
      AssignedAppends(so_far, entries.key, entries.value, entries.rest);
      EntriesKept(nfc, Assigned(so_far, entries.key, entries.value), entries.rest);
    } else {
      AppendedNothing(so_far);
    }
  }

  lemma {:induction false} InsertedKeepsFixedKeys(nfc: Normal, members: Members, key: Text, value: Value)
    requires FixedKeys(nfc, members) && nfc(key) == key
    ensures FixedKeys(nfc, Inserted(members, key, value))
    decreases members
  {
    if members.Member? {
      InsertedKeepsFixedKeys(nfc, members.rest, key, value);
    }
  }

  lemma {:induction false} SortedKeepsFixedKeys(nfc: Normal, members: Members)
    requires FixedKeys(nfc, members)
    ensures FixedKeys(nfc, SortedMembers(members))
    decreases members
  {
    if members.Member? {
      SortedKeepsFixedKeys(nfc, members.rest);
      InsertedKeepsFixedKeys(nfc, SortedMembers(members.rest), members.key, members.value);
    }
  }

  lemma {:induction false} CanonicalMembersKeys(nfc: Normal, members: Members)
    ensures Keys(CanonicalMembers(nfc, members)) == Keys(members)
    ensures KeysOnce(members) <==> KeysOnce(CanonicalMembers(nfc, members))
    ensures FixedMembers(nfc, members) ==> FixedKeys(nfc, CanonicalMembers(nfc, members))
    decreases members
  {
    if members.Member? {
      CanonicalMembersKeys(nfc, members.rest);
    }
  }

  /** For a normalised object the canonical form sorts the entries, and that is all. */
  lemma CanonicalSorts(nfc: Normal, members: Members)
    requires FixedMembers(nfc, members) && KeysOnce(members)
    ensures Canonical(nfc, Obj(members)) == Obj(SortedMembers(CanonicalMembers(nfc, members)))
  {
    var entries := CanonicalMembers(nfc, members);
    CanonicalMembersKeys(nfc, members);
    SortedIs(entries);
    SortedKeepsFixedKeys(nfc, entries);
    EntriesKept(nfc, NoMember, SortedMembers(entries));
  }

  // ---- Equal canonical forms, same values ----

  lemma {:induction false} CanonicalMembersFound(nfc: Normal, members: Members, key: Text)
    ensures Found(CanonicalMembers(nfc, members), key)
            == match Found(members, key)
               case None => None
               case Some(v) => Some(Canonical(nfc, v))
    ensures CanonicalMembers(nfc, Without(members, key)) == Without(CanonicalMembers(nfc, members), key)
    ensures Found(members, key).Some? <==> key in Keys(members)
    decreases members
  {
    if members.Member? {
      CanonicalMembersFound(nfc, members.rest, key);
    }
  }

  lemma {:induction false} FoundIsGood(nfc: Normal, members: Members, key: Text, keys: set<Text>)
    requires FixedMembers(nfc, members) && MembersDistinct(members, keys)
    ensures FixedMembers(nfc, Without(members, key))
    ensures key in Keys(members) ==> MembersDistinct(Without(members, key), keys)
    ensures Found(members, key).Some? ==>
            Fixed(nfc, Found(members, key).value) && KeysDistinct(Found(members, key).value)
    decreases members
  {
    if members.Member? {
      FoundIsGood(nfc, members.rest, key, keys + {members.key});
      if members.key == key {
        FewerKeysBefore(members.rest, keys + {key}, keys);
      }
    }
  }

  lemma {:induction false} FewerKeysBefore(members: Members, more: set<Text>, keys: set<Text>)
    requires MembersDistinct(members, more) && keys <= more
    ensures MembersDistinct(members, keys)
    decreases members
  {
    if members.Member? {
      FewerKeysBefore(members.rest, more + {members.key}, keys + {members.key});
    }
  }

  lemma {:induction false} SameIffCanonicalEqual(nfc: Normal, v: Value, w: Value)
    requires Fixed(nfc, v) && Fixed(nfc, w) && KeysDistinct(v) && KeysDistinct(w)
    ensures Same(v, w) <==> Canonical(nfc, v) == Canonical(nfc, w)
    decreases v
  {
    match (v, w)
    case (Arr(as'), Arr(bs)) => SameValuesIff(nfc, as', bs);
    case (Obj(as'), Obj(bs)) =>
      DistinctMeansOnce(as', {});
      DistinctMeansOnce(bs, {});
      CanonicalSorts(nfc, as');
      CanonicalSorts(nfc, bs);
      SameMembersIff(nfc, as', bs, {}, {});
    case _ =>
  }

  lemma {:induction false} SameValuesIff(nfc: Normal, a: Values, b: Values)
    requires FixedValues(nfc, a) && FixedValues(nfc, b) && ValuesDistinct(a) && ValuesDistinct(b)
    ensures SameValues(a, b) <==> CanonicalValues(nfc, a) == CanonicalValues(nfc, b)
    decreases a
  {
    if a.Values? && b.Values? {
      SameIffCanonicalEqual(nfc, a.head, b.head);
      SameValuesIff(nfc, a.rest, b.rest);
    }
  }

  lemma {:induction false} SameMembersIff(nfc: Normal, a: Members, b: Members, before: set<Text>, before': set<Text>)
    requires FixedMembers(nfc, a) && MembersDistinct(a, before)
    requires FixedMembers(nfc, b) && MembersDistinct(b, before')
    ensures SameMembers(a, b)
            <==> SortedMembers(CanonicalMembers(nfc, a)) == SortedMembers(CanonicalMembers(nfc, b))
    decreases a
  {
    DistinctMeansOnce(a, before);
    DistinctMeansOnce(b, before');
    if a.Member? {
      FirstMember(nfc, a, b);
      if a.key in Keys(b) {
        FoundIsGood(nfc, b, a.key, before');
        CanonicalMembersFound(nfc, b, a.key);
        SameIffCanonicalEqual(nfc, a.value, Found(b, a.key).value);
        SameMembersIff(nfc, a.rest, Without(b, a.key), before + {a.key}, before');
      } else {
        CanonicalMembersFound(nfc, b, a.key);
      }
    } else if b.Member? {
      CanonicalMembersKeys(nfc, b);
      SortedIs(CanonicalMembers(nfc, b));
    }
  }

  /** Two sorted objects are equal when they have the first key, its value and the sorted rest in common. */
  lemma FirstMember(nfc: Normal, a: Members, b: Members)
    requires a.Member? && KeysOnce(a) && KeysOnce(b)
    ensures var sa, sb := SortedMembers(CanonicalMembers(nfc, a)), SortedMembers(CanonicalMembers(nfc, b));
            sa == sb
            <==> (a.key in Keys(b)
                  && Found(CanonicalMembers(nfc, b), a.key) == Some(Canonical(nfc, a.value))
                  && SortedMembers(CanonicalMembers(nfc, a.rest))
                     == SortedMembers(CanonicalMembers(nfc, Without(b, a.key))))
  {
    var ca, cb := CanonicalMembers(nfc, a), CanonicalMembers(nfc, b);
    CanonicalMembersKeys(nfc, a);
    CanonicalMembersKeys(nfc, a.rest);
    CanonicalMembersKeys(nfc, b);
    SortedIs(ca.rest);
    SortedIs(ca);
    SortedIs(cb);
    InsertedIs(SortedMembers(ca.rest), a.key, ca.value);
    if a.key in Keys(b) {
      CanonicalMembersFound(nfc, b, a.key);
      SortedTakesAnyFirst(cb, a.key);
      var rest := Without(cb, a.key);
      SortedIs(rest);
      InsertedIs(SortedMembers(rest), a.key, Found(cb, a.key).value);
    }
  }

  // ---- Canonical forms are normalised, without repeated keys, and printable ----

  /** Every value is normalised, has no key twice, and is printable if it has to be. */
  predicate Neat(nfc: Normal, members: Members, printable: bool) {
    members.Member? ==>
      && Fixed(nfc, members.value) && KeysDistinct(members.value) && (printable ==> Printable(members.value))
      && Neat(nfc, members.rest, printable)
  }

  lemma {:induction false} NeatObject(nfc: Normal, members: Members, printable: bool, keys: set<Text>)
    requires Neat(nfc, members, printable) && FixedKeys(nfc, members) && KeysOnce(members) && Keys(members) * keys == {}
    ensures FixedMembers(nfc, members) && MembersDistinct(members, keys) && (printable ==> PrintableMembers(members))
    decreases members
  {
    if members.Member? {
      NeatObject(nfc, members.rest, printable, keys + {members.key});
    }
  }

  lemma {:induction false} InsertedIsNeat(nfc: Normal, members: Members, key: Text, value: Value, printable: bool)
    requires Neat(nfc, members, printable) && Neat(nfc, Member(key, value, NoMember), printable)
    ensures Neat(nfc, Inserted(members, key, value), printable)
    decreases members
  {
    if members.Member? {
      InsertedIsNeat(nfc, members.rest, key, value, printable);
    }
  }

  lemma {:induction false} SortedIsNeat(nfc: Normal, members: Members, printable: bool)
    requires Neat(nfc, members, printable)
    ensures Neat(nfc, SortedMembers(members), printable)
    decreases members
  {
    if members.Member? {
      SortedIsNeat(nfc, members.rest, printable);
      InsertedIsNeat(nfc, SortedMembers(members.rest), members.key, members.value, printable);
    }
  }

  lemma {:induction false} AssignedIsNeat(nfc: Normal, members: Members, key: Text, value: Value, printable: bool)
    requires Neat(nfc, members, printable) && Neat(nfc, Member(key, value, NoMember), printable)
    requires FixedKeys(nfc, members) && KeysOnce(members) && nfc(key) == key
    ensures var r := Assigned(members, key, value);
            Neat(nfc, r, printable) && FixedKeys(nfc, r) && KeysOnce(r) && Keys(r) == Keys(members) + {key}
    decreases members
  {
    if members.Member? {
      AssignedIsNeat(nfc, members.rest, key, value, printable);
    }
  }

  ghost predicate Idempotent(nfc: Normal) {
    forall text :: nfc(nfc(text)) == nfc(text)
  }

  lemma {:induction false} EntriesAreNeat(nfc: Normal, so_far: Members, entries: Members, printable: bool)
    requires Idempotent(nfc)
    requires Neat(nfc, so_far, printable) && FixedKeys(nfc, so_far) && KeysOnce(so_far) && Neat(nfc, entries, printable)
    ensures var r := FromEntries(nfc, so_far, entries); Neat(nfc, r, printable) && FixedKeys(nfc, r) && KeysOnce(r)
    decreases entries
  {
    if entries.Member? {
      AssignedIsNeat(nfc, so_far, nfc(entries.key), entries.value, printable);
      EntriesAreNeat(nfc, Assigned(so_far, nfc(entries.key), entries.value), entries.rest, printable);
    }
  }

  lemma {:induction false} CanonicalIsNeat(nfc: Normal, v: Value)
    requires Idempotent(nfc)
    ensures Fixed(nfc, Canonical(nfc, v)) && KeysDistinct(Canonical(nfc, v))
    ensures Printable(v) ==> Printable(Canonical(nfc, v))
    decreases v
  {
    match v
    case Arr(items) => CanonicalValuesAreNeat(nfc, items);
    case Obj(members) =>
      var printable := PrintableMembers(members);
      var sorted := SortedMembers(CanonicalMembers(nfc, members));
      CanonicalMembersAreNeat(nfc, members, printable);
      SortedIsNeat(nfc, CanonicalMembers(nfc, members), printable);
      EntriesAreNeat(nfc, NoMember, sorted, printable);
      NeatObject(nfc, FromEntries(nfc, NoMember, sorted), printable, {});
    case _ =>
  }

  lemma {:induction false} CanonicalValuesAreNeat(nfc: Normal, items: Values)
    requires Idempotent(nfc)
    ensures FixedValues(nfc, CanonicalValues(nfc, items)) && ValuesDistinct(CanonicalValues(nfc, items))
    ensures PrintableValues(items) ==> PrintableValues(CanonicalValues(nfc, items))
    decreases items
  {
    if items.Values? {
      CanonicalIsNeat(nfc, items.head);
      CanonicalValuesAreNeat(nfc, items.rest);
    }
  }

  lemma {:induction false} CanonicalMembersAreNeat(nfc: Normal, members: Members, printable: bool)
    requires Idempotent(nfc) && (printable ==> PrintableMembers(members))
    ensures Neat(nfc, CanonicalMembers(nfc, members), printable)
    decreases members
  {
    if members.Member? {
      CanonicalIsNeat(nfc, members.value);
      CanonicalMembersAreNeat(nfc, members.rest, printable);
    }
  }

  // ---- When canonical form is stable ----

  /** The keys of every object, at every depth, are in ascending order. */
  predicate AllSorted(v: Value) {
    match v
    case Arr(items) => AllSortedValues(items)
    case Obj(members) => Ascending(members) && AllSortedMembers(members)
    case _ => true
  }

  predicate AllSortedValues(items: Values) {
    items.Values? ==> AllSorted(items.head) && AllSortedValues(items.rest)
  }

  predicate AllSortedMembers(members: Members) {
    members.Member? ==> AllSorted(members.value) && AllSortedMembers(members.rest)
  }

  lemma {:induction false} SortedStays(members: Members)
    requires KeysOnce(members)
    ensures SortedMembers(members) == members <==> Ascending(members)
    decreases members
  {
    SortedIs(members);
    if members.Member? && Ascending(members) {
      SortedStays(members.rest);
      if members.rest.Member? {
        LessTotal(members.key, members.rest.key);
      }
    }
  }

  lemma SortedSame(a: Members, b: Members)
    requires Keys(a) == Keys(b) && KeysOnce(a) && KeysOnce(b) && SortedMembers(a) == b && KeyList(a) == KeyList(b)
    ensures Ascending(a)
    decreases a
  {
    SortedIs(a);
    SameOrder(a, b);
  }

  function KeyList(members: Members): seq<Text> {
    match members
    case NoMember => []
    case Member(k, _, rest) => [k] + KeyList(rest)
  }

  lemma {:induction false} SameOrder(a: Members, b: Members)
    requires KeyList(a) == KeyList(b)
    ensures Ascending(a) <==> Ascending(b)
    decreases a
  {
    if a.Member? && b.Member? {
      assert KeyList(a)[0] == a.key && KeyList(b)[0] == b.key;
      assert KeyList(a)[1..] == KeyList(a.rest) && KeyList(b)[1..] == KeyList(b.rest);
      SameOrder(a.rest, b.rest);
      if a.rest.Member? && b.rest.Member? {
        assert KeyList(a.rest)[0] == a.rest.key && KeyList(b.rest)[0] == b.rest.key;
      }
    }
  }

  lemma {:induction false} CanonicalMembersKeyList(nfc: Normal, members: Members)
    ensures KeyList(CanonicalMembers(nfc, members)) == KeyList(members)
    decreases members
  {
    if members.Member? {
      CanonicalMembersKeyList(nfc, members.rest);
    }
  }

  lemma {:induction false} StableIffSorted(nfc: Normal, v: Value)
    requires Fixed(nfc, v) && KeysDistinct(v)
    ensures Canonical(nfc, v) == v <==> AllSorted(v)
    decreases v
  {
    match v
    case Arr(items) => StableValues(nfc, items);
    case Obj(members) =>
      var entries := CanonicalMembers(nfc, members);
      DistinctMeansOnce(members, {});
      CanonicalMembersKeys(nfc, members);
      CanonicalMembersKeyList(nfc, members);
      CanonicalSorts(nfc, members);
      SameOrder(members, entries);
      SortedStays(entries);
      StableMembers(nfc, members, {});
      if SortedMembers(entries) == members {
        SortedSame(entries, members);
      }
    case _ =>
  }

  lemma {:induction false} StableValues(nfc: Normal, items: Values)
    requires FixedValues(nfc, items) && ValuesDistinct(items)
    ensures CanonicalValues(nfc, items) == items <==> AllSortedValues(items)
    decreases items
  {
    if items.Values? {
      StableIffSorted(nfc, items.head);
      StableValues(nfc, items.rest);
    }
  }

  lemma {:induction false} StableMembers(nfc: Normal, members: Members, keys: set<Text>)
    requires FixedMembers(nfc, members) && MembersDistinct(members, keys)
    ensures CanonicalMembers(nfc, members) == members <==> AllSortedMembers(members)
    decreases members
  {
    if members.Member? {
      StableIffSorted(nfc, members.value);
      StableMembers(nfc, members.rest, keys + {members.key});
    }
  }

  // ---- The canonical form of a normalised value is that value ----

  lemma {:induction false} InsertedKeepsSorted(members: Members, key: Text, value: Value)
    requires AllSortedMembers(members) && AllSorted(value)
    ensures AllSortedMembers(Inserted(members, key, value))
    decreases members
  {
    if members.Member? {
      InsertedKeepsSorted(members.rest, key, value);
    }
  }

  lemma {:induction false} SortedKeepsSorted(members: Members)
    requires AllSortedMembers(members)
    ensures AllSortedMembers(SortedMembers(members))
    decreases members
  {
    if members.Member? {
      SortedKeepsSorted(members.rest);
      InsertedKeepsSorted(SortedMembers(members.rest), members.key, members.value);
    }
  }

  lemma {:induction false} CanonicalIsSorted(nfc: Normal, v: Value)
    requires Fixed(nfc, v) && KeysDistinct(v)
    ensures AllSorted(Canonical(nfc, v))
    decreases v
  {
    match v
    case Arr(items) => CanonicalValuesSorted(nfc, items);
    case Obj(members) =>
      DistinctMeansOnce(members, {});
      CanonicalSorts(nfc, members);
      CanonicalMembersKeys(nfc, members);
      SortedIs(CanonicalMembers(nfc, members));
      CanonicalMembersSorted(nfc, members, {});
      SortedKeepsSorted(CanonicalMembers(nfc, members));
    case _ =>
  }

  lemma {:induction false} CanonicalValuesSorted(nfc: Normal, items: Values)
    requires FixedValues(nfc, items) && ValuesDistinct(items)
    ensures AllSortedValues(CanonicalValues(nfc, items))
    decreases items
  {
    if items.Values? {
      CanonicalIsSorted(nfc, items.head);
      CanonicalValuesSorted(nfc, items.rest);
    }
  }

  lemma {:induction false} CanonicalMembersSorted(nfc: Normal, members: Members, keys: set<Text>)
    requires FixedMembers(nfc, members) && MembersDistinct(members, keys)
    ensures AllSortedMembers(CanonicalMembers(nfc, members))
    decreases members
  {
    if members.Member? {
      CanonicalIsSorted(nfc, members.value);
      CanonicalMembersSorted(nfc, members.rest, keys + {members.key});
    }
  }

  /** What is read back is the value that was written, up to the order of members. */
  lemma CanonicalIsSame(nfc: Normal, v: Value)
    requires Idempotent(nfc) && Fixed(nfc, v) && KeysDistinct(v)
    ensures Same(v, Canonical(nfc, v))
  {
    CanonicalIsNeat(nfc, v);
    CanonicalIsSorted(nfc, v);
    StableIffSorted(nfc, Canonical(nfc, v));
    SameIffCanonicalEqual(nfc, v, Canonical(nfc, v));
  }

  // ---- Canonical texts ----

  function CanonicalText(nfc: Normal, v: Value): Text
    requires Printable(Canonical(nfc, v))
  {
    Print(Canonical(nfc, v))
  }

  /** Reading a canonical text gives the canonical form, of any value whose numbers are safe integers. */
  lemma CanonicalTextIsParsed(nfc: Normal, v: Value, s: Source, clean: Value -> bool)
    requires Idempotent(nfc) && Printable(v) && clean(Canonical(nfc, v))
    ensures Printable(Canonical(nfc, v))
    ensures Spells(s, CanonicalText(nfc, v)) ==> ParseStrict(s, clean) == Some(Canonical(nfc, v))
  {
    CanonicalIsNeat(nfc, v);
    if Spells(s, CanonicalText(nfc, v)) {
      PrintedIsParsed(s, Canonical(nfc, v), clean);
    }
  }

  /** For normalised values, equal canonical texts mean equal values, up to the order of members. */
  lemma EqualTextsSameValues(nfc: Normal, v: Value, w: Value)
    requires Idempotent(nfc) && Printable(v) && Printable(w)
    requires Fixed(nfc, v) && Fixed(nfc, w) && KeysDistinct(v) && KeysDistinct(w)
    ensures Printable(Canonical(nfc, v)) && Printable(Canonical(nfc, w))
    ensures CanonicalText(nfc, v) == CanonicalText(nfc, w) <==> Same(v, w)
  {
    CanonicalIsNeat(nfc, v);
    CanonicalIsNeat(nfc, w);
    PrintInjective(Canonical(nfc, v), Canonical(nfc, w));
    SameIffCanonicalEqual(nfc, v, w);
  }

  /** Printing what was read back prints the same text again exactly when the canonical form is sorted. */
  lemma TextIsStableIffSorted(nfc: Normal, v: Value)
    requires Idempotent(nfc) && Printable(v)
    ensures Printable(Canonical(nfc, v)) && Printable(Canonical(nfc, Canonical(nfc, v)))
    ensures CanonicalText(nfc, Canonical(nfc, v)) == CanonicalText(nfc, v) <==> AllSorted(Canonical(nfc, v))
  {
    var w := Canonical(nfc, v);
    CanonicalIsNeat(nfc, v);
    CanonicalIsNeat(nfc, w);
    PrintInjective(Canonical(nfc, w), w);
    StableIffSorted(nfc, w);
  }

  // ---- Keys are sorted before they are normalised ----

  /** "e" with a combining acute accent, and the single letter it is normalised to. */
  const COMBINED: Text := Char(0x65, One(0x301))
  const COMPOSED: Text := One(0xe9)
  const LETTER_F: Text := One(0x66)

  /** An object with the keys "e" with accent and "f". */
  const ACCENTED: Value := Obj(Member(COMBINED, Null, Member(LETTER_F, Null, NoMember)))

  /** The combined key sorts before "f", its normal form behind it: the canonical text is not stable. */
  lemma AccentedIsNotStable(nfc: Normal)
    requires Idempotent(nfc) && nfc(COMBINED) == COMPOSED && nfc(LETTER_F) == LETTER_F
    ensures Printable(Canonical(nfc, ACCENTED)) && Printable(Canonical(nfc, Canonical(nfc, ACCENTED)))
    ensures CanonicalText(nfc, Canonical(nfc, ACCENTED)) != CanonicalText(nfc, ACCENTED)
  {
    var last := Member(LETTER_F, Null, NoMember);
    assert CanonicalMembers(nfc, last) == last && SortedMembers(last) == last;
    assert Less(COMBINED, LETTER_F) && !Less(COMPOSED, LETTER_F);
    var entries := Member(COMBINED, Null, last);
    assert CanonicalMembers(nfc, entries) == entries && SortedMembers(entries) == entries;
    var composed := Member(COMPOSED, Null, NoMember);
    assert FromEntries(nfc, composed, last) == Member(COMPOSED, Null, last);
    assert FromEntries(nfc, NoMember, entries) == Member(COMPOSED, Null, last);
    assert Canonical(nfc, ACCENTED) == Obj(Member(COMPOSED, Null, last));
    TextIsStableIffSorted(nfc, ACCENTED);
  }
}
