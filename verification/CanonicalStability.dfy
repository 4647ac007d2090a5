/**
 When a canonical text is stable under reading and printing, told from the keys of the value before it is printed.
 */
module CanonicalStability {
  import opened JsonLexical
  import opened JsonValues
  import opened JsonCanonical

  // ---- The condition on a value ----

  /** Among these keys, none with the same normal form sorts before this one. */
  predicate FirstOfForm(nfc: Normal, keys: set<Text>, key: Text) {
    forall other | other in keys && nfc(other) == nfc(key) :: other == key || Less(key, other)
  }

  /** None with the same normal form sorts behind it. */
  predicate LastOfForm(nfc: Normal, keys: set<Text>, key: Text) {
    forall other | other in keys && nfc(other) == nfc(key) :: other == key || Less(other, key)
  }

  /** The normal forms of the first keys are in the order of the keys. */
  predicate OrderKept(nfc: Normal, keys: set<Text>) {
    forall a, b | a in keys && b in keys && FirstOfForm(nfc, keys, a) && FirstOfForm(nfc, keys, b) && Less(a, b) ::
      Less(nfc(a), nfc(b))
  }

  /**
   In every object that is not replaced, normalising keeps the order of the keys. A key's place is that of the first
   key with its normal form, and its value is that of the last.
   */
  predicate KeepsOrder(nfc: Normal, v: Value) {
    match v
    case Arr(items) => ItemsKeepOrder(nfc, items)
    case Obj(members) => OrderKept(nfc, Keys(members)) && MembersKeepOrder(nfc, members, Keys(members))
    case _ => true
  }

  predicate ItemsKeepOrder(nfc: Normal, items: Values) {
    items.Values? ==> KeepsOrder(nfc, items.head) && ItemsKeepOrder(nfc, items.rest)
  }

  predicate MembersKeepOrder(nfc: Normal, members: Members, keys: set<Text>) {
    members.Member? ==>
      && (LastOfForm(nfc, keys, members.key) ==> KeepsOrder(nfc, members.value))
      && MembersKeepOrder(nfc, members.rest, keys)
  }

  // ---- The order of the keys of the canonical form ----

  predicate Below(keys: set<Text>, key: Text) {
    forall other | other in keys :: Less(other, key)
  }

  /** Every key is less than all that follow. */
  predicate Strict(members: Members) {
    members.Member? ==> (forall other | other in Keys(members.rest) :: Less(members.key, other)) && Strict(members.rest)
  }

  lemma {:induction false} StrictIsAscending(members: Members)
    ensures Strict(members) <==> Ascending(members)
    decreases members
  {
    if members.Member? && members.rest.Member? {
      StrictIsAscending(members.rest);
      if Less(members.key, members.rest.key) && Strict(members.rest) {
        forall other | other in Keys(members.rest)
          ensures Less(members.key, other)
        {
          if other != members.rest.key {
            LessTransitive(members.key, members.rest.key, other);
          }
        }
      }
    }
  }

  lemma {:induction false} AssignedKeys(members: Members, key: Text, value: Value)
    ensures Keys(Assigned(members, key, value)) == Keys(members) + {key}
    decreases members
  {
    if members.Member? {
      AssignedKeys(members.rest, key, value);
    }
  }

  /** A property that is there keeps its place; a new one goes to the end. */
  lemma {:induction false} AssignedStrict(members: Members, key: Text, value: Value)
    ensures Strict(Assigned(members, key, value))
            <==> Strict(members) && (key !in Keys(members) ==> Below(Keys(members), key))
    decreases members
  {
    if members.Member? {
      AssignedKeys(members.rest, key, value);
      AssignedStrict(members.rest, key, value);
    }
  }

  /** Every normal form that is not seen yet is greater than those that are. */
  predicate FormsFit(nfc: Normal, seen: set<Text>, entries: Members)
    decreases entries
  {
    entries.Member? ==>
      && (nfc(entries.key) !in seen ==> Below(seen, nfc(entries.key)))
      && FormsFit(nfc, seen + {nfc(entries.key)}, entries.rest)
  }

  lemma {:induction false} EntriesStrict(nfc: Normal, so_far: Members, entries: Members)
    ensures Strict(FromEntries(nfc, so_far, entries)) <==> Strict(so_far) && FormsFit(nfc, Keys(so_far), entries)
    decreases entries
  {
    if entries.Member? {
      AssignedStrict(so_far, nfc(entries.key), entries.value);
      AssignedKeys(so_far, nfc(entries.key), entries.value);
      EntriesStrict(nfc, Assigned(so_far, nfc(entries.key), entries.value), entries.rest);
    }
  }

  // ---- From seen forms to first keys ----

  /** The least key with the same normal form. */
  lemma {:induction false} FirstExists(nfc: Normal, keys: set<Text>, key: Text) returns (first: Text)
    requires key in keys
    ensures first in keys && nfc(first) == nfc(key) && FirstOfForm(nfc, keys, first)
            && (first == key || Less(first, key))
    decreases keys
  {
    if FirstOfForm(nfc, keys, key) {
      first := key;
    } else {
      var other :| other in keys && nfc(other) == nfc(key) && other != key && !Less(key, other);
      LessTotal(other, key);
      var less := keys - {key};
      first := FirstExists(nfc, less, other);
      if first != other {
        LessTransitive(first, other, key);
      }
    }
  }

  /** The forms seen so far are those of the keys passed. */
  predicate Passed(nfc: Normal, all: set<Text>, entries: Members, seen: set<Text>) {
    && Keys(entries) <= all
    && (forall form :: form in seen ==> exists key :: key in all && key !in Keys(entries) && nfc(key) == form)
    && (forall key | key in all && key !in Keys(entries) ::
        nfc(key) in seen && forall later | later in Keys(entries) :: Less(key, later))
  }

  /** The order is kept from any first key up to one of the late ones. */
  predicate OrderKeptUpTo(nfc: Normal, all: set<Text>, late: set<Text>) {
    forall a, b | a in all && b in late && FirstOfForm(nfc, all, a) && FirstOfForm(nfc, all, b) && Less(a, b) ::
      Less(nfc(a), nfc(b))
  }

  lemma NewFormIsFirst(nfc: Normal, all: set<Text>, entries: Members, seen: set<Text>)
    requires entries.Member? && Passed(nfc, all, entries, seen) && Strict(entries)
    ensures FirstOfForm(nfc, all, entries.key) <==> nfc(entries.key) !in seen
    ensures forall a | a in all && Less(a, entries.key) :: nfc(a) in seen
  {
    LessTotal(entries.key, entries.key);
    if nfc(entries.key) in seen {
      var key :| key in all && key !in Keys(entries) && nfc(key) == nfc(entries.key);
      LessTotal(key, entries.key);
    }
    forall a | a in all && Less(a, entries.key)
      ensures nfc(a) in seen
    {
      LessTotal(a, entries.key);
    }
  }

  lemma HeadFits(nfc: Normal, all: set<Text>, entries: Members, seen: set<Text>)
    requires entries.Member? && Passed(nfc, all, entries, seen) && Strict(entries)
    ensures (nfc(entries.key) !in seen ==> Below(seen, nfc(entries.key))) <==> OrderKeptUpTo(nfc, all, {entries.key})
  {
    var key := entries.key;
    NewFormIsFirst(nfc, all, entries, seen);
    if nfc(key) !in seen && OrderKeptUpTo(nfc, all, {key}) {
      forall form | form in seen
        ensures Less(form, nfc(key))
      {
        var passed :| passed in all && passed !in Keys(entries) && nfc(passed) == form;
        var first := FirstExists(nfc, all, passed);
        if first != passed {
          LessTransitive(first, passed, key);
        }
      }
    }
  }

  lemma StillPassed(nfc: Normal, all: set<Text>, entries: Members, seen: set<Text>)
    requires entries.Member? && Passed(nfc, all, entries, seen) && Strict(entries) && KeysOnce(entries)
    ensures Passed(nfc, all, entries.rest, seen + {nfc(entries.key)})
  {
    assert entries.key in all && entries.key !in Keys(entries.rest);
  }

  lemma {:induction false} FormsFitIff(nfc: Normal, all: set<Text>, entries: Members, seen: set<Text>)
    requires Passed(nfc, all, entries, seen) && Strict(entries) && KeysOnce(entries)
    ensures FormsFit(nfc, seen, entries) <==> OrderKeptUpTo(nfc, all, Keys(entries))
    decreases entries
  {
    if entries.Member? {
      HeadFits(nfc, all, entries, seen);
      StillPassed(nfc, all, entries, seen);
      FormsFitIff(nfc, all, entries.rest, seen + {nfc(entries.key)});
      assert OrderKeptUpTo(nfc, all, Keys(entries))
             <==> OrderKeptUpTo(nfc, all, {entries.key}) && OrderKeptUpTo(nfc, all, Keys(entries.rest));
    }
  }

  /** The keys of the canonical form are in order exactly when normalising has kept the order of the first keys. */
  lemma KeysStayAscending(nfc: Normal, entries: Members)
    requires Ascending(entries) && KeysOnce(entries)
    ensures Ascending(FromEntries(nfc, NoMember, entries)) <==> OrderKept(nfc, Keys(entries))
  {
    StrictIsAscending(entries);
    StrictIsAscending(FromEntries(nfc, NoMember, entries));
    EntriesStrict(nfc, NoMember, entries);
    FormsFitIff(nfc, Keys(entries), entries, {});
  }

  // ---- The values of the canonical form ----

  function Forms(nfc: Normal, members: Members): set<Text> {
    match members
    case NoMember => {}
    case Member(k, _, rest) => {nfc(k)} + Forms(nfc, rest)
  }

  lemma {:induction false} FormsAreOfKeys(nfc: Normal, members: Members)
    ensures forall form :: form in Forms(nfc, members) <==> exists key :: key in Keys(members) && nfc(key) == form
    decreases members
  {
    if members.Member? {
      FormsAreOfKeys(nfc, members.rest);
    }
  }

  /** The values of the keys outside a set are sorted. */
  predicate SortedOutside(members: Members, keys: set<Text>) {
    members.Member? ==> (members.key !in keys ==> AllSorted(members.value)) && SortedOutside(members.rest, keys)
  }

  /** The values that no later entry replaces are sorted. */
  predicate LastSorted(nfc: Normal, entries: Members) {
    entries.Member? ==>
      (nfc(entries.key) !in Forms(nfc, entries.rest) ==> AllSorted(entries.value)) && LastSorted(nfc, entries.rest)
  }

  lemma {:induction false} SortedOutsideOther(members: Members, keys: set<Text>, key: Text)
    requires key !in Keys(members)
    ensures SortedOutside(members, keys + {key}) <==> SortedOutside(members, keys)
    decreases members
  {
    if members.Member? {
      SortedOutsideOther(members.rest, keys, key);
    }
  }

  lemma {:induction false} AssignedSorted(members: Members, key: Text, value: Value, keys: set<Text>)
    requires KeysOnce(members)
    ensures SortedOutside(Assigned(members, key, value), keys)
            <==> SortedOutside(members, keys + {key}) && (key !in keys ==> AllSorted(value))
    ensures KeysOnce(Assigned(members, key, value))
    decreases members
  {
    if members.Member? {
      AssignedKeys(members.rest, key, value);
      if members.key == key {
        SortedOutsideOther(members.rest, keys, key);
      } else {
        AssignedSorted(members.rest, key, value, keys);
      }
    }
  }

  lemma {:induction false} EntriesSorted(nfc: Normal, so_far: Members, entries: Members)
    requires KeysOnce(so_far)
    ensures AllSortedMembers(FromEntries(nfc, so_far, entries))
            <==> SortedOutside(so_far, Forms(nfc, entries)) && LastSorted(nfc, entries)
    decreases entries
  {
    if entries.Member? {
      AssignedSorted(so_far, nfc(entries.key), entries.value, Forms(nfc, entries.rest));
      EntriesSorted(nfc, Assigned(so_far, nfc(entries.key), entries.value), entries.rest);
      assert Forms(nfc, entries.rest) + {nfc(entries.key)} == Forms(nfc, entries);
    } else {
      SortedOutsideNothing(so_far);
    }
  }

  lemma {:induction false} SortedOutsideNothing(members: Members)
    ensures SortedOutside(members, {}) <==> AllSortedMembers(members)
    decreases members
  {
    if members.Member? {
      SortedOutsideNothing(members.rest);
    }
  }

  /** The same, told from the keys, whatever the order of the entries. */
  predicate LastKeysSorted(nfc: Normal, entries: Members, keys: set<Text>) {
    entries.Member? ==>
      && (LastOfForm(nfc, keys, entries.key) ==> AllSorted(entries.value))
      && LastKeysSorted(nfc, entries.rest, keys)
  }

  /** Of ascending entries, what no later entry replaces is what has the last key of its form. */
  lemma {:induction false} LastSortedIff(nfc: Normal, all: set<Text>, entries: Members)
    requires Strict(entries) && KeysOnce(entries) && Keys(entries) <= all
    requires forall key, later | key in all && key !in Keys(entries) && later in Keys(entries) :: Less(key, later)
    ensures LastSorted(nfc, entries) <==> LastKeysSorted(nfc, entries, all)
    decreases entries
  {
    if entries.Member? {
      FormsAreOfKeys(nfc, entries.rest);
      LastIsNotReplaced(nfc, all, entries);
      LastSortedIff(nfc, all, entries.rest);
    }
  }

  lemma LastIsNotReplaced(nfc: Normal, all: set<Text>, entries: Members)
    requires entries.Member? && Strict(entries) && KeysOnce(entries) && Keys(entries) <= all
    requires forall key, later | key in all && key !in Keys(entries) && later in Keys(entries) :: Less(key, later)
    ensures LastOfForm(nfc, all, entries.key) <==> nfc(entries.key) !in Forms(nfc, entries.rest)
  {
    FormsAreOfKeys(nfc, entries.rest);
    if nfc(entries.key) in Forms(nfc, entries.rest) {
      var later :| later in Keys(entries.rest) && nfc(later) == nfc(entries.key);
      LessTotal(later, entries.key);
    }
  }

  lemma {:induction false} InsertedLastKeys(nfc: Normal, entries: Members, key: Text, value: Value, keys: set<Text>)
    ensures LastKeysSorted(nfc, Inserted(entries, key, value), keys)
            <==> LastKeysSorted(nfc, entries, keys) && (LastOfForm(nfc, keys, key) ==> AllSorted(value))
    decreases entries
  {
    if entries.Member? {
      InsertedLastKeys(nfc, entries.rest, key, value, keys);
    }
  }

  lemma {:induction false} SortingKeepsLastKeys(nfc: Normal, entries: Members, keys: set<Text>)
    ensures LastKeysSorted(nfc, SortedMembers(entries), keys) <==> LastKeysSorted(nfc, entries, keys)
    decreases entries
  {
    if entries.Member? {
      SortingKeepsLastKeys(nfc, entries.rest, keys);
      InsertedLastKeys(nfc, SortedMembers(entries.rest), entries.key, entries.value, keys);
    }
  }

  // ---- Values ----

  lemma {:induction false} CanonicalIsSortedIff(nfc: Normal, v: Value)
    requires KeysDistinct(v)
    ensures AllSorted(Canonical(nfc, v)) <==> KeepsOrder(nfc, v)
    decreases v
  {
    match v
    case Arr(items) => CanonicalItemsSortedIff(nfc, items);
    case Obj(members) =>
      var entries := CanonicalMembers(nfc, members);
      DistinctMeansOnce(members, {});
      CanonicalMembersKeys(nfc, members);
      SortedIs(entries);
      CanonicalMembersSortedIff(nfc, members, {}, Keys(members));
      ObjectIsSortedIff(nfc, entries);
    case _ =>
  }

  lemma ObjectIsSortedIff(nfc: Normal, entries: Members)
    requires KeysOnce(entries)
    ensures var r := FromEntries(nfc, NoMember, SortedMembers(entries));
            Ascending(r) && AllSortedMembers(r)
            <==> OrderKept(nfc, Keys(entries)) && LastKeysSorted(nfc, entries, Keys(entries))
  {
    var sorted := SortedMembers(entries);
    SortedIs(entries);
    StrictIsAscending(sorted);
    KeysStayAscending(nfc, sorted);
    EntriesSorted(nfc, NoMember, sorted);
    LastSortedIff(nfc, Keys(entries), sorted);
    SortingKeepsLastKeys(nfc, entries, Keys(entries));
  }

  lemma {:induction false} CanonicalItemsSortedIff(nfc: Normal, items: Values)
    requires ValuesDistinct(items)
    ensures AllSortedValues(CanonicalValues(nfc, items)) <==> ItemsKeepOrder(nfc, items)
    decreases items
  {
    if items.Values? {
      CanonicalIsSortedIff(nfc, items.head);
      CanonicalItemsSortedIff(nfc, items.rest);
    }
  }

  lemma {:induction false} CanonicalMembersSortedIff(nfc: Normal, members: Members, before: set<Text>, keys: set<Text>)
    requires MembersDistinct(members, before)
    ensures LastKeysSorted(nfc, CanonicalMembers(nfc, members), keys) <==> MembersKeepOrder(nfc, members, keys)
    decreases members
  {
    if members.Member? {
      CanonicalIsSortedIff(nfc, members.value);
      CanonicalMembersSortedIff(nfc, members.rest, before + {members.key}, keys);
    }
  }

  /**
   Printing what was read back prints the same text again exactly when, in every object of the value that no later
   member replaces, normalising the keys keeps their order.
   */
  lemma CanonicalTextIsStable(nfc: Normal, v: Value)
    requires Idempotent(nfc) && Printable(v) && KeysDistinct(v)
    ensures Printable(Canonical(nfc, v)) && Printable(Canonical(nfc, Canonical(nfc, v)))
    ensures CanonicalText(nfc, Canonical(nfc, v)) == CanonicalText(nfc, v) <==> KeepsOrder(nfc, v)
  {
    TextIsStableIffSorted(nfc, v);
    CanonicalIsSortedIff(nfc, v);
  }
}
