/**
 * The second stage of the financing synthesis: the structured data is
 * enriched with merged identity, income and project fields, a computed total
 * of movable assets and a flattened list of company fields.
 */
module SynthesisEnrichment {
  import opened Wrappers
  import opened Text
  import opened Values
  import opened Amounts
  import opened SynthesisRouting

  // ---------------------------------------------------------------------
  // The field set of an extraction

  /**
   * The field set of an extraction: its "extracted_fields" entry when it has
   * one, else the extraction itself. `None` where the source's `in` test or
   * subscript raises (null, booleans, numbers, a list holding the string
   * "extracted_fields"); a string extraction is not decoded and is skipped.
   */
  function FieldsValue(x: Value): (r: Option<Value>)
    ensures x.Dict? && !HasKey(x.fields, "extracted_fields") ==> r == Some(x)
  {
    match x
    case Dict(m) => if HasKey(m, "extracted_fields") then Get(m, "extracted_fields") else Some(x)
    case List(xs) => if Str("extracted_fields") in xs then None else Some(x)
    case _ => None
  }

  /** The field set when it is a dictionary: the only shape the merges and sums read. */
  function FieldDict(x: Value): Option<Fields> {
    match FieldsValue(x)
    case Some(Dict(m)) => Some(m)
    case _ => None
  }

  /** The values of a dictionary, in order. */
  function ValuesOf(m: Fields): (vs: seq<Value>)
    ensures |vs| == |m| && forall i :: 0 <= i < |m| ==> vs[i] == m[i].1
  {
    seq(|m|, i requires 0 <= i < |m| => m[i].1)
  }

  // ---------------------------------------------------------------------
  // The merge rule: a key is written when absent or still "Non spécifié"

  /** The key holds a value other than the sentinel. */
  predicate IsSetIn(info: Fields, key: string) {
    Get(info, key).Some? && !IsUnset(Get(info, key).value)
  }

  function MergeEntry(info: Fields, key: string, v: Value): Fields {
    if !HasKey(info, key) || IsUnset(Get(info, key).value) then Put(info, key, v) else info
  }

  /** `info` after merging `entries` in order. */
  function MergeEntries(info: Fields, entries: Fields): Fields
    decreases |entries|
  {
    if |entries| == 0 then info
    else
      var last := entries[|entries| - 1];
      MergeEntry(MergeEntries(info, entries[..|entries| - 1]), last.0, last.1)
  }

  /** The first value for `key` in `entries` that is not the sentinel. */
  function FirstSetValue(entries: Fields, key: string): (r: Option<Value>)
    ensures r.Some? ==> !IsUnset(r.value)
    decreases |entries|
  {
    if |entries| == 0 then None
    else
      var last := entries[|entries| - 1];
      match FirstSetValue(entries[..|entries| - 1], key)
      case Some(v) => Some(v)
      case None => if last.0 == key && !IsUnset(last.1) then Some(last.1) else None
  }

  /** One merge step, seen from one key. */
  lemma MergeEntryLookup(info: Fields, k: string, v: Value, key: string)
    ensures IsSetIn(info, key) ==> Get(MergeEntry(info, k, v), key) == Get(info, key)
    ensures k != key ==> Get(MergeEntry(info, k, v), key) == Get(info, key)
    ensures k == key && !IsSetIn(info, key) ==> Get(MergeEntry(info, k, v), key) == Some(v)
  {
    if !HasKey(info, k) || IsUnset(Get(info, k).value) {
      PutGetSame(info, k, v);
      if k != key {
        PutGetOther(info, k, v, key);
      }
    }
  }

  /**
   * What merging does to one key: a set value is never replaced; otherwise
   * the first value that is not the sentinel wins; with none, the key stays
   * unset (absent or the sentinel).
   */
  lemma {:induction false} MergeLookup(info: Fields, entries: Fields, key: string)
    ensures IsSetIn(info, key) ==> Get(MergeEntries(info, entries), key) == Get(info, key)
    ensures !IsSetIn(info, key) && FirstSetValue(entries, key).Some? ==>
      Get(MergeEntries(info, entries), key) == FirstSetValue(entries, key)
    ensures !IsSetIn(info, key) && FirstSetValue(entries, key).None? ==>
      !IsSetIn(MergeEntries(info, entries), key)
    decreases |entries|
  {
    if |entries| > 0 {
      var init := entries[..|entries| - 1];
      var last := entries[|entries| - 1];
      MergeLookup(info, init, key);
      MergeEntryLookup(MergeEntries(info, init), last.0, last.1, key);
    }
  }

  /** Merging a concatenation is merging one part after the other. */
  lemma {:induction false} MergeEntriesConcat(info: Fields, a: Fields, b: Fields)
    ensures MergeEntries(info, a + b) == MergeEntries(MergeEntries(info, a), b)
    decreases |b|
  {
    if |b| == 0 {
      assert a + b == a;
    } else {
      assert (a + b)[..|a + b| - 1] == a + b[..|b| - 1];
      MergeEntriesConcat(info, a, b[..|b| - 1]);
    }
  }

  /** A key ends up present exactly when it was present or some entry carries it. */
  lemma {:induction false} MergeHasKey(info: Fields, entries: Fields, key: string)
    ensures HasKey(MergeEntries(info, entries), key) <==> HasKey(info, key) || HasKey(entries, key)
    decreases |entries|
  {
    if |entries| > 0 {
      var init := entries[..|entries| - 1];
      var last := entries[|entries| - 1];
      var before := MergeEntries(info, init);
      MergeHasKey(info, init, key);
      assert HasKey(entries, key) <==> HasKey(init, key) || last.0 == key by {
        if HasKey(entries, key) {
          var i :| 0 <= i < |entries| && entries[i].0 == key;
          if i < |entries| - 1 { assert init[i].0 == key; }
        }
        if HasKey(init, key) {
          var i :| 0 <= i < |init| && init[i].0 == key;
          assert entries[i].0 == key;
        }
      }
      if !HasKey(before, last.0) || IsUnset(Get(before, last.0).value) {
        PutGetSame(before, last.0, last.1);
        if key != last.0 {
          PutGetOther(before, last.0, last.1, key);
        }
      }
    }
  }

  /** Merges the entries of one field dictionary into `info`, in order. */
  method MergeInto(info: Fields, fields: Fields) returns (r: Fields)
    ensures r == MergeEntries(info, fields)
  {
    r := info;
    for j := 0 to |fields|
      invariant r == MergeEntries(info, fields[..j])
    {
      assert fields[..j + 1][..j] == fields[..j];
      var (key, value) := fields[j];
      if !HasKey(r, key) || IsUnset(Get(r, key).value) {
        r := Put(r, key, value);
      }
    }
    assert fields[..|fields|] == fields;
  }

  // ---------------------------------------------------------------------
  // Project: every field of every project extraction, merged

  /** The field entries of the extractions, in order; extractions without a field dictionary contribute nothing. */
  function AllFieldEntries(values: seq<Value>): Fields
    decreases |values|
  {
    if |values| == 0 then []
    else
      var tail := match FieldDict(values[|values| - 1]) case Some(f) => f case None => [];
      AllFieldEntries(values[..|values| - 1]) + tail
  }

  /** `projet_info` after the loop over the project extractions. */
  function ProjectInfo(values: seq<Value>): Fields {
    MergeEntries([], AllFieldEntries(values))
  }

  /** In the merged project fields the first value other than "Non spécifié" wins, and every key seen is present. */
  lemma ProjectFirstSetWins(values: seq<Value>, key: string)
    ensures FirstSetValue(AllFieldEntries(values), key).Some? ==>
      Get(ProjectInfo(values), key) == FirstSetValue(AllFieldEntries(values), key)
    ensures HasKey(ProjectInfo(values), key) <==> HasKey(AllFieldEntries(values), key)
  {
    MergeLookup([], AllFieldEntries(values), key);
    MergeHasKey([], AllFieldEntries(values), key);
  }

  /** The project merge loop: each extraction's fields, key by key. */
  method MergeProject(values: seq<Value>) returns (info: Fields)
    ensures info == ProjectInfo(values)
  {
    info := [];
    for i := 0 to |values|
      invariant info == ProjectInfo(values[..i])
    {
      assert values[..i + 1][..i] == values[..i];
      var fields := FieldDict(values[i]);
      if fields.Some? {
        MergeEntriesConcat([], AllFieldEntries(values[..i]), fields.value);
        info := MergeInto(info, fields.value);
      } else {
        assert AllFieldEntries(values[..i + 1]) == AllFieldEntries(values[..i]) + [];
        assert AllFieldEntries(values[..i]) + [] == AllFieldEntries(values[..i]);
      }
    }
    assert values[..|values|] == values;
  }

  // ---------------------------------------------------------------------
  // Identity: the borrower's identity fields and address, merged

  const IdentityKeys: seq<string> :=
    ["civilite", "nom", "prenoms", "date_naissance", "lieu_naissance", "nationalite", "profession"]

  const AddressKey: string := "adresse_complete"

  /** The entries of `f` for `keys`, in the order of `keys`, skipping keys `f` lacks. */
  function IdentityEntries(f: Fields, keys: seq<string>): (r: Fields)
    ensures forall i :: 0 <= i < |r| ==> r[i].0 in keys
    decreases |keys|
  {
    if |keys| == 0 then []
    else
      var k := keys[|keys| - 1];
      IdentityEntries(f, keys[..|keys| - 1]) + if HasKey(f, k) then [(k, Get(f, k).value)] else []
  }

  /** The address of a field dictionary, when it is a dictionary itself. */
  function AddressOf(f: Fields): Option<Value> {
    match Get(f, "adresse")
    case Some(Dict(a)) => Some(Dict(a))
    case _ => None
  }

  /** Records the address of `f`, if any, as the complete address: a later one replaces an earlier one. */
  function WithAddress(info: Fields, f: Fields): Fields {
    match AddressOf(f)
    case Some(a) => Put(info, AddressKey, a)
    case None => info
  }

  /**
   * One extraction's contribution to the corrected identity merge: identity
   * keys merged by the project's rule (the first value other than
   * "Non spécifié" wins), then its address.
   */
  function IdentityStep(info: Fields, x: Value): Fields {
    match FieldDict(x)
    case None => info
    case Some(f) => WithAddress(MergeEntries(info, IdentityEntries(f, IdentityKeys)), f)
  }

  /** The corrected identity merge over the borrower's extractions, in order. */
  function IdentityInfo(values: seq<Value>): Fields
    decreases |values|
  {
    if |values| == 0 then [] else IdentityStep(IdentityInfo(values[..|values| - 1]), values[|values| - 1])
  }

  /** All identity entries of the borrower's extractions, in merge order. */
  function AllIdentityEntries(values: seq<Value>): Fields
    decreases |values|
  {
    if |values| == 0 then []
    else
      var tail := match FieldDict(values[|values| - 1]) case Some(f) => IdentityEntries(f, IdentityKeys) case None => [];
      AllIdentityEntries(values[..|values| - 1]) + tail
  }

  /** The address of the last extraction that has one. */
  function LastAddress(values: seq<Value>): Option<Value>
    decreases |values|
  {
    if |values| == 0 then None
    else
      match FieldDict(values[|values| - 1])
      case Some(f) => if AddressOf(f).Some? then AddressOf(f) else LastAddress(values[..|values| - 1])
      case None => LastAddress(values[..|values| - 1])
  }

  /** The first value other than the sentinel, looked up in a concatenation. */
  lemma {:induction false} FirstSetValueConcat(a: Fields, b: Fields, key: string)
    ensures FirstSetValue(a + b, key) == if FirstSetValue(a, key).Some? then FirstSetValue(a, key) else FirstSetValue(b, key)
    decreases |b|
  {
    if |b| == 0 {
      assert a + b == a;
    } else {
      assert (a + b)[..|a + b| - 1] == a + b[..|b| - 1];
      FirstSetValueConcat(a, b[..|b| - 1], key);
    }
  }

  /** Merging entries that never mention `key` leaves it alone. */
  lemma {:induction false} MergeUntouched(info: Fields, entries: Fields, key: string)
    requires forall i :: 0 <= i < |entries| ==> entries[i].0 != key
    ensures Get(MergeEntries(info, entries), key) == Get(info, key)
    decreases |entries|
  {
    if |entries| > 0 {
      var last := entries[|entries| - 1];
      MergeUntouched(info, entries[..|entries| - 1], key);
      MergeEntryLookup(MergeEntries(info, entries[..|entries| - 1]), last.0, last.1, key);
    }
  }

  /**
   * In the merged identity, each identity key holds the first value other
   * than "Non spécifié" that the borrower's extractions give it; without
   * one, the key is absent or holds the sentinel.
   */
  lemma {:induction false} IdentityFirstSetWins(values: seq<Value>, key: string)
    requires key in IdentityKeys
    ensures FirstSetValue(AllIdentityEntries(values), key).Some? ==>
      Get(IdentityInfo(values), key) == FirstSetValue(AllIdentityEntries(values), key)
    ensures FirstSetValue(AllIdentityEntries(values), key).None? ==> !IsSetIn(IdentityInfo(values), key)
    decreases |values|
  {
    if |values| > 0 {
      var init := values[..|values| - 1];
      IdentityFirstSetWins(init, key);
      match FieldDict(values[|values| - 1]) {
        case None =>
          assert AllIdentityEntries(values) == AllIdentityEntries(init) + [];
          assert AllIdentityEntries(init) + [] == AllIdentityEntries(init);
        case Some(f) =>
          var entries := IdentityEntries(f, IdentityKeys);
          var merged := MergeEntries(IdentityInfo(init), entries);
          FirstSetValueConcat(AllIdentityEntries(init), entries, key);
          MergeLookup(IdentityInfo(init), entries, key);
          if AddressOf(f).Some? {
            assert AddressKey !in IdentityKeys;
            PutGetOther(merged, AddressKey, AddressOf(f).value, key);
          }
      }
    }
  }

  /** The complete address is the address of the last extraction that has one. */
  lemma {:induction false} IdentityAddressIsLast(values: seq<Value>)
    ensures Get(IdentityInfo(values), AddressKey) == LastAddress(values)
    decreases |values|
  {
    if |values| > 0 {
      var init := values[..|values| - 1];
      IdentityAddressIsLast(init);
      match FieldDict(values[|values| - 1]) {
        case None =>
        case Some(f) =>
          var entries := IdentityEntries(f, IdentityKeys);
          assert AddressKey !in IdentityKeys;
          MergeUntouched(IdentityInfo(init), entries, AddressKey);
          if AddressOf(f).Some? {
            PutGetSame(MergeEntries(IdentityInfo(init), entries), AddressKey, AddressOf(f).value);
          }
      }
    }
  }

  /** One extraction's identity entries give each listed key the extraction's own value, unless it is the sentinel. */
  lemma {:induction false} IdentityEntriesLookup(f: Fields, keys: seq<string>, key: string)
    ensures FirstSetValue(IdentityEntries(f, keys), key) ==
      if key in keys && HasKey(f, key) && !IsUnset(Get(f, key).value) then Get(f, key) else None
    decreases |keys|
  {
    if |keys| > 0 {
      var k := keys[|keys| - 1];
      var init := keys[..|keys| - 1];
      IdentityEntriesLookup(f, init, key);
      var added := if HasKey(f, k) then [(k, Get(f, k).value)] else [];
      FirstSetValueConcat(IdentityEntries(f, init), added, key);
      assert key in keys <==> key in init || key == k by {
        assert keys == init + [k];
      }
      if HasKey(f, k) {
        assert added[..|added| - 1] == [];
      }
    }
  }

  // ---------------------------------------------------------------------
  // Identity as the source writes it

  /**
   * The identity keys as the source guards them: a key is copied only when
   * the merged identity already holds "Non spécifié" for it.
   */
  function GuardedKeys(info: Fields, f: Fields, keys: seq<string>): Fields
    decreases |keys|
  {
    if |keys| == 0 then info
    else
      var before := GuardedKeys(info, f, keys[..|keys| - 1]);
      var k := keys[|keys| - 1];
      if HasKey(f, k) && Get(before, k) == Some(Str(NotSpecified)) then Put(before, k, Get(f, k).value) else before
  }

  function IdentityStepAsWritten(info: Fields, x: Value): Fields {
    match FieldDict(x)
    case None => info
    case Some(f) => WithAddress(GuardedKeys(info, f, IdentityKeys), f)
  }

  /** The identity merge exactly as the source writes it. */
  function IdentityInfoAsWritten(values: seq<Value>): Fields
    decreases |values|
  {
    if |values| == 0 then []
    else IdentityStepAsWritten(IdentityInfoAsWritten(values[..|values| - 1]), values[|values| - 1])
  }

  /**
   * The identity key loop as the source writes it: a key of the extraction
   * is copied only when the merged identity already holds "Non spécifié".
   */
  method MergeIdentityKeys(info: Fields, f: Fields) returns (r: Fields)
    ensures r == GuardedKeys(info, f, IdentityKeys)
  {
    r := info;
    for j := 0 to |IdentityKeys|
      invariant r == GuardedKeys(info, f, IdentityKeys[..j])
    {
      assert IdentityKeys[..j + 1][..j] == IdentityKeys[..j];
      var key := IdentityKeys[j];
      if HasKey(f, key) && Get(r, key) == Some(Str(NotSpecified)) {
        r := Put(r, key, Get(f, key).value);
      }
    }
    assert IdentityKeys[..|IdentityKeys|] == IdentityKeys;
  }

  /** The identity merge loop: each borrower extraction, key by key, then its address. */
  method MergeIdentity(values: seq<Value>) returns (info: Fields)
    ensures info == IdentityInfoAsWritten(values)
  {
    info := [];
    for i := 0 to |values|
      invariant info == IdentityInfoAsWritten(values[..i])
    {
      assert values[..i + 1][..i] == values[..i];
      var fields := FieldDict(values[i]);
      if fields.Some? {
        var f := fields.value;
        info := MergeIdentityKeys(info, f);
        match Get(f, "adresse") {
          case Some(Dict(a)) => info := Put(info, AddressKey, Dict(a));
          case _ =>
        }
      }
    }
    assert values[..|values|] == values;
  }

  /** A guard that never holds copies nothing. */
  lemma {:induction false} GuardedKeysNoop(info: Fields, f: Fields, keys: seq<string>)
    requires forall k :: k in keys ==> Get(info, k) != Some(Str(NotSpecified))
    ensures GuardedKeys(info, f, keys) == info
    decreases |keys|
  {
    if |keys| > 0 {
      GuardedKeysNoop(info, f, keys[..|keys| - 1]);
      assert keys[|keys| - 1] in keys;
    }
  }

  /**
   * As written, the merged identity never holds any identity key: it is
   * empty, or holds only the complete address of the last extraction that
   * has one.
   */
  lemma {:induction false} IdentityAsWrittenHoldsOnlyAddress(values: seq<Value>)
    ensures IdentityInfoAsWritten(values) ==
      match LastAddress(values) case None => [] case Some(a) => [(AddressKey, a)]
    decreases |values|
  {
    if |values| > 0 {
      var init := values[..|values| - 1];
      IdentityAsWrittenHoldsOnlyAddress(init);
      var info := IdentityInfoAsWritten(init);
      match FieldDict(values[|values| - 1]) {
        case None =>
        case Some(f) =>
          forall k | k in IdentityKeys
            ensures Get(info, k) != Some(Str(NotSpecified))
          {
            assert k != AddressKey;
          }
          GuardedKeysNoop(info, f, IdentityKeys);
      }
    }
  }

  /** A borrower extraction naming "Dupont" leaves no name in the identity as written, and the name in the corrected merge. */
  lemma IdentityNameDropped()
    ensures IdentityInfoAsWritten([Dict([("nom", Str("Dupont"))])]) == []
    ensures Get(IdentityInfo([Dict([("nom", Str("Dupont"))])]), "nom") == Some(Str("Dupont"))
  {
    var x := Dict([("nom", Str("Dupont"))]);
    var f := [("nom", Str("Dupont"))];
    assert FieldDict(x) == Some(f);
    IdentityAsWrittenHoldsOnlyAddress([x]);
    assert [x][..0] == [];
    assert AddressOf(f) == None;
    assert AllIdentityEntries([x]) == [] + IdentityEntries(f, IdentityKeys);
    FirstSetValueConcat([], IdentityEntries(f, IdentityKeys), "nom");
    IdentityEntriesLookup(f, IdentityKeys, "nom");
    IdentityFirstSetWins([x], "nom");
  }

  // ---------------------------------------------------------------------
  // Amounts written as text

  /** `s.replace("€", "").replace(" ", "").replace(",", ".")`. */
  function CleanAmountText(s: string): string {
    Replace(Replace(Replace(s, "€", ""), " ", ""), ",", ".")
  }

  /** `f"{n:,} €".replace(",", " ")`. */
  function SpacedEuros(n: int): string {
    Replace(GroupedInt(n, ',') + " €", ",", " ")
  }

  /** The rendering of an amount is its grouping with spaces, then " €". */
  lemma SpacedEurosGrouping(n: int)
    ensures SpacedEuros(n) == GroupedInt(n, ' ') + " €"
  {
    var g := GroupedInt(n, ',');
    ReplaceCharConcat(g, " €", ',', " ");
    ReplaceAbsentChar(" €", ',', " ");
    if n < 0 {
      ReplaceCharConcat("-", GroupedNat(-n, ','), ',', " ");
      ReplaceAbsentChar("-", ',', " ");
      GroupedNatCommaToSpace(-n);
    } else {
      GroupedNatCommaToSpace(n);
    }
  }

  /** Cleaning "<grouped n> €" leaves the plain digits of n. */
  lemma CleanGroupedEuros(n: nat)
    ensures CleanAmountText(GroupedNat(n, ' ') + " €") == NatToString(n)
  {
    var g := GroupedNat(n, ' ');
    GroupedNatChars(n, ' ');
    DropEuroSuffix(g);
    assert Replace(g + " ", " ", "") == NatToString(n) by {
      ReplaceCharConcat(g, " ", ' ', "");
      GroupedNatWithoutSeparators(n, ' ');
      assert Replace(" ", " ", "") == "";
    }
    NatToStringValue(n);
    NoSeparatorInDigits(NatToString(n), ',');
    ReplaceAbsentChar(NatToString(n), ',', ".");
  }

  /** Cleaning "<grouped n>,<cc> €" gives "<n>.<cc>". */
  lemma CleanGroupedEurosCents(n: nat, c: nat)
    requires c < 100
    ensures CleanAmountText(GroupedNat(n, ' ') + "," + TwoDigits(c) + " €") == NatToString(n) + "." + TwoDigits(c)
  {
    var g, d := GroupedNat(n, ' '), TwoDigits(c);
    GroupedNatChars(n, ' ');
    TwoDigitsValue(c);
    var body := g + "," + d;
    assert forall i :: 0 <= i < |body| ==> body[i] != '€' by {
      assert forall i :: 0 <= i < |d| ==> IsDigit(d[i]);
      assert forall i :: 0 <= i < |body| ==> body[i] == (if i < |g| then g[i] else if i == |g| then ',' else d[i - |g| - 1]);
    }
    DropEuroSuffix(body);
    var digits := NatToString(n);
    DropGroupSpaces(n, d);
    CentsPoint(n, d);
  }

  /** Removing "€" from text followed by " €" leaves the text and the space. */
  lemma DropEuroSuffix(body: string)
    requires forall i :: 0 <= i < |body| ==> body[i] != '€'
    ensures Replace(body + " €", "€", "") == body + " "
  {
    ReplaceCharConcat(body, " €", '€', "");
    ReplaceAbsentChar(body, '€', "");
    EuroSuffixDropped();
  }

  lemma EuroSuffixDropped()
    ensures Replace(" €", "€", "") == " "
  {
    ReplaceCharStep(" €", '€', "");
    ReplaceCharStep("€", '€', "");
    assert " €"[1..] == "€" && "€"[1..] == "";
  }

  lemma DropGroupSpaces(n: nat, d: string)
    requires forall i :: 0 <= i < |d| ==> d[i] != ' '
    ensures Replace(GroupedNat(n, ' ') + "," + d + " ", " ", "") == NatToString(n) + "," + d
  {
    GroupedNatWithoutSeparators(n, ' ');
    DropSpaces(GroupedNat(n, ' '), NatToString(n), d);
  }

  /** Removing the spaces of "<g>,<d> " when those of `g` leave `digits` and `d` has none. */
  lemma DropSpaces(g: string, digits: string, d: string)
    requires Replace(g, " ", "") == digits
    requires forall i :: 0 <= i < |d| ==> d[i] != ' '
    ensures Replace(g + "," + d + " ", " ", "") == digits + "," + d
  {
    ReplaceCharConcat(g + "," + d, " ", ' ', "");
    ReplaceCharConcat(g + ",", d, ' ', "");
    ReplaceCharConcat(g, ",", ' ', "");
    ReplaceAbsentChar(d, ' ', "");
    ReplaceAbsentChar(",", ' ', "");
    ReplaceCharStep(" ", ' ', "");
    assert " "[1..] == "";
  }

  lemma CentsPoint(n: nat, d: string)
    requires AllDigits(d)
    ensures Replace(NatToString(n) + "," + d, ",", ".") == NatToString(n) + "." + d
  {
    NatToStringValue(n);
    NoSeparatorInDigits(NatToString(n), ',');
    NoSeparatorInDigits(d, ',');
    ReplaceAbsentChar(NatToString(n), ',', ".");
    ReplaceAbsentChar(d, ',', ".");
    CommaToPoint(NatToString(n), d);
  }

  /** Turning the one comma of "<a>,<d>" into a point, when neither side holds a comma. */
  lemma CommaToPoint(a: string, d: string)
    requires Replace(a, ",", ".") == a && Replace(d, ",", ".") == d
    ensures Replace(a + "," + d, ",", ".") == a + "." + d
  {
    calc {
      Replace(a + "," + d, ",", ".");
    == { assert a + "," + d == a + ("," + d); ReplaceCharConcat(a, "," + d, ',', "."); }
      Replace(a, ",", ".") + Replace("," + d, ",", ".");
    == { ReplaceCharConcat(",", d, ',', "."); }
      a + (Replace(",", ",", ".") + d);
    == { assert Replace(",", ",", ".") == "."; }
      a + ("." + d);
    == { AppendAssoc(a, ".", d); }
      a + "." + d;
    }
  }

  lemma AppendAssoc(a: string, b: string, c: string)
    ensures a + b + c == a + (b + c)
    ensures a + b + c + "" == a + b + c
  {
  }

  // ---------------------------------------------------------------------
  // Income: the fiscal reference income and a monthly estimate

  const FiscalKey: string := "revenu_fiscal_reference"
  const EstimateKey: string := "revenus_mensuels_estimes"

  /** The monthly estimate of a fiscal reference income: `int(float(cleaned) / 12)`, rendered; `None` where the source gives up. */
  function MonthlyEstimate(v: Value): Option<string> {
    if !v.Str? then None
    else match ParseFloat(CleanAmountText(v.s))
      case None => None
      case Some(x) => Some(Twelfth(x))
  }

  /** `f"{int(x / 12):,} €"` with spaces between the groups. */
  function Twelfth(x: real): string {
    SpacedEuros(Truncate(x / 12.0))
  }

  /** One extraction's contribution to the income summary. */
  function IncomeStep(info: Fields, x: Value): Fields {
    match FieldDict(x)
    case None => info
    case Some(f) =>
      match Get(f, FiscalKey)
      case None => info
      case Some(v) =>
        var withIncome := Put(info, FiscalKey, v);
        match MonthlyEstimate(v)
        case None => withIncome
        case Some(e) => Put(withIncome, EstimateKey, Str(e))
  }

  /** The income summary over the income extractions, in order. */
  function IncomeInfo(values: seq<Value>): Fields
    decreases |values|
  {
    if |values| == 0 then [] else IncomeStep(IncomeInfo(values[..|values| - 1]), values[|values| - 1])
  }

  /** The fiscal reference income of the last extraction that has one. */
  function LastFiscal(values: seq<Value>): Option<Value>
    decreases |values|
  {
    if |values| == 0 then None
    else
      match FieldDict(values[|values| - 1])
      case Some(f) => if HasKey(f, FiscalKey) then Get(f, FiscalKey) else LastFiscal(values[..|values| - 1])
      case None => LastFiscal(values[..|values| - 1])
  }

  /** The estimate from the last extraction whose fiscal reference income could be read. */
  function LastEstimate(values: seq<Value>): Option<Value>
    decreases |values|
  {
    if |values| == 0 then None
    else
      match FieldDict(values[|values| - 1])
      case Some(f) =>
        if HasKey(f, FiscalKey) && MonthlyEstimate(Get(f, FiscalKey).value).Some? then
          Some(Str(MonthlyEstimate(Get(f, FiscalKey).value).value))
        else LastEstimate(values[..|values| - 1])
      case None => LastEstimate(values[..|values| - 1])
  }

  /**
   * The summary holds the last fiscal reference income, and the estimate of
   * the last one that could be read: an unreadable income leaves an earlier
   * document's estimate in place.
   */
  lemma {:induction false} IncomeIsLast(values: seq<Value>)
    ensures Get(IncomeInfo(values), FiscalKey) == LastFiscal(values)
    ensures Get(IncomeInfo(values), EstimateKey) == LastEstimate(values)
    decreases |values|
  {
    if |values| > 0 {
      var init := values[..|values| - 1];
      IncomeIsLast(init);
      var info := IncomeInfo(init);
      match FieldDict(values[|values| - 1]) {
        case None =>
        case Some(f) =>
          if HasKey(f, FiscalKey) {
            var v := Get(f, FiscalKey).value;
            var withIncome := Put(info, FiscalKey, v);
            PutGetSame(info, FiscalKey, v);
            PutGetOther(info, FiscalKey, v, EstimateKey);
            if MonthlyEstimate(v).Some? {
              PutGetSame(withIncome, EstimateKey, Str(MonthlyEstimate(v).value));
              PutGetOther(withIncome, EstimateKey, Str(MonthlyEstimate(v).value), FiscalKey);
            }
          }
      }
    }
  }

  /** An income written "45 000 €" is estimated at "3 750 €" a month: a twelfth, truncated, grouped by spaces. */
  lemma MonthlyEstimateOfGrouped(n: nat)
    ensures MonthlyEstimate(Str(GroupedNat(n, ' ') + " €")) == Some(GroupedNat(n / 12, ' ') + " €")
  {
    var text := GroupedNat(n, ' ') + " €";
    var q: nat := n / 12;
    CleanGroupedEuros(n);
    ParseNatToString(n);
    MonthlyEstimateOfReadable(text, n as real);
    TwelfthOfWhole(n);
    SpacedEurosGrouping(q);
    assert GroupedInt(q, ' ') == GroupedNat(q, ' ');
  }

  /** A text that reads as `x` once cleaned is estimated at a twelfth of `x`. */
  lemma MonthlyEstimateOfReadable(text: string, x: real)
    requires ParseFloat(CleanAmountText(text)) == Some(x)
    ensures MonthlyEstimate(Str(text)) == Some(Twelfth(x))
  {
  }

  lemma TwelfthOfWhole(n: nat)
    ensures Twelfth(n as real) == SpacedEuros(n / 12)
  {
    TwelfthTruncated(n);
  }

  /** `int(n / 12)` on a whole amount is the integer quotient. */
  lemma TwelfthTruncated(n: nat)
    ensures Truncate(n as real / 12.0) == n / 12
  {
    var q, r := n / 12, n % 12;
    assert n as real / 12.0 == q as real + r as real / 12.0;
  }

  /** The income loop. */
  method EstimateIncome(values: seq<Value>) returns (info: Fields)
    ensures info == IncomeInfo(values)
  {
    info := [];
    for i := 0 to |values|
      invariant info == IncomeInfo(values[..i])
    {
      assert values[..i + 1][..i] == values[..i];
      var fields := FieldDict(values[i]);
      if fields.Some? && HasKey(fields.value, FiscalKey) {
        var income := Get(fields.value, FiscalKey).value;
        info := Put(info, FiscalKey, income);
        var estimate := MonthlyEstimate(income);
        if estimate.Some? {
          info := Put(info, EstimateKey, Str(estimate.value));
        }
      }
    }
    assert values[..|values|] == values;
  }

  // ---------------------------------------------------------------------
  // Movable assets: the sum of the amounts written in their fields

  const TotalKey: string := "total_calcule"

  /** A text that reads as an amount: it has a euro sign or the word "euros" in any case. */
  predicate IsAmountText(s: string) {
    Contains(s, "€") || Contains(Lower(s), "euros")
  }

  /** The amount a field value contributes, when it is amount text that parses. */
  function AmountOf(v: Value): Option<real> {
    if v.Str? && IsAmountText(v.s) then ParseFloat(Replace(Lower(CleanAmountText(v.s)), "euros", ""))
    else None
  }

  /** The sum of the amounts of one field dictionary. */
  function FieldsTotal(f: Fields): real
    decreases |f|
  {
    if |f| == 0 then 0.0 else FieldsTotal(f[..|f| - 1]) + AmountOf(f[|f| - 1].1).GetOr(0.0)
  }

  /** The sum over the movable-asset extractions. */
  function MovableTotal(values: seq<Value>): real
    decreases |values|
  {
    if |values| == 0 then 0.0
    else
      var here := match FieldDict(values[|values| - 1]) case Some(f) => FieldsTotal(f) case None => 0.0;
      MovableTotal(values[..|values| - 1]) + here
  }

  /** The movable-asset section with its computed total, written only when positive. */
  function WithTotal(section: Fields, total: real): Fields {
    if total > 0.0 then Put(section, TotalKey, Str(SpacedEuros(RoundHalfEven(total)))) else section
  }

  /** Digits and points are untouched by lower-casing. */
  lemma LowerKeepsNumber(s: string)
    requires forall i :: 0 <= i < |s| ==> IsDigit(s[i]) || s[i] == '.'
    ensures Lower(s) == s
  {
  }

  /** "<grouped n> €" counts for n. */
  lemma AmountOfWholeEuros(n: nat)
    ensures AmountOf(Str(GroupedNat(n, ' ') + " €")) == Some(n as real)
  {
    var s := GroupedNat(n, ' ') + " €";
    var digits := NatToString(n);
    ContainsAt(s, "€", |s| - 1);
    CleanGroupedEuros(n);
    NatToStringValue(n);
    LowerKeepsNumber(digits);
    ReplaceAbsentPattern(digits, "euros", "");
    ParseNatToString(n);
  }

  /** "<grouped n>,<cc> €" counts for n + cc/100. */
  lemma AmountOfEurosCents(n: nat, c: nat)
    requires c < 100
    ensures AmountOf(Str(GroupedNat(n, ' ') + "," + TwoDigits(c) + " €")) == Some(n as real + c as real / 100.0)
  {
    var s := GroupedNat(n, ' ') + "," + TwoDigits(c) + " €";
    var cleaned := NatToString(n) + "." + TwoDigits(c);
    ContainsAt(s, "€", |s| - 1);
    CleanGroupedEurosCents(n, c);
    NatToStringValue(n);
    TwoDigitsValue(c);
    assert forall i :: 0 <= i < |cleaned| ==> IsDigit(cleaned[i]) || cleaned[i] == '.' by {
      forall i | 0 <= i < |cleaned| ensures IsDigit(cleaned[i]) || cleaned[i] == '.' {
        if i < |NatToString(n)| {
          assert cleaned[i] == NatToString(n)[i];
        } else if i > |NatToString(n)| {
          assert cleaned[i] == TwoDigits(c)[i - |NatToString(n)| - 1];
        }
      }
    }
    LowerKeepsNumber(cleaned);
    ReplaceAbsentPattern(cleaned, "euros", "");
    ParseDecimal(n, c);
  }

  /** "Non spécifié" is not amount text and counts for nothing. */
  lemma SentinelIsNoAmount(v: Value)
    requires v == Str(NotSpecified)
    ensures AmountOf(v) == None
  {
    NotSpecifiedLetters();
    forall j | 0 <= j < |Lower(v.s)|
      ensures Lower(v.s)[j] != 'u'
    {
      assert Lower(v.s)[j] == LowerChar(v.s[j]);
    }
    AbsentCharNotContained(Lower(v.s), "euros", 1);
    WithoutEuroNoAmount(v.s);
  }

  /** Text with no euro sign and no "euros" in any case counts for nothing. */
  lemma WithoutEuroNoAmount(s: string)
    requires forall j :: 0 <= j < |s| ==> s[j] != '€'
    requires !Contains(Lower(s), "euros")
    ensures AmountOf(Str(s)) == None
  {
    AbsentCharNotContained(s, "€", 0);
  }

  lemma WholeEurosExample()
    ensures AmountOf(Str("12 500 €")) == Some(12500.0)
  {
    assert GroupedNat(12500, ' ') + " €" == "12 500 €" by {
      assert NatToString(12) == "12";
      assert Pad3(500) == "500";
    }
    AmountOfWholeEuros(12500);
  }

  lemma EurosCentsExample()
    ensures AmountOf(Str("3 200,50 €")) == Some(3200.5)
  {
    assert GroupedNat(3200, ' ') + "," + TwoDigits(50) + " €" == "3 200,50 €" by {
      assert Pad3(200) == "200";
    }
    AmountOfEurosCents(3200, 50);
  }

  /** The total of three fields is the sum of their amounts, missing ones counting zero. */
  lemma {:induction false} FieldsTotalOfThree(f: Fields)
    requires |f| == 3
    ensures FieldsTotal(f) == AmountOf(f[0].1).GetOr(0.0) + AmountOf(f[1].1).GetOr(0.0) + AmountOf(f[2].1).GetOr(0.0)
  {
    assert f[..1][..0] == [];
    assert FieldsTotal(f[..1]) == AmountOf(f[0].1).GetOr(0.0);
    assert f[..2][..1] == f[..1];
    assert FieldsTotal(f[..2]) == FieldsTotal(f[..1]) + AmountOf(f[1].1).GetOr(0.0);
  }

  /** "12 500 €", "3 200,50 €" and "Non spécifié" sum to 15 700.5. */
  lemma MovableTotalExample(savings: Value, deposit: Value, insurance: Value)
    requires savings == Str("12 500 €") && deposit == Str("3 200,50 €") && insurance == Str(NotSpecified)
    ensures FieldsTotal([("solde", savings), ("epargne", deposit), ("assurance_vie", insurance)]) == 15700.5
  {
    WholeEurosExample();
    EurosCentsExample();
    SentinelIsNoAmount(insurance);
    FieldsTotalOfThree([("solde", savings), ("epargne", deposit), ("assurance_vie", insurance)]);
  }

  /** A total of 15 700.5 is written "15 700 €" (the tie rounds to the even 15 700). */
  lemma TotalTextExample()
    ensures WithTotal([], 15700.5) == [(TotalKey, Str("15 700 €"))]
  {
    assert RoundHalfEven(15700.5) == 15700;
    SpacedEurosGrouping(15700);
    assert GroupedNat(15700, ' ') == "15 700" by {
      assert 15700 / 1000 == 15 && 15700 % 1000 == 700;
      assert NatToString(15) == "15" by {
        assert 15 / 10 == 1 && 15 % 10 == 5;
        assert NatToString(1) == "1";
      }
      assert Pad3(700) == "700" by {
        assert 700 / 100 == 7 && 700 / 10 == 70 && 70 % 10 == 0 && 700 % 10 == 0;
        assert DigitChar(7) == '7' && DigitChar(0) == '0';
      }
    }
    assert GroupedInt(15700, ' ') == "15 700";
    assert SpacedEuros(15700) == "15 700 €";
  }

  /** The movable-asset loop: every value of every extraction's fields. */
  method SumMovableAssets(values: seq<Value>) returns (total: real)
    ensures total == MovableTotal(values)
  {
    total := 0.0;
    for i := 0 to |values|
      invariant total == MovableTotal(values[..i])
    {
      assert values[..i + 1][..i] == values[..i];
      var fields := FieldDict(values[i]);
      if fields.Some? {
        var f := fields.value;
        ghost var before := total;
        for j := 0 to |f|
          invariant total == before + FieldsTotal(f[..j])
        {
          assert f[..j + 1][..j] == f[..j];
          var amount := AmountOf(f[j].1);
          if amount.Some? {
            total := total + amount.value;
          }
        }
        assert f[..|f|] == f;
      }
    }
    assert values[..|values|] == values;
  }

  // ---------------------------------------------------------------------
  // Companies: the field sets of the company entries

  /** The field set of each company entry that has data, in order. */
  function CompanyFields(societes: seq<Value>): seq<Value>
    decreases |societes|
  {
    if |societes| == 0 then []
    else
      var entry := societes[|societes| - 1];
      var here :=
        if entry.Dict? && HasKey(entry.fields, "data") then
          match FieldsValue(Get(entry.fields, "data").value) case Some(f) => [f] case None => []
        else [];
      CompanyFields(societes[..|societes| - 1]) + here
  }

  /** The field sets of the routed company documents, in document order. */
  function RoutedCompanyFields(docs: seq<SourceDocument>): seq<Value>
    decreases |docs|
  {
    if |docs| == 0 then []
    else
      var d := docs[|docs| - 1];
      var here :=
        if Truthy(d.extractedData) && Route(d) == Societes then
          match FieldsValue(d.extractedData) case Some(f) => [f] case None => []
        else [];
      RoutedCompanyFields(docs[..|docs| - 1]) + here
  }

  /** On the list routing builds, the merged company data are the field sets of the company documents, in order. */
  lemma {:induction false} CompanyFieldsOfRouted(docs: seq<SourceDocument>)
    ensures CompanyFields(CompanyEntries(docs)) == RoutedCompanyFields(docs)
    decreases |docs|
  {
    if |docs| > 0 {
      var init := docs[..|docs| - 1];
      var d := docs[|docs| - 1];
      CompanyFieldsOfRouted(init);
      if Truthy(d.extractedData) && Route(d) == Societes {
        var entries := CompanyEntries(init) + [CompanyEntry(d)];
        assert entries[..|entries| - 1] == CompanyEntries(init);
        assert Get(CompanyEntry(d).fields, "data") == Some(d.extractedData);
      } else {
        assert CompanyEntries(docs) == CompanyEntries(init) + [];
        assert CompanyEntries(init) + [] == CompanyEntries(init);
      }
    }
  }

  /** The company loop. */
  method MergeCompanies(societes: seq<Value>) returns (merged: seq<Value>)
    ensures merged == CompanyFields(societes)
  {
    merged := [];
    for i := 0 to |societes|
      invariant merged == CompanyFields(societes[..i])
    {
      assert societes[..i + 1][..i] == societes[..i];
      var entry := societes[i];
      if entry.Dict? && HasKey(entry.fields, "data") {
        var fields := FieldsValue(Get(entry.fields, "data").value);
        if fields.Some? {
          merged := merged + [fields.value];
        }
      }
    }
    assert societes[..|societes|] == societes;
  }

  // ---------------------------------------------------------------------
  // The enrichment pass

  /** The enriched data: the company list is replaced by a dictionary of the original list and the merged fields. */
  datatype EnhancedData = EnhancedData(
    emprunteur: Fields,
    revenus: Fields,
    patrimoineImmobilier: Fields,
    patrimoineMobilier: Fields,
    societes: Fields,
    projet: Fields,
    documentsSources: seq<string>)

  /** What `_enhance_documents_data` returns. */
  function Enhanced(data: StructuredData): EnhancedData {
    EnhancedData(
      Put(data.emprunteur, "identite_fusionnee", Dict(IdentityInfoAsWritten(ValuesOf(data.emprunteur)))),
      Put(data.revenus, "infusions_fusionnees", Dict(IncomeInfo(ValuesOf(data.revenus)))),
      data.patrimoineImmobilier,
      WithTotal(data.patrimoineMobilier, MovableTotal(ValuesOf(data.patrimoineMobilier))),
      [("original_data", List(data.societes)), ("donnees_fusionnees", List(CompanyFields(data.societes)))],
      Put(data.projet, "infos_fusionnees", Dict(ProjectInfo(ValuesOf(data.projet)))),
      data.documentsSources)
  }

  /**
   * The enrichment never loses an extraction: every key of every section
   * other than the one it adds keeps its value.
   */
  lemma EnhancedKeepsExtractions(data: StructuredData, k: string)
    ensures k != "identite_fusionnee" ==> Get(Enhanced(data).emprunteur, k) == Get(data.emprunteur, k)
    ensures k != "infusions_fusionnees" ==> Get(Enhanced(data).revenus, k) == Get(data.revenus, k)
    ensures k != TotalKey ==> Get(Enhanced(data).patrimoineMobilier, k) == Get(data.patrimoineMobilier, k)
    ensures k != "infos_fusionnees" ==> Get(Enhanced(data).projet, k) == Get(data.projet, k)
  {
    var e := Enhanced(data);
    if k != "identite_fusionnee" {
      PutGetOther(data.emprunteur, "identite_fusionnee", Dict(IdentityInfoAsWritten(ValuesOf(data.emprunteur))), k);
    }
    if k != "infusions_fusionnees" {
      PutGetOther(data.revenus, "infusions_fusionnees", Dict(IncomeInfo(ValuesOf(data.revenus))), k);
    }
    var total := MovableTotal(ValuesOf(data.patrimoineMobilier));
    if k != TotalKey && total > 0.0 {
      PutGetOther(data.patrimoineMobilier, TotalKey, Str(SpacedEuros(RoundHalfEven(total))), k);
    }
    if k != "infos_fusionnees" {
      PutGetOther(data.projet, "infos_fusionnees", Dict(ProjectInfo(ValuesOf(data.projet))), k);
    }
  }

  /** The computed total is present exactly when the sum is positive (for a section that had none). */
  lemma TotalWrittenOnlyWhenPositive(section: Fields, total: real)
    requires !HasKey(section, TotalKey)
    ensures HasKey(WithTotal(section, total), TotalKey) <==> total > 0.0
    ensures total > 0.0 ==> Get(WithTotal(section, total), TotalKey) == Some(Str(GroupedInt(RoundHalfEven(total), ' ') + " €"))
  {
    if total > 0.0 {
      PutGetSame(section, TotalKey, Str(SpacedEuros(RoundHalfEven(total))));
      SpacedEurosGrouping(RoundHalfEven(total));
    }
  }

  /** `_enhance_documents_data`: the section loops one after the other. */
  method EnhanceDocumentsData(data: StructuredData) returns (r: EnhancedData)
    ensures r == Enhanced(data)
  {
    var identity := MergeIdentity(ValuesOf(data.emprunteur));
    var income := EstimateIncome(ValuesOf(data.revenus));
    var total := SumMovableAssets(ValuesOf(data.patrimoineMobilier));
    var movable := data.patrimoineMobilier;
    if total > 0.0 {
      movable := Put(movable, TotalKey, Str(SpacedEuros(RoundHalfEven(total))));
    }
    var companies := MergeCompanies(data.societes);
    var project := MergeProject(ValuesOf(data.projet));
    r := EnhancedData(
      Put(data.emprunteur, "identite_fusionnee", Dict(identity)),
      Put(data.revenus, "infusions_fusionnees", Dict(income)),
      data.patrimoineImmobilier,
      movable,
      [("original_data", List(data.societes)), ("donnees_fusionnees", List(companies))],
      Put(data.projet, "infos_fusionnees", Dict(project)),
      data.documentsSources);
  }
}
