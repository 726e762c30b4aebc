/**
 * The abstract state of a representor: the sequence of additions made to it,
 * oldest first. Each collection a representor exposes is a function of that
 * sequence, defined here independently of the maps and lists that hold it;
 * BaseRepresentor's invariant ties its fields to these definitions.
 */
module History {

  import opened Optional
  import opened Fields

  /** One change to a representor's state; R is the nested representor type. */
  datatype Addition<R> =
    | FieldAdded(category: string, entry: FieldFunction)  // entry appended to the list under category
    | BinaryPut(key: string, fn: FieldFn)                 // fn stored in the binary map under key
    | NestedAdded(nested: NestedFieldFunction<R>)         // nested appended to the nested field functions
    | RelatedAdded(related: RelatedModel)                 // related appended to the related models
    | TypesAdded(names: seq<string>)                      // names appended, in order, to the types

  /** The field functions filed under `category`, in the order they were added. */
  function Listed<R>(h: seq<Addition<R>>, category: string): seq<FieldFunction>
    decreases |h|
  {
    if h == [] then []
    else
      var a := h[|h| - 1];
      Listed(h[..|h| - 1], category) + (if a.FieldAdded? && a.category == category then [a.entry] else [])
  }

  /** The binary function stored under `key`: the one put last, if any. */
  function BinaryLookup<R>(h: seq<Addition<R>>, key: string): Option<FieldFn>
    decreases |h|
  {
    if h == [] then None
    else
      var a := h[|h| - 1];
      if a.BinaryPut? && a.key == key then Some(a.fn) else BinaryLookup(h[..|h| - 1], key)
  }

  /** The nested field functions, in the order they were added. */
  function NestedOf<R>(h: seq<Addition<R>>): seq<NestedFieldFunction<R>>
    decreases |h|
  {
    if h == [] then []
    else
      var a := h[|h| - 1];
      NestedOf(h[..|h| - 1]) + (if a.NestedAdded? then [a.nested] else [])
  }

  /** The related models, in the order they were added. */
  function RelatedOf<R>(h: seq<Addition<R>>): seq<RelatedModel>
    decreases |h|
  {
    if h == [] then []
    else
      var a := h[|h| - 1];
      RelatedOf(h[..|h| - 1]) + (if a.RelatedAdded? then [a.related] else [])
  }

  /** The type names, in the order they were added. */
  function TypesOf<R>(h: seq<Addition<R>>): seq<string>
    decreases |h|
  {
    if h == [] then []
    else
      var a := h[|h| - 1];
      TypesOf(h[..|h| - 1]) + (if a.TypesAdded? then a.names else [])
  }

  /** The function of the last entry named `key` in a list of field functions. */
  function LastKeyed(entries: seq<FieldFunction>, key: string): Option<FieldFn>
    decreases |entries|
  {
    if entries == [] then None
    else if entries[|entries| - 1].key == key then Some(entries[|entries| - 1].fn)
    else LastKeyed(entries[..|entries| - 1], key)
  }

  /**
   * The binary map agrees with the BINARY list: a lookup by key finds exactly
   * the function of the last listed binary entry with that key.
   */
  ghost predicate BinaryAgrees<R>(h: seq<Addition<R>>)
  {
    forall key :: BinaryLookup(h, key) == LastKeyed(Listed(h, BINARY), key)
  }

  /** One addition changes each collection by that addition's own contribution only. */
  lemma Snoc<R>(h: seq<Addition<R>>, a: Addition<R>)
    ensures forall c :: Listed(h + [a], c) == Listed(h, c) + (if a.FieldAdded? && a.category == c then [a.entry] else [])
    ensures forall k :: BinaryLookup(h + [a], k) == if a.BinaryPut? && a.key == k then Some(a.fn) else BinaryLookup(h, k)
    ensures NestedOf(h + [a]) == NestedOf(h) + (if a.NestedAdded? then [a.nested] else [])
    ensures RelatedOf(h + [a]) == RelatedOf(h) + (if a.RelatedAdded? then [a.related] else [])
    ensures TypesOf(h + [a]) == TypesOf(h) + (if a.TypesAdded? then a.names else [])
  {
    assert (h + [a])[..|h|] == h;
  }

  /** Nothing has been added to a fresh representor. */
  lemma Empty<R>()
    ensures forall c :: Listed<R>([], c) == []
    ensures forall k :: BinaryLookup<R>([], k) == None
    ensures NestedOf<R>([]) == [] && RelatedOf<R>([]) == [] && TypesOf<R>([]) == []
    ensures BinaryAgrees<R>([])
  {
  }

  /**
   * Lists are never reordered or deduplicated: the entries filed under a
   * category by two runs of additions are those of the first run followed by
   * those of the second.
   */
  lemma {:induction false} ListedConcat<R>(h1: seq<Addition<R>>, h2: seq<Addition<R>>, category: string)
    ensures Listed(h1 + h2, category) == Listed(h1, category) + Listed(h2, category)
    decreases |h2|
  {
    if h2 == [] {
      assert h1 + h2 == h1;
    } else {
      var a := h2[|h2| - 1];
      var init := h2[..|h2| - 1];
      assert h2 == init + [a];
      assert h1 + h2 == (h1 + init) + [a];
      ListedConcat(h1, init, category);
      Snoc(h1 + init, a);
      Snoc(init, a);
    }
  }

  /** Two field functions with the same name filed one after the other are both kept, in call order. */
  lemma DuplicatesKept<R>(h: seq<Addition<R>>, category: string, first: FieldFunction, second: FieldFunction)
    requires first.key == second.key
    ensures Listed(h + [FieldAdded(category, first), FieldAdded(category, second)], category)
         == Listed(h, category) + [first, second]
  {
    var a1: Addition<R> := FieldAdded(category, first);
    var a2: Addition<R> := FieldAdded(category, second);
    ListedConcat(h, [a1, a2], category);
    Snoc([a1], a2);
    Snoc([], a1);
    assert [a1] + [a2] == [a1, a2];
    assert [] + [a1] == [a1];
  }

  /** A lookup by key finds nothing exactly when no binary function was ever put under that key. */
  lemma {:induction false} BinaryLookupAbsent<R>(h: seq<Addition<R>>, key: string)
    ensures BinaryLookup(h, key) == None <==> forall i :: 0 <= i < |h| ==> !(h[i].BinaryPut? && h[i].key == key)
    decreases |h|
  {
    if h != [] {
      var init := h[..|h| - 1];
      BinaryLookupAbsent(init, key);
      assert forall i :: 0 <= i < |init| ==> init[i] == h[i];
    }
  }

  /** A lookup by key finds the function put last under that key. */
  lemma {:induction false} BinaryLookupLatest<R>(h: seq<Addition<R>>, key: string, i: nat)
    requires i < |h| && h[i].BinaryPut? && h[i].key == key
    requires forall j :: i < j < |h| ==> !(h[j].BinaryPut? && h[j].key == key)
    ensures BinaryLookup(h, key) == Some(h[i].fn)
    decreases |h|
  {
    if i < |h| - 1 {
      var init := h[..|h| - 1];
      assert forall j :: i < j < |init| ==> init[j] == h[j];
      BinaryLookupLatest(init, key, i);
    }
  }

  /** LastKeyed finds nothing exactly when no entry has that name. */
  lemma {:induction false} LastKeyedAbsent(entries: seq<FieldFunction>, key: string)
    ensures LastKeyed(entries, key) == None <==> forall i :: 0 <= i < |entries| ==> entries[i].key != key
    decreases |entries|
  {
    if entries != [] {
      var init := entries[..|entries| - 1];
      LastKeyedAbsent(init, key);
      assert forall i :: 0 <= i < |init| ==> init[i] == entries[i];
    }
  }

  /** Appending one entry changes LastKeyed for that entry's key only. */
  lemma LastKeyedSnoc(entries: seq<FieldFunction>, e: FieldFunction, key: string)
    ensures LastKeyed(entries + [e], key) == if e.key == key then Some(e.fn) else LastKeyed(entries, key)
  {
    assert (entries + [e])[..|entries|] == entries;
  }

  /**
   * addBinaryFunction (a put under the entry's key, then the entry filed as
   * BINARY) keeps the binary map and the BINARY list in agreement.
   */
  lemma BinaryAgreesAfterBinary<R>(h: seq<Addition<R>>, entry: FieldFunction)
    requires BinaryAgrees(h)
    ensures BinaryAgrees(h + [BinaryPut(entry.key, entry.fn), FieldAdded(BINARY, entry)])
  {
    var put: Addition<R> := BinaryPut(entry.key, entry.fn);
    var filed: Addition<R> := FieldAdded(BINARY, entry);
    var h1 := h + [put];
    var h2 := h1 + [filed];
    assert h2 == h + [put, filed];
    Snoc(h, put);
    Snoc(h1, filed);
    assert Listed(h2, BINARY) == Listed(h, BINARY) + [entry];
    forall key
      ensures BinaryLookup(h2, key) == LastKeyed(Listed(h2, BINARY), key)
    {
      LastKeyedSnoc(Listed(h, BINARY), entry, key);
      assert BinaryLookup(h2, key) == BinaryLookup(h1, key);
      assert BinaryLookup(h, key) == LastKeyed(Listed(h, BINARY), key);
    }
  }

  /** Any addition other than a binary put or a BINARY filing keeps the agreement. */
  lemma BinaryAgreesAfterOther<R>(h: seq<Addition<R>>, a: Addition<R>)
    requires BinaryAgrees(h)
    requires !a.BinaryPut? && !(a.FieldAdded? && a.category == BINARY)
    ensures BinaryAgrees(h + [a])
  {
    Snoc(h, a);
    assert Listed(h + [a], BINARY) == Listed(h, BINARY);
    forall key
      ensures BinaryLookup(h + [a], key) == LastKeyed(Listed(h + [a], BINARY), key)
    {
      assert BinaryLookup(h + [a], key) == BinaryLookup(h, key);
    }
  }

  /**
   * A put alone under a key the BINARY list does not name (what a nested
   * builder's addBinary does to the representor of the step it was called on)
   * breaks the agreement: that representor's getBinaryFunction(key) now finds
   * a function that its getBinaryFunctions() does not list.
   */
  lemma PutAloneDisagrees<R>(h: seq<Addition<R>>, key: string, fn: FieldFn)
    requires forall i :: 0 <= i < |Listed(h, BINARY)| ==> Listed(h, BINARY)[i].key != key
    ensures BinaryLookup(h + [BinaryPut(key, fn)], key) == Some(fn)
    ensures LastKeyed(Listed(h + [BinaryPut(key, fn)], BINARY), key) == None
    ensures !BinaryAgrees(h + [BinaryPut(key, fn)])
  {
    Snoc(h, BinaryPut(key, fn));
    assert Listed(h + [BinaryPut(key, fn)], BINARY) == Listed(h, BINARY);
    LastKeyedAbsent(Listed(h, BINARY), key);
  }

  /**
   * A put alone keeps the binary map in agreement with the BINARY list exactly
   * when the put function is already the last one listed under its key.
   */
  lemma PutAloneAgreesIff<R>(h: seq<Addition<R>>, key: string, fn: FieldFn)
    requires BinaryAgrees(h)
    ensures BinaryAgrees(h + [BinaryPut(key, fn)]) <==> LastKeyed(Listed(h, BINARY), key) == Some(fn)
  {
    var h1 := h + [BinaryPut(key, fn)];
    Snoc(h, BinaryPut(key, fn));
    assert Listed(h1, BINARY) == Listed(h, BINARY);
    if LastKeyed(Listed(h, BINARY), key) == Some(fn) {
      forall k
        ensures BinaryLookup(h1, k) == LastKeyed(Listed(h1, BINARY), k)
      {
        assert BinaryLookup(h, k) == LastKeyed(Listed(h, BINARY), k);
      }
    } else {
      assert BinaryLookup(h1, key) != LastKeyed(Listed(h1, BINARY), key);
    }
  }

  /** Types accumulate in call order across runs of additions. */
  lemma {:induction false} TypesConcat<R>(h1: seq<Addition<R>>, h2: seq<Addition<R>>)
    ensures TypesOf(h1 + h2) == TypesOf(h1) + TypesOf(h2)
    decreases |h2|
  {
    if h2 == [] {
      assert h1 + h2 == h1;
    } else {
      var a := h2[|h2| - 1];
      var init := h2[..|h2| - 1];
      assert h2 == init + [a];
      assert h1 + h2 == (h1 + init) + [a];
      TypesConcat(h1, init);
      Snoc(h1 + init, a);
      Snoc(init, a);
    }
  }

}
