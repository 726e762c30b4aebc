/**
 * BaseRepresentor: the registry shared by Representor and NestedRepresentor.
 * Its maps and lists are updated in place by the add* methods; the typed
 * getters read one category each and give an empty list for a category
 * never written. The ghost `history` records every addition, and Valid()
 * ties each field to the History definition over it.
 */
module BaseRepresentors {

  import opened Optional
  import opened Fields
  import opened History

  /** R is the type of the representors held by nested field functions. */
  class BaseRepresentor<R> {
    var binaryFunctions: map<string, FieldFn>
    var fieldFunctions: map<string, seq<FieldFunction>>
    var nestedFieldFunctions: seq<NestedFieldFunction<R>>
    var relatedModels: seq<RelatedModel>
    var types: seq<string>

    /** Every addition made to this representor, oldest first. */
    ghost var history: seq<Addition<R>>

    ghost predicate Valid()
      reads this
    {
      && (forall c :: c in fieldFunctions <==> Listed(history, c) != [])
      && (forall c :: c in fieldFunctions ==> fieldFunctions[c] == Listed(history, c))
      && (forall k :: BinaryLookup(history, k) == if k in binaryFunctions then Some(binaryFunctions[k]) else None)
      && nestedFieldFunctions == NestedOf(history)
      && relatedModels == RelatedOf(history)
      && types == TypesOf(history)
    }

    /** A registry with nothing in it. */
    constructor ()
      ensures Valid() && history == []
      ensures binaryFunctions == map[] && fieldFunctions == map[]
      ensures nestedFieldFunctions == [] && relatedModels == [] && types == []
    {
      binaryFunctions := map[];
      fieldFunctions := map[];
      nestedFieldFunctions := [];
      relatedModels := [];
      types := [];
      history := [];
      Empty<R>();
    }

    /** A value copy of another registry: equal contents, nothing shared that can change. */
    constructor Copy(other: BaseRepresentor<R>)
      requires other.Valid()
      ensures Valid() && history == other.history
      ensures binaryFunctions == other.binaryFunctions && fieldFunctions == other.fieldFunctions
      ensures nestedFieldFunctions == other.nestedFieldFunctions
      ensures relatedModels == other.relatedModels && types == other.types
    {
      binaryFunctions := other.binaryFunctions;
      fieldFunctions := other.fieldFunctions;
      nestedFieldFunctions := other.nestedFieldFunctions;
      relatedModels := other.relatedModels;
      types := other.types;
      history := other.history;
    }

    /** The list under `category`, or the empty list when none was created. */
    function Functions(category: string): (r: seq<FieldFunction>)
      reads this
      requires Valid()
      ensures r == Listed(history, category)
    {
      if category in fieldFunctions then fieldFunctions[category] else []
    }

    /** The binary function registered under `binaryId`, if any. */
    function GetBinaryFunction(binaryId: string): (r: Option<FieldFn>)
      reads this
      requires Valid()
      ensures r == BinaryLookup(history, binaryId)
    {
      if binaryId in binaryFunctions then Some(binaryFunctions[binaryId]) else None
    }

    function GetBinaryFunctions(): (r: seq<FieldFunction>)
      reads this
      requires Valid()
      ensures r == Listed(history, BINARY)
    {
      Functions(BINARY)
    }

    function GetBooleanFunctions(): (r: seq<FieldFunction>)
      reads this
      requires Valid()
      ensures r == Listed(history, BOOLEAN)
    {
      Functions(BOOLEAN)
    }

    function GetBooleanListFunctions(): (r: seq<FieldFunction>)
      reads this
      requires Valid()
      ensures r == Listed(history, BOOLEAN_LIST)
    {
      Functions(BOOLEAN_LIST)
    }

    function GetLinkFunctions(): (r: seq<FieldFunction>)
      reads this
      requires Valid()
      ensures r == Listed(history, LINK)
    {
      Functions(LINK)
    }

    function GetLocalizedStringFunctions(): (r: seq<FieldFunction>)
      reads this
      requires Valid()
      ensures r == Listed(history, LOCALIZED)
    {
      Functions(LOCALIZED)
    }

    function GetNestedFieldFunctions(): (r: seq<NestedFieldFunction<R>>)
      reads this
      requires Valid()
      ensures r == NestedOf(history)
    {
      nestedFieldFunctions
    }

    function GetNumberFunctions(): (r: seq<FieldFunction>)
      reads this
      requires Valid()
      ensures r == Listed(history, NUMBER)
    {
      Functions(NUMBER)
    }

    function GetNumberListFunctions(): (r: seq<FieldFunction>)
      reads this
      requires Valid()
      ensures r == Listed(history, NUMBER_LIST)
    {
      Functions(NUMBER_LIST)
    }

    function GetRelatedModels(): (r: seq<RelatedModel>)
      reads this
      requires Valid()
      ensures r == RelatedOf(history)
    {
      relatedModels
    }

    function GetStringFunctions(): (r: seq<FieldFunction>)
      reads this
      requires Valid()
      ensures r == Listed(history, STRING)
    {
      Functions(STRING)
    }

    function GetStringListFunctions(): (r: seq<FieldFunction>)
      reads this
      requires Valid()
      ensures r == Listed(history, STRING_LIST)
    {
      Functions(STRING_LIST)
    }

    function GetTypes(): (r: seq<string>)
      reads this
      requires Valid()
      ensures r == TypesOf(history)
    {
      types
    }

    /**
     * Appends `entry` to the list under `category`, creating the list when
     * absent; every other list and collection is left as it was.
     */
    method AddFieldFunction(entry: FieldFunction, category: string)
      requires Valid()
      modifies this
      ensures Valid() && history == old(history) + [FieldAdded(category, entry)]
      ensures fieldFunctions == old(fieldFunctions)[category := old(Functions(category)) + [entry]]
      ensures forall c :: c != category ==> Functions(c) == old(Functions(c))
      ensures binaryFunctions == old(binaryFunctions) && types == old(types)
      ensures nestedFieldFunctions == old(nestedFieldFunctions) && relatedModels == old(relatedModels)
    {
      var list := if category in fieldFunctions then fieldFunctions[category] else [];
      fieldFunctions := fieldFunctions[category := list + [entry]];
      Snoc(history, FieldAdded(category, entry));
      history := history + [FieldAdded(category, entry)];
    }

    /** binaryFunctions.put: stores `fn` under `key`, replacing any earlier function. */
    method PutBinaryFunction(key: string, fn: FieldFn)
      requires Valid()
      modifies this
      ensures Valid() && history == old(history) + [BinaryPut(key, fn)]
      ensures binaryFunctions == old(binaryFunctions)[key := fn]
      ensures fieldFunctions == old(fieldFunctions) && types == old(types)
      ensures nestedFieldFunctions == old(nestedFieldFunctions) && relatedModels == old(relatedModels)
    {
      binaryFunctions := binaryFunctions[key := fn];
      Snoc(history, BinaryPut(key, fn));
      history := history + [BinaryPut(key, fn)];
    }

    /**
     * Stores the entry's function under its key (the last write for a key
     * wins) and appends the entry to the BINARY list (every write is kept).
     */
    method AddBinaryFunction(entry: FieldFunction)
      requires Valid()
      modifies this
      ensures Valid()
      ensures history == old(history) + [BinaryPut(entry.key, entry.fn), FieldAdded(BINARY, entry)]
      ensures binaryFunctions == old(binaryFunctions)[entry.key := entry.fn]
      ensures GetBinaryFunction(entry.key) == Some(entry.fn)
      ensures GetBinaryFunctions() == old(GetBinaryFunctions()) + [entry]
      ensures forall c :: c != BINARY ==> Functions(c) == old(Functions(c))
      ensures types == old(types)
      ensures nestedFieldFunctions == old(nestedFieldFunctions) && relatedModels == old(relatedModels)
    {
      PutBinaryFunction(entry.key, entry.fn);
      AddFieldFunction(entry, BINARY);
    }

    method AddBooleanFunction(entry: FieldFunction)
      requires Valid()
      modifies this
      ensures Valid() && history == old(history) + [FieldAdded(BOOLEAN, entry)]
      ensures GetBooleanFunctions() == old(GetBooleanFunctions()) + [entry]
      ensures forall c :: c != BOOLEAN ==> Functions(c) == old(Functions(c))
    {
      AddFieldFunction(entry, BOOLEAN);
    }

    method AddBooleanListFunction(entry: FieldFunction)
      requires Valid()
      modifies this
      ensures Valid() && history == old(history) + [FieldAdded(BOOLEAN_LIST, entry)]
      ensures GetBooleanListFunctions() == old(GetBooleanListFunctions()) + [entry]
      ensures forall c :: c != BOOLEAN_LIST ==> Functions(c) == old(Functions(c))
    {
      AddFieldFunction(entry, BOOLEAN_LIST);
    }

    method AddLanguageFunction(entry: FieldFunction)
      requires Valid()
      modifies this
      ensures Valid() && history == old(history) + [FieldAdded(LOCALIZED, entry)]
      ensures GetLocalizedStringFunctions() == old(GetLocalizedStringFunctions()) + [entry]
      ensures forall c :: c != LOCALIZED ==> Functions(c) == old(Functions(c))
    {
      AddFieldFunction(entry, LOCALIZED);
    }

    method AddLinkFunction(entry: FieldFunction)
      requires Valid()
      modifies this
      ensures Valid() && history == old(history) + [FieldAdded(LINK, entry)]
      ensures GetLinkFunctions() == old(GetLinkFunctions()) + [entry]
      ensures forall c :: c != LINK ==> Functions(c) == old(Functions(c))
    {
      AddFieldFunction(entry, LINK);
    }

    /** Appends to the nested field functions; no field function or type changes. */
    method AddNestedFieldFunction(nested: NestedFieldFunction<R>)
      requires Valid()
      modifies this
      ensures Valid() && history == old(history) + [NestedAdded(nested)]
      ensures nestedFieldFunctions == old(nestedFieldFunctions) + [nested]
      ensures fieldFunctions == old(fieldFunctions) && binaryFunctions == old(binaryFunctions)
      ensures types == old(types) && relatedModels == old(relatedModels)
    {
      nestedFieldFunctions := nestedFieldFunctions + [nested];
      Snoc(history, NestedAdded(nested));
      history := history + [NestedAdded(nested)];
    }

    method AddNumberFunction(entry: FieldFunction)
      requires Valid()
      modifies this
      ensures Valid() && history == old(history) + [FieldAdded(NUMBER, entry)]
      ensures GetNumberFunctions() == old(GetNumberFunctions()) + [entry]
      ensures forall c :: c != NUMBER ==> Functions(c) == old(Functions(c))
    {
      AddFieldFunction(entry, NUMBER);
    }

    method AddNumberListFunction(entry: FieldFunction)
      requires Valid()
      modifies this
      ensures Valid() && history == old(history) + [FieldAdded(NUMBER_LIST, entry)]
      ensures GetNumberListFunctions() == old(GetNumberListFunctions()) + [entry]
      ensures forall c :: c != NUMBER_LIST ==> Functions(c) == old(Functions(c))
    {
      AddFieldFunction(entry, NUMBER_LIST);
    }

    /** Appends to the related models; no field function or type changes. */
    method AddRelatedModel(related: RelatedModel)
      requires Valid()
      modifies this
      ensures Valid() && history == old(history) + [RelatedAdded(related)]
      ensures relatedModels == old(relatedModels) + [related]
      ensures fieldFunctions == old(fieldFunctions) && binaryFunctions == old(binaryFunctions)
      ensures types == old(types) && nestedFieldFunctions == old(nestedFieldFunctions)
    {
      relatedModels := relatedModels + [related];
      Snoc(history, RelatedAdded(related));
      history := history + [RelatedAdded(related)];
    }

    method AddStringFunction(entry: FieldFunction)
      requires Valid()
      modifies this
      ensures Valid() && history == old(history) + [FieldAdded(STRING, entry)]
      ensures GetStringFunctions() == old(GetStringFunctions()) + [entry]
      ensures forall c :: c != STRING ==> Functions(c) == old(Functions(c))
    {
      AddFieldFunction(entry, STRING);
    }

    method AddStringListFunction(entry: FieldFunction)
      requires Valid()
      modifies this
      ensures Valid() && history == old(history) + [FieldAdded(STRING_LIST, entry)]
      ensures GetStringListFunctions() == old(GetStringListFunctions()) + [entry]
      ensures forall c :: c != STRING_LIST ==> Functions(c) == old(Functions(c))
    {
      AddFieldFunction(entry, STRING_LIST);
    }

    /** Appends `name` and then `names`, in order, after the types already there. */
    method AddTypes(name: string, names: seq<string>)
      requires Valid()
      modifies this
      ensures Valid() && history == old(history) + [TypesAdded([name] + names)]
      ensures types == old(types) + [name] + names
      ensures fieldFunctions == old(fieldFunctions) && binaryFunctions == old(binaryFunctions)
      ensures nestedFieldFunctions == old(nestedFieldFunctions) && relatedModels == old(relatedModels)
    {
      types := types + [name];
      types := types + names;
      Snoc(history, TypesAdded([name] + names));
      history := history + [TypesAdded([name] + names)];
    }
  }

}
