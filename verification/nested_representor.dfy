/**
 * NestedRepresentor and its builder. Every step copies the current
 * representor, appends one entry to the copy and returns a new step over it;
 * the representor of the step a call was made on keeps its contents, except
 * that addBinary first puts the binary function into that representor's own
 * binary map.
 */
module NestedRepresentors {

  import opened Optional
  import opened Fields
  import opened History
  import opened BaseRepresentors

  class NestedRepresentor {
    const base: BaseRepresentor<NestedRepresentor>

    ghost predicate Valid()
      reads base
    {
      base.Valid()
    }

    function IsNested(): (nested: bool)
      ensures nested
    {
      true
    }

    constructor Empty()
      ensures fresh(base) && Valid() && base.history == []
    {
      base := new BaseRepresentor();
    }

    /** The copy made by each step: same contents, its own registry. */
    constructor Copy(other: NestedRepresentor)
      requires other.Valid()
      ensures fresh(base) && Valid() && base.history == other.base.history
    {
      base := new BaseRepresentor.Copy(other.base);
    }
  }

  /** A representor whose types are `name` then `names` and whose other collections are empty. */
  method WithTypes(name: string, names: seq<string>) returns (r: NestedRepresentor)
    ensures fresh(r) && fresh(r.base) && r.Valid()
    ensures r.base.history == [TypesAdded([name] + names)]
    ensures r.base.GetTypes() == [name] + names
    ensures forall c :: r.base.Functions(c) == []
    ensures r.base.binaryFunctions == map[]
    ensures r.base.GetNestedFieldFunctions() == [] && r.base.GetRelatedModels() == []
  {
    r := new NestedRepresentor.Empty();
    r.base.AddTypes(name, names);
  }

  /** A copy of `representor` with `entry` appended under `category`. */
  method WithFieldFunction(representor: NestedRepresentor, entry: FieldFunction, category: string)
    returns (r: NestedRepresentor)
    requires representor.Valid()
    ensures fresh(r) && fresh(r.base) && r.Valid()
    ensures r.base.history == representor.base.history + [FieldAdded(category, entry)]
    ensures r.base.Functions(category) == representor.base.Functions(category) + [entry]
    ensures forall c :: c != category ==> r.base.Functions(c) == representor.base.Functions(c)
  {
    r := new NestedRepresentor.Copy(representor);
    r.base.AddFieldFunction(entry, category);
  }

  /**
   * Puts the binary function into `representor`'s own binary map, then
   * returns a copy with the entry also appended under BINARY.
   */
  method WithBinaryFunction(representor: NestedRepresentor, entry: FieldFunction)
    returns (r: NestedRepresentor)
    requires representor.Valid()
    modifies representor.base
    ensures representor.Valid()
    ensures representor.base.history == old(representor.base.history) + [BinaryPut(entry.key, entry.fn)]
    ensures representor.base.GetBinaryFunction(entry.key) == Some(entry.fn)
    ensures representor.base.GetBinaryFunctions() == old(representor.base.GetBinaryFunctions())
    ensures fresh(r) && fresh(r.base) && r.Valid()
    ensures r.base.history
         == old(representor.base.history) + [BinaryPut(entry.key, entry.fn), FieldAdded(BINARY, entry)]
    ensures r.base.GetBinaryFunction(entry.key) == Some(entry.fn)
    ensures r.base.GetBinaryFunctions() == old(representor.base.GetBinaryFunctions()) + [entry]
  {
    representor.base.PutBinaryFunction(entry.key, entry.fn);
    r := WithFieldFunction(representor, entry, BINARY);
    Snoc(representor.base.history, FieldAdded(BINARY, entry));
  }

  /** A copy of `representor` with one more nested field function. */
  method WithNestedFieldFunction(representor: NestedRepresentor, nested: NestedFieldFunction<NestedRepresentor>)
    returns (r: NestedRepresentor)
    requires representor.Valid()
    ensures fresh(r) && fresh(r.base) && r.Valid()
    ensures r.base.history == representor.base.history + [NestedAdded(nested)]
    ensures r.base.GetNestedFieldFunctions() == representor.base.GetNestedFieldFunctions() + [nested]
    ensures forall c :: r.base.Functions(c) == representor.base.Functions(c)
  {
    r := new NestedRepresentor.Copy(representor);
    r.base.AddNestedFieldFunction(nested);
  }

  /** A copy of `representor` with one more related model. */
  method WithRelatedModel(representor: NestedRepresentor, related: RelatedModel)
    returns (r: NestedRepresentor)
    requires representor.Valid()
    ensures fresh(r) && fresh(r.base) && r.Valid()
    ensures r.base.history == representor.base.history + [RelatedAdded(related)]
    ensures r.base.GetRelatedModels() == representor.base.GetRelatedModels() + [related]
    ensures forall c :: r.base.Functions(c) == representor.base.Functions(c)
  {
    r := new NestedRepresentor.Copy(representor);
    r.base.AddRelatedModel(related);
  }

  class Builder {
    constructor ()
    {
    }

    /** The first step, over a fresh representor holding only the given types. */
    method Types(name: string, names: seq<string>) returns (step: FirstStep)
      ensures fresh(step) && fresh(step.nestedRepresentor) && fresh(step.nestedRepresentor.base)
      ensures step.Valid() && step.History() == [TypesAdded([name] + names)]
      ensures step.nestedRepresentor.base.GetTypes() == [name] + names
      ensures forall c :: step.nestedRepresentor.base.Functions(c) == []
      ensures step.nestedRepresentor.base.GetNestedFieldFunctions() == []
      ensures step.nestedRepresentor.base.GetRelatedModels() == []
    {
      var representor := WithTypes(name, names);
      step := new FirstStep(representor);
    }
  }

  class FirstStep {
    const nestedRepresentor: NestedRepresentor

    ghost predicate Valid()
      reads nestedRepresentor.base
    {
      nestedRepresentor.Valid()
    }

    ghost function History(): seq<Addition<NestedRepresentor>>
      reads nestedRepresentor.base
    {
      nestedRepresentor.base.history
    }

    constructor (representor: NestedRepresentor)
      ensures nestedRepresentor == representor
    {
      nestedRepresentor := representor;
    }

    method AddBinary(key: string, binaryFunction: Fn) returns (step: FirstStep)
      requires Valid()
      modifies nestedRepresentor.base
      ensures Valid() && History() == old(History()) + [BinaryPut(key, Supplied(binaryFunction))]
      ensures fresh(step) && fresh(step.nestedRepresentor) && fresh(step.nestedRepresentor.base) && step.Valid()
      ensures step.History()
           == old(History()) + [BinaryPut(key, Supplied(binaryFunction)), FieldAdded(BINARY, FieldFunction(key, Supplied(binaryFunction)))]
    {
      var representor := WithBinaryFunction(nestedRepresentor, FieldFunction(key, Supplied(binaryFunction)));
      step := new FirstStep(representor);
    }

    method AddBoolean(key: string, getter: Fn) returns (step: FirstStep)
      requires Valid()
      ensures fresh(step) && fresh(step.nestedRepresentor) && fresh(step.nestedRepresentor.base) && step.Valid()
      ensures step.History() == History() + [FieldAdded(BOOLEAN, FieldFunction(key, Supplied(getter)))]
    {
      var representor := WithFieldFunction(nestedRepresentor, FieldFunction(key, Supplied(getter)), BOOLEAN);
      step := new FirstStep(representor);
    }

    method AddBooleanList(key: string, getter: Fn) returns (step: FirstStep)
      requires Valid()
      ensures fresh(step) && fresh(step.nestedRepresentor) && fresh(step.nestedRepresentor.base) && step.Valid()
      ensures step.History() == History() + [FieldAdded(BOOLEAN_LIST, FieldFunction(key, Supplied(getter)))]
    {
      var representor := WithFieldFunction(nestedRepresentor, FieldFunction(key, Supplied(getter)), BOOLEAN_LIST);
      step := new FirstStep(representor);
    }

    /** A date field is filed as a STRING field whose function formats the date. */
    method AddDate(key: string, getter: Fn) returns (step: FirstStep)
      requires Valid()
      ensures fresh(step) && fresh(step.nestedRepresentor) && fresh(step.nestedRepresentor.base) && step.Valid()
      ensures step.History() == History() + [FieldAdded(STRING, FieldFunction(key, DateFormatted(getter)))]
    {
      var representor := WithFieldFunction(nestedRepresentor, FieldFunction(key, DateFormatted(getter)), STRING);
      step := new FirstStep(representor);
    }

    /** A link is filed as a LINK field whose function yields `url` for every model. */
    method AddLink(key: string, url: string) returns (step: FirstStep)
      requires Valid()
      ensures fresh(step) && fresh(step.nestedRepresentor) && fresh(step.nestedRepresentor.base) && step.Valid()
      ensures step.History() == History() + [FieldAdded(LINK, FieldFunction(key, ConstantUrl(url)))]
    {
      var representor := WithFieldFunction(nestedRepresentor, FieldFunction(key, ConstantUrl(url)), LINK);
      step := new FirstStep(representor);
    }

    method AddLinkedModel(key: string, identifierClass: ClassRef, identifierFunction: Fn) returns (step: FirstStep)
      requires Valid()
      ensures fresh(step) && fresh(step.nestedRepresentor) && fresh(step.nestedRepresentor.base) && step.Valid()
      ensures step.History() == History() + [RelatedAdded(RelatedModel(key, identifierClass, identifierFunction))]
    {
      var representor := WithRelatedModel(nestedRepresentor, RelatedModel(key, identifierClass, identifierFunction));
      step := new FirstStep(representor);
    }

    method AddLocalizedStringByLanguage(key: string, stringFunction: LocalizedFn) returns (step: FirstStep)
      requires Valid()
      ensures fresh(step) && fresh(step.nestedRepresentor) && fresh(step.nestedRepresentor.base) && step.Valid()
      ensures step.History() == History() + [FieldAdded(LOCALIZED, FieldFunction(key, Localized(stringFunction)))]
    {
      var representor := WithFieldFunction(nestedRepresentor, FieldFunction(key, Localized(stringFunction)), LOCALIZED);
      step := new FirstStep(representor);
    }

    /** The language variant, given the caller's function applied to the language's preferred locale. */
    method AddLocalizedStringByLocale(key: string, stringFunction: Fn) returns (step: FirstStep)
      requires Valid()
      ensures fresh(step) && fresh(step.nestedRepresentor) && fresh(step.nestedRepresentor.base) && step.Valid()
      ensures step.History()
           == History() + [FieldAdded(LOCALIZED, FieldFunction(key, Localized(ByPreferredLocale(stringFunction))))]
    {
      step := AddLocalizedStringByLanguage(key, ByPreferredLocale(stringFunction));
    }

    /**
     * Adds a nested field; `built` is what the caller's representorFunction
     * returned when applied to a fresh Builder.
     */
    method AddNested(key: string, transformFunction: Fn, built: NestedRepresentor) returns (step: FirstStep)
      requires Valid()
      ensures fresh(step) && fresh(step.nestedRepresentor) && fresh(step.nestedRepresentor.base) && step.Valid()
      ensures step.History() == History() + [NestedAdded(NestedFieldFunction(key, transformFunction, built))]
    {
      var nested := NestedFieldFunction(key, transformFunction, built);
      var representor := WithNestedFieldFunction(nestedRepresentor, nested);
      step := new FirstStep(representor);
    }

    method AddNumber(key: string, getter: Fn) returns (step: FirstStep)
      requires Valid()
      ensures fresh(step) && fresh(step.nestedRepresentor) && fresh(step.nestedRepresentor.base) && step.Valid()
      ensures step.History() == History() + [FieldAdded(NUMBER, FieldFunction(key, Supplied(getter)))]
    {
      var representor := WithFieldFunction(nestedRepresentor, FieldFunction(key, Supplied(getter)), NUMBER);
      step := new FirstStep(representor);
    }

    method AddNumberList(key: string, getter: Fn) returns (step: FirstStep)
      requires Valid()
      ensures fresh(step) && fresh(step.nestedRepresentor) && fresh(step.nestedRepresentor.base) && step.Valid()
      ensures step.History() == History() + [FieldAdded(NUMBER_LIST, FieldFunction(key, Supplied(getter)))]
    {
      var representor := WithFieldFunction(nestedRepresentor, FieldFunction(key, Supplied(getter)), NUMBER_LIST);
      step := new FirstStep(representor);
    }

    method AddString(key: string, getter: Fn) returns (step: FirstStep)
      requires Valid()
      ensures fresh(step) && fresh(step.nestedRepresentor) && fresh(step.nestedRepresentor.base) && step.Valid()
      ensures step.History() == History() + [FieldAdded(STRING, FieldFunction(key, Supplied(getter)))]
    {
      var representor := WithFieldFunction(nestedRepresentor, FieldFunction(key, Supplied(getter)), STRING);
      step := new FirstStep(representor);
    }

    method AddStringList(key: string, getter: Fn) returns (step: FirstStep)
      requires Valid()
      ensures fresh(step) && fresh(step.nestedRepresentor) && fresh(step.nestedRepresentor.base) && step.Valid()
      ensures step.History() == History() + [FieldAdded(STRING_LIST, FieldFunction(key, Supplied(getter)))]
    {
      var representor := WithFieldFunction(nestedRepresentor, FieldFunction(key, Supplied(getter)), STRING_LIST);
      step := new FirstStep(representor);
    }

    /** The representor this step wraps, as it is. */
    function Build(): (r: NestedRepresentor)
      ensures r == nestedRepresentor
    {
      nestedRepresentor
    }
  }

}
