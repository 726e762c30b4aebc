/**
 * Representor and its builder. The builder creates one Representor and every
 * step mutates that same object in place: IdentifierStep.Identifier installs
 * the identifier function, each FirstStep.Add* appends one entry and returns
 * the very step it was called on, and Build returns the representor.
 */
module Representors {

  import opened Optional
  import opened Fields
  import opened History
  import opened BaseRepresentors
  import opened NestedRepresentors

  /** Where a representor gets the related collections declared elsewhere. */
  datatype Supplier =
    | EmptyListSupplier        // always the empty list: the default builders' supplier
    | CallerSupplier(id: nat)  // the caller's supplier; what it returns is given at each call

  /** Whom a builder tells about the related collections a bidirectional model implies. */
  datatype BiConsumer =
    | NoOpConsumer             // ignores every call: the default
    | CallerConsumer(id: nat)  // the caller's consumer

  /** One notification to the consumer: a linked identifier class and its related collection. */
  datatype Acceptance = Acceptance(identifierClass: ClassRef, relatedCollection: RelatedCollection)

  /** The elements of the present lists, list by list and in order; absent (null) lists are skipped. */
  function FlattenPresent<T(!new)>(lists: seq<Option<seq<T>>>): (r: seq<T>)
    ensures forall x :: x in r <==> exists i :: 0 <= i < |lists| && lists[i].Some? && x in lists[i].value
  {
    if lists == [] then []
    else (if lists[0].Some? then lists[0].value else []) + FlattenPresent(lists[1..])
  }

  /** Flattening one list gives its elements when it is present, and nothing when it is null. */
  lemma FlattenOne<T(!new)>(list: Option<seq<T>>)
    ensures FlattenPresent([list]) == if list.Some? then list.value else []
  {
    assert [list][1..] == [];
  }

  /**
   * Flattening keeps the lists in order and every element of each, duplicates
   * included: flattening a concatenation is concatenating the flattenings.
   */
  lemma {:induction false} FlattenConcat<T(!new)>(a: seq<Option<seq<T>>>, b: seq<Option<seq<T>>>)
    ensures FlattenPresent(a + b) == FlattenPresent(a) + FlattenPresent(b)
    decreases |a|
  {
    if a == [] {
      assert a + b == b;
    } else {
      var head := if a[0].Some? then a[0].value else [];
      assert (a + b)[0] == a[0];
      assert (a + b)[1..] == a[1..] + b;
      FlattenConcat(a[1..], b);
      assert FlattenPresent(a + b) == head + (FlattenPresent(a[1..]) + FlattenPresent(b));
    }
  }

  /** Flattening two lists keeps the present ones, first list first. */
  lemma FlattenPair<T(!new)>(first: Option<seq<T>>, second: Option<seq<T>>)
    ensures FlattenPresent([first, second])
         == (if first.Some? then first.value else []) + (if second.Some? then second.value else [])
  {
    var a := if first.Some? then first.value else [];
    var b := if second.Some? then second.value else [];
    assert [first, second][1..] == [second];
    assert [second][1..] == [];
    calc {
      FlattenPresent([first, second]);
      a + FlattenPresent([second]);
      a + (b + FlattenPresent<T>([]));
      { assert b + [] == b; }
      a + b;
    }
  }

  class Representor {
    const base: BaseRepresentor<NestedRepresentor>
    const supplier: Supplier
    var identifierFunction: Option<Fn>
    var relatedCollections: seq<RelatedCollection>

    /** The registry is consistent, and its binary map agrees with its BINARY list. */
    ghost predicate Valid()
      reads base
    {
      base.Valid() && BinaryAgrees(base.history)
    }

    constructor (supplier: Supplier)
      ensures fresh(base) && Valid() && base.history == []
      ensures this.supplier == supplier && identifierFunction == None && relatedCollections == []
    {
      base := new BaseRepresentor();
      this.supplier := supplier;
      identifierFunction := None;
      relatedCollections := [];
      Empty<NestedRepresentor>();
    }

    /**
     * The model's identifier: the installed identifier function applied to
     * the model; None stands for the NullPointerException raised when no
     * identifier function was installed.
     */
    function GetIdentifier(model: Model, I: Interpretation): (r: Option<Value>)
      reads this
      ensures r.Some? <==> identifierFunction.Some?
      ensures identifierFunction.Some? ==> r.value == I.apply(identifierFunction.value, model)
    {
      match identifierFunction
      case None => None
      case Some(f) => Some(I.apply(f, model))
    }

    /**
     * The representor's own related collections, in the order they were
     * added, followed by the supplier's list. `callerList` is what the
     * caller's supplier returns at this call (None for null); the default
     * supplier always returns the empty list.
     */
    function GetRelatedCollections(callerList: Option<seq<RelatedCollection>>): (r: seq<RelatedCollection>)
      reads this
      ensures supplier.EmptyListSupplier? || callerList.None? ==> r == relatedCollections
      ensures supplier.CallerSupplier? && callerList.Some? ==> r == relatedCollections + callerList.value
    {
      var supplied := if supplier.EmptyListSupplier? then Some([]) else callerList;
      FlattenPair(Some(relatedCollections), supplied);
      FlattenPresent([Some(relatedCollections), supplied])
    }

    function IsNested(): (nested: bool)
      ensures !nested
    {
      false
    }

    method AddRelatedCollection(relatedCollection: RelatedCollection)
      modifies this
      ensures relatedCollections == old(relatedCollections) + [relatedCollection]
      ensures identifierFunction == old(identifierFunction)
    {
      relatedCollections := relatedCollections + [relatedCollection];
    }

    method SetIdentifierFunction(f: Fn)
      modifies this
      ensures identifierFunction == Some(f)
      ensures relatedCollections == old(relatedCollections)
    {
      identifierFunction := Some(f);
    }
  }

  class Builder {
    /** The one representor every step of this builder mutates. */
    const representor: Representor
    const identifierClass: Option<ClassRef>
    const biConsumer: BiConsumer
    /** The calls made to biConsumer, oldest first. */
    var accepted: seq<Acceptance>

    ghost predicate Valid()
      reads representor.base
    {
      representor.Valid()
    }

    /** Builder(): no identifier class, a no-op consumer and the empty-list supplier. */
    constructor ()
      ensures fresh(representor) && fresh(representor.base) && Valid()
      ensures identifierClass == None && biConsumer == NoOpConsumer && accepted == []
      ensures representor.supplier == EmptyListSupplier && representor.base.history == []
      ensures representor.identifierFunction == None && representor.relatedCollections == []
    {
      representor := new Representor(EmptyListSupplier);
      identifierClass := None;
      biConsumer := NoOpConsumer;
      accepted := [];
    }

    /** Builder(identifierClass): a no-op consumer and the empty-list supplier. */
    constructor WithIdentifierClass(identifierClass: Option<ClassRef>)
      ensures fresh(representor) && fresh(representor.base) && Valid()
      ensures this.identifierClass == identifierClass && biConsumer == NoOpConsumer && accepted == []
      ensures representor.supplier == EmptyListSupplier && representor.base.history == []
      ensures representor.identifierFunction == None && representor.relatedCollections == []
    {
      representor := new Representor(EmptyListSupplier);
      this.identifierClass := identifierClass;
      biConsumer := NoOpConsumer;
      accepted := [];
    }

    /** Builder(identifierClass, biConsumer, supplier). */
    constructor WithCallbacks(identifierClass: Option<ClassRef>, biConsumer: BiConsumer, supplier: Supplier)
      ensures fresh(representor) && fresh(representor.base) && Valid()
      ensures this.identifierClass == identifierClass && this.biConsumer == biConsumer && accepted == []
      ensures representor.supplier == supplier && representor.base.history == []
      ensures representor.identifierFunction == None && representor.relatedCollections == []
    {
      representor := new Representor(supplier);
      this.identifierClass := identifierClass;
      this.biConsumer := biConsumer;
      accepted := [];
    }

    /** Appends the types to the representor and moves on to the identifier step. */
    method Types(name: string, names: seq<string>) returns (step: IdentifierStep)
      requires Valid()
      modifies representor.base
      ensures fresh(step) && step.builder == this && Valid()
      ensures representor.base.history == old(representor.base.history) + [TypesAdded([name] + names)]
      ensures representor.base.GetTypes() == old(representor.base.GetTypes()) + [name] + names
    {
      ghost var before := representor.base.history;
      representor.base.AddTypes(name, names);
      BinaryAgreesAfterOther(before, TypesAdded([name] + names));
      step := new IdentifierStep(this);
    }
  }

  class IdentifierStep {
    const builder: Builder

    constructor (builder: Builder)
      ensures this.builder == builder
    {
      this.builder := builder;
    }

    /** Installs the identifier function: afterwards every model's identifier is its value. */
    method Identifier(identifierFunction: Fn) returns (step: FirstStep)
      requires builder.Valid()
      modifies builder.representor
      ensures fresh(step) && step.builder == builder && step.Valid()
      ensures builder.representor.identifierFunction == Some(identifierFunction)
      ensures forall m, I :: builder.representor.GetIdentifier(m, I) == Some(I.apply(identifierFunction, m))
      ensures builder.representor.relatedCollections == old(builder.representor.relatedCollections)
    {
      builder.representor.SetIdentifierFunction(identifierFunction);
      step := new FirstStep(builder);
    }
  }

  class FirstStep {
    const builder: Builder

    ghost predicate Valid()
      reads builder.representor.base
    {
      builder.Valid()
    }

    ghost function History(): seq<Addition<NestedRepresentor>>
      reads builder.representor.base
    {
      builder.representor.base.history
    }

    constructor (builder: Builder)
      ensures this.builder == builder
    {
      this.builder := builder;
    }

    /**
     * Links a model and tells the consumer, once, that the linked resource
     * has a related collection named `relatedKey` of this builder's
     * identifier class; this representor's own related collections stay as
     * they are.
     */
    method AddBidirectionalModel(key: string, relatedKey: string, identifierClass: ClassRef, identifierFunction: Fn)
      returns (step: FirstStep)
      requires Valid()
      modifies builder, builder.representor.base
      ensures step == this && Valid()
      ensures builder.accepted
           == old(builder.accepted) + [Acceptance(identifierClass, RelatedCollection(relatedKey, builder.identifierClass))]
      ensures History() == old(History()) + [RelatedAdded(RelatedModel(key, identifierClass, identifierFunction))]
      ensures builder.representor.relatedCollections == old(builder.representor.relatedCollections)
    {
      var relatedCollection := RelatedCollection(relatedKey, builder.identifierClass);
      builder.accepted := builder.accepted + [Acceptance(identifierClass, relatedCollection)];
      ghost var before := History();
      builder.representor.base.AddRelatedModel(RelatedModel(key, identifierClass, identifierFunction));
      BinaryAgreesAfterOther(before, RelatedAdded(RelatedModel(key, identifierClass, identifierFunction)));
      step := this;
    }

    /** Registers a binary resource: found by its key, and listed among the binary functions. */
    method AddBinary(key: string, binaryFunction: Fn) returns (step: FirstStep)
      requires Valid()
      modifies builder.representor.base
      ensures step == this && Valid()
      ensures History()
           == old(History()) + [BinaryPut(key, Supplied(binaryFunction)), FieldAdded(BINARY, FieldFunction(key, Supplied(binaryFunction)))]
      ensures builder.representor.base.GetBinaryFunction(key) == Some(Supplied(binaryFunction))
    {
      ghost var before := History();
      builder.representor.base.AddBinaryFunction(FieldFunction(key, Supplied(binaryFunction)));
      BinaryAgreesAfterBinary(before, FieldFunction(key, Supplied(binaryFunction)));
      step := this;
    }

    method AddBoolean(key: string, getter: Fn) returns (step: FirstStep)
      requires Valid()
      modifies builder.representor.base
      ensures step == this && Valid()
      ensures History() == old(History()) + [FieldAdded(BOOLEAN, FieldFunction(key, Supplied(getter)))]
    {
      var entry := FieldFunction(key, Supplied(getter));
      ghost var before := History();
      builder.representor.base.AddBooleanFunction(entry);
      BinaryAgreesAfterOther(before, FieldAdded(BOOLEAN, entry));
      step := this;
    }

    method AddBooleanList(key: string, getter: Fn) returns (step: FirstStep)
      requires Valid()
      modifies builder.representor.base
      ensures step == this && Valid()
      ensures History() == old(History()) + [FieldAdded(BOOLEAN_LIST, FieldFunction(key, Supplied(getter)))]
    {
      var entry := FieldFunction(key, Supplied(getter));
      ghost var before := History();
      builder.representor.base.AddBooleanListFunction(entry);
      BinaryAgreesAfterOther(before, FieldAdded(BOOLEAN_LIST, entry));
      step := this;
    }

    /** A date field is filed as a STRING field whose function formats the date. */
    method AddDate(key: string, getter: Fn) returns (step: FirstStep)
      requires Valid()
      modifies builder.representor.base
      ensures step == this && Valid()
      ensures History() == old(History()) + [FieldAdded(STRING, FieldFunction(key, DateFormatted(getter)))]
    {
      var entry := FieldFunction(key, DateFormatted(getter));
      ghost var before := History();
      builder.representor.base.AddStringFunction(entry);
      BinaryAgreesAfterOther(before, FieldAdded(STRING, entry));
      step := this;
    }

    /** A link is filed as a LINK field whose function yields `url` for every model. */
    method AddLink(key: string, url: string) returns (step: FirstStep)
      requires Valid()
      modifies builder.representor.base
      ensures step == this && Valid()
      ensures History() == old(History()) + [FieldAdded(LINK, FieldFunction(key, ConstantUrl(url)))]
    {
      var entry := FieldFunction(key, ConstantUrl(url));
      ghost var before := History();
      builder.representor.base.AddLinkFunction(entry);
      BinaryAgreesAfterOther(before, FieldAdded(LINK, entry));
      step := this;
    }

    method AddLinkedModel(key: string, identifierClass: ClassRef, identifierFunction: Fn) returns (step: FirstStep)
      requires Valid()
      modifies builder.representor.base
      ensures step == this && Valid()
      ensures History() == old(History()) + [RelatedAdded(RelatedModel(key, identifierClass, identifierFunction))]
    {
      ghost var before := History();
      builder.representor.base.AddRelatedModel(RelatedModel(key, identifierClass, identifierFunction));
      BinaryAgreesAfterOther(before, RelatedAdded(RelatedModel(key, identifierClass, identifierFunction)));
      step := this;
    }

    method AddLocalizedStringByLanguage(key: string, stringFunction: LocalizedFn) returns (step: FirstStep)
      requires Valid()
      modifies builder.representor.base
      ensures step == this && Valid()
      ensures History() == old(History()) + [FieldAdded(LOCALIZED, FieldFunction(key, Localized(stringFunction)))]
    {
      var entry := FieldFunction(key, Localized(stringFunction));
      ghost var before := History();
      builder.representor.base.AddLanguageFunction(entry);
      BinaryAgreesAfterOther(before, FieldAdded(LOCALIZED, entry));
      step := this;
    }

    /** The language variant, given the caller's function applied to the language's preferred locale. */
    method AddLocalizedStringByLocale(key: string, stringFunction: Fn) returns (step: FirstStep)
      requires Valid()
      modifies builder.representor.base
      ensures step == this && Valid()
      ensures History()
           == old(History()) + [FieldAdded(LOCALIZED, FieldFunction(key, Localized(ByPreferredLocale(stringFunction))))]
    {
      step := AddLocalizedStringByLanguage(key, ByPreferredLocale(stringFunction));
    }

    /**
     * Adds a nested field; `built` is what the caller's representorFunction
     * returned when applied to a fresh NestedRepresentor builder.
     */
    method AddNested(key: string, transformFunction: Fn, built: NestedRepresentor) returns (step: FirstStep)
      requires Valid()
      modifies builder.representor.base
      ensures step == this && Valid()
      ensures History() == old(History()) + [NestedAdded(NestedFieldFunction(key, transformFunction, built))]
    {
      var nested := NestedFieldFunction(key, transformFunction, built);
      ghost var before := History();
      builder.representor.base.AddNestedFieldFunction(nested);
      BinaryAgreesAfterOther(before, NestedAdded(nested));
      step := this;
    }

    method AddNumber(key: string, getter: Fn) returns (step: FirstStep)
      requires Valid()
      modifies builder.representor.base
      ensures step == this && Valid()
      ensures History() == old(History()) + [FieldAdded(NUMBER, FieldFunction(key, Supplied(getter)))]
    {
      var entry := FieldFunction(key, Supplied(getter));
      ghost var before := History();
      builder.representor.base.AddNumberFunction(entry);
      BinaryAgreesAfterOther(before, FieldAdded(NUMBER, entry));
      step := this;
    }

    method AddNumberList(key: string, getter: Fn) returns (step: FirstStep)
      requires Valid()
      modifies builder.representor.base
      ensures step == this && Valid()
      ensures History() == old(History()) + [FieldAdded(NUMBER_LIST, FieldFunction(key, Supplied(getter)))]
    {
      var entry := FieldFunction(key, Supplied(getter));
      ghost var before := History();
      builder.representor.base.AddNumberListFunction(entry);
      BinaryAgreesAfterOther(before, FieldAdded(NUMBER_LIST, entry));
      step := this;
    }

    /** Appends a related collection to the representor's own list; the registry is untouched. */
    method AddRelatedCollection(key: string, itemIdentifierClass: ClassRef) returns (step: FirstStep)
      requires Valid()
      modifies builder.representor
      ensures step == this && Valid()
      ensures builder.representor.relatedCollections
           == old(builder.representor.relatedCollections) + [RelatedCollection(key, Some(itemIdentifierClass))]
      ensures builder.representor.identifierFunction == old(builder.representor.identifierFunction)
    {
      builder.representor.AddRelatedCollection(RelatedCollection(key, Some(itemIdentifierClass)));
      step := this;
    }

    method AddString(key: string, getter: Fn) returns (step: FirstStep)
      requires Valid()
      modifies builder.representor.base
      ensures step == this && Valid()
      ensures History() == old(History()) + [FieldAdded(STRING, FieldFunction(key, Supplied(getter)))]
    {
      var entry := FieldFunction(key, Supplied(getter));
      ghost var before := History();
      builder.representor.base.AddStringFunction(entry);
      BinaryAgreesAfterOther(before, FieldAdded(STRING, entry));
      step := this;
    }

    method AddStringList(key: string, getter: Fn) returns (step: FirstStep)
      requires Valid()
      modifies builder.representor.base
      ensures step == this && Valid()
      ensures History() == old(History()) + [FieldAdded(STRING_LIST, FieldFunction(key, Supplied(getter)))]
    {
      var entry := FieldFunction(key, Supplied(getter));
      ghost var before := History();
      builder.representor.base.AddStringListFunction(entry);
      BinaryAgreesAfterOther(before, FieldAdded(STRING_LIST, entry));
      step := this;
    }

    /** The single representor this builder has been mutating. */
    function Build(): (r: Representor)
      ensures r == builder.representor
    {
      builder.representor
    }
  }

}
