/**
 * The entries a representor registers. The caller's lambdas (Function,
 * BiFunction, BinaryFunction, identifier functions) are arbitrary user code:
 * each is an opaque token here, and an Interpretation gives them meaning when
 * a property needs one. The few lambdas the representor builders create
 * themselves (the date formatter, the constant link, the localized wrappers)
 * are spelled out as FieldFn terms, so what they compute can be stated.
 */
module Fields {

  import opened Optional

  /** A caller-supplied lambda, known only by identity. */
  datatype Fn = Fn(id: nat)

  /** The class of a related resource's identifier, known by name. */
  datatype ClassRef = ClassRef(name: string)

  /** A domain model instance, known only by identity. */
  type Model = nat

  /** A point in time, as milliseconds. */
  type Date = int

  datatype Language = Language(id: nat)

  datatype Locale = Locale(id: nat)

  /** What a field function yields for a model; Null is Java's null. */
  datatype Value = Null | Text(s: string) | Opaque(id: nat)

  /** The BiFunction<T, Language, String> stored under a localized field. */
  datatype LocalizedFn =
    | ByLanguage(f: Fn)         // the caller's function of a model and a language
    | ByPreferredLocale(f: Fn)  // the caller's function of a model and a locale, given the language's preferred locale

  /** The function held by a FieldFunction. */
  datatype FieldFn =
    | Supplied(f: Fn)            // the caller's function, stored as given
    | DateFormatted(f: Fn)       // the caller's date getter, its date formatted as text (a missing date stays missing)
    | ConstantUrl(url: string)   // the same URL whatever the model
    | Localized(g: LocalizedFn)  // a string that depends on the model and the reader's language

  /** A field's name and the function that reads it from a model. */
  datatype FieldFunction = FieldFunction(key: string, fn: FieldFn)

  /** A linked model: relation name, its identifier class and how to get its identifier. */
  datatype RelatedModel = RelatedModel(key: string, identifierClass: ClassRef, identifierFunction: Fn)

  /** A related collection; the identifier class is null when the builder was made without one. */
  datatype RelatedCollection = RelatedCollection(key: string, identifierClass: Option<ClassRef>)

  /** A nested field: its name, the model transformation and the nested representor (of type R). */
  datatype NestedFieldFunction<R> = NestedFieldFunction(key: string, transformFunction: Fn, representor: R)

  // The category tags under which field functions are filed.
  const BINARY: string := "BINARY"
  const BOOLEAN: string := "BOOLEAN"
  const BOOLEAN_LIST: string := "BOOLEAN_LIST"
  const LINK: string := "LINK"
  const LOCALIZED: string := "LOCALIZED"
  const NUMBER: string := "NUMBER"
  const NUMBER_LIST: string := "NUMBER_LIST"
  const STRING: string := "STRING"
  const STRING_LIST: string := "STRING_LIST"

  /**
   * What the opaque code means: the caller's lambdas, DateTransformer.asString
   * and Language.getPreferredLocale.
   */
  datatype Interpretation = Interpretation(
    apply: (Fn, Model) -> Value,
    applyDate: (Fn, Model) -> Option<Date>,
    asString: Date -> string,
    applyByLanguage: (Fn, Model, Language) -> Value,
    applyByLocale: (Fn, Model, Locale) -> Value,
    preferredLocale: Language -> Locale)

  /** The string a localized field function yields for a model in a language. */
  function EvaluateLocalized(g: LocalizedFn, model: Model, language: Language, I: Interpretation): (v: Value)
    ensures g.ByLanguage? ==> v == I.applyByLanguage(g.f, model, language)
    ensures g.ByPreferredLocale? ==> v == I.applyByLocale(g.f, model, I.preferredLocale(language))
  {
    match g
    case ByLanguage(f) => I.applyByLanguage(f, model, language)
    case ByPreferredLocale(f) => I.applyByLocale(f, model, I.preferredLocale(language))
  }

  /**
   * The value a field function yields for a model; the language is used by
   * localized fields only. A date field is null exactly when its date is,
   * and otherwise the formatted date; a link is its URL for every model and
   * language.
   */
  function Evaluate(ff: FieldFn, model: Model, language: Language, I: Interpretation): (v: Value)
    ensures ff.Supplied? ==> v == I.apply(ff.f, model)
    ensures ff.DateFormatted? ==> (v == Null <==> I.applyDate(ff.f, model).None?)
    ensures ff.DateFormatted? && I.applyDate(ff.f, model).Some? ==> v == Text(I.asString(I.applyDate(ff.f, model).value))
    ensures ff.ConstantUrl? ==> v == Text(ff.url)
    ensures ff.Localized? ==> v == EvaluateLocalized(ff.g, model, language, I)
  {
    match ff
    case Supplied(f) => I.apply(f, model)
    case DateFormatted(f) =>
      (match I.applyDate(f, model)
       case None => Null
       case Some(date) => Text(I.asString(date)))
    case ConstantUrl(url) => Text(url)
    case Localized(g) => EvaluateLocalized(g, model, language, I)
  }

}
