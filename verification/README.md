# Apio representors and the JSON-LD documentation mapper, in Dafny

This project models two parts of Apio Architect.

The first part is the **representor registry**. A representor describes how a
domain model is exposed as a hypermedia resource. It holds:

- an insertion-ordered table from a category tag (`BINARY`, `BOOLEAN`,
  `BOOLEAN_LIST`, `LINK`, `LOCALIZED`, `NUMBER`, `NUMBER_LIST`, `STRING`,
  `STRING_LIST`) to a list of field functions;
- a map from a binary key to a binary function;
- ordered lists of types, related models and nested field functions.

`Representor` adds an identifier function and its own list of related
collections. Its builder mutates one shared object in place: `types` moves on
to a new identifier step, `identifier` to a new first step, and every `add*`
of the first step returns the step it was called on. `NestedRepresentor` works differently: its
builder steps copy the current representor, append one entry to the copy and
return a new step over it. The exception is `addBinary`, which also writes into
the binary map of the representor it was called on.

The second part is the **JSON-LD + Hydra documentation mapper**. Each of its
operations writes a fixed sequence of fields into a JSON object builder. The
vocabulary is JSON-LD 1.0 (W3C Recommendation, section 5.1 "The Context") and
the Hydra Core Vocabulary.

Layout:

- `optional.dfy`: the `Option` type.
- `fields.dfy`: tokens for the caller's lambdas, identifier classes and locales.
  - The field functions the builders themselves create: a supplied getter, a
    date formatter, a constant link, a localized string.
  - An `Interpretation` that gives the opaque code its meaning.
  - The category tags.
- `history.dfy`: the abstract state of a registry, as the sequence of additions
  made to it.
  - Each exposed collection is a recursive function of that sequence.
  - Lemmas prove order preservation, duplicates kept, and last write wins for
    binary lookups.
  - The invariant that the binary map agrees with the `BINARY` list.
- `base_representor.dfy`: class `BaseRepresentor`.
  - Maps and sequences are updated in place by the adders.
  - `Valid()` ties every field to the functions of `history.dfy`.
- `nested_representor.dfy`: `NestedRepresentor`, its `_with*` helpers, `Builder`
  and `FirstStep`.
- `representor.dfy`: `Representor`, `Builder`, `IdentifierStep` and `FirstStep`.
- `jsonld_documentation.dfy`: the mapper.
  - The JSON object builder is modelled as an append-only log of
    `(field path, value)` emissions.
  - Each mapper operation appends exactly the emissions of a function that
    specifies it.
  - Lemmas state what those emissions mean.

## Model

| member | source | states |
|---|---|---|
| Fields.Evaluate | apio-architect-api/src/main/java/com/liferay/apio/architect/representor/Representor.java:220-251 | what a field function yields for a model: a supplied getter its own value; a date field null exactly when the date is null, and otherwise the formatted date; a link its URL whatever the model and language; a localized field its localized string |
| Fields.EvaluateLocalized | apio-architect-api/src/main/java/com/liferay/apio/architect/representor/Representor.java:281-308 | the language variant applies the caller's function to the model and the language; the locale variant applies it to the model and the language's preferred locale |
| History.Snoc | apio-architect-api/src/main/java/com/liferay/apio/architect/representor/BaseRepresentor.java:255-326 | one addition changes only its own collection: it appends to its own category, its binary key or its own list, and every other category, key and list keeps its value |
| History.Empty | apio-architect-api/src/main/java/com/liferay/apio/architect/representor/BaseRepresentor.java:247-253 | with no additions, every category list and every list is empty, every binary lookup finds nothing, and the binary map agrees with the BINARY list |
| History.ListedConcat | apio-architect-api/src/main/java/com/liferay/apio/architect/representor/BaseRepresentor.java:274-281 | the list under a category after two runs of additions is the first run's entries followed by the second run's: nothing is reordered or dropped |
| History.DuplicatesKept | apio-architect-api/src/main/java/com/liferay/apio/architect/representor/BaseRepresentor.java:277-280 | two entries with the same field key filed under one category are both kept, in call order |
| History.BinaryLookupAbsent | apio-architect-api/src/main/java/com/liferay/apio/architect/representor/BaseRepresentor.java:58-60 | getBinaryFunction(id) is empty if and only if no binary function was ever put under id |
| History.BinaryLookupLatest | apio-architect-api/src/main/java/com/liferay/apio/architect/representor/BaseRepresentor.java:58-60 | getBinaryFunction(id) returns the function of the last put under id |
| History.LastKeyedAbsent | apio-architect-api/src/main/java/com/liferay/apio/architect/representor/BaseRepresentor.java:67-75 | the last binary entry listed with a key is missing if and only if no listed binary entry has that key |
| History.LastKeyedSnoc | apio-architect-api/src/main/java/com/liferay/apio/architect/representor/BaseRepresentor.java:67-75 | a newly listed binary entry is the last one with its key, and changes the last entry of no other key |
| History.BinaryAgreesAfterBinary | apio-architect-api/src/main/java/com/liferay/apio/architect/representor/BaseRepresentor.java:255-262 | addBinaryFunction (a put, then a BINARY filing of the same entry) keeps the binary map in agreement with the last BINARY entry of each key |
| History.BinaryAgreesAfterOther | apio-architect-api/src/main/java/com/liferay/apio/architect/representor/BaseRepresentor.java:264-326 | every other adder also keeps that agreement |
| History.PutAloneDisagrees | apio-architect-api/src/main/java/com/liferay/apio/architect/representor/NestedRepresentor.java:351-359 | the put that _withBinaryFunction makes into the input representor breaks that agreement for the input when the input's BINARY list does not yet name the key: getBinaryFunction(key) finds a function that getBinaryFunctions() does not list |
| History.PutAloneAgreesIff | apio-architect-api/src/main/java/com/liferay/apio/architect/representor/NestedRepresentor.java:351-359 | for an input in agreement, the put alone keeps the binary map in agreement with the BINARY list if and only if the put function is already the last one listed under its key; any other put breaks it |
| History.TypesConcat | apio-architect-api/src/main/java/com/liferay/apio/architect/representor/BaseRepresentor.java:323-326 | types accumulate in call order across runs of additions |
| BaseRepresentors.BaseRepresentor.constructor | apio-architect-api/src/main/java/com/liferay/apio/architect/representor/BaseRepresentor.java:247-253 | a new registry has empty maps and lists and an empty history |
| BaseRepresentors.BaseRepresentor.Copy | apio-architect-api/src/main/java/com/liferay/apio/architect/representor/NestedRepresentor.java:470-472 | the copy has the same contents and history as the original, and shares nothing that can change |
| BaseRepresentors.BaseRepresentor.Functions | apio-architect-api/src/main/java/com/liferay/apio/architect/representor/BaseRepresentor.java:83-91 | a category lookup gives the entries filed under that category, in order, and the empty list for a category never written |
| BaseRepresentors.BaseRepresentor.GetBinaryFunction | apio-architect-api/src/main/java/com/liferay/apio/architect/representor/BaseRepresentor.java:58-60 | the binary map lookup is the binary function put last under the key, or none |
| BaseRepresentors.BaseRepresentor.GetBinaryFunctions | apio-architect-api/src/main/java/com/liferay/apio/architect/representor/BaseRepresentor.java:67-75 | the BINARY list, in order, duplicates included |
| BaseRepresentors.BaseRepresentor.GetBooleanFunctions | apio-architect-api/src/main/java/com/liferay/apio/architect/representor/BaseRepresentor.java:83-91 | the BOOLEAN list, in order |
| BaseRepresentors.BaseRepresentor.GetBooleanListFunctions | apio-architect-api/src/main/java/com/liferay/apio/architect/representor/BaseRepresentor.java:99-107 | the BOOLEAN_LIST list, in order |
| BaseRepresentors.BaseRepresentor.GetLinkFunctions | apio-architect-api/src/main/java/com/liferay/apio/architect/representor/BaseRepresentor.java:115-123 | the LINK list, in order |
| BaseRepresentors.BaseRepresentor.GetLocalizedStringFunctions | apio-architect-api/src/main/java/com/liferay/apio/architect/representor/BaseRepresentor.java:132-142 | the LOCALIZED list, in order |
| BaseRepresentors.BaseRepresentor.GetNestedFieldFunctions | apio-architect-api/src/main/java/com/liferay/apio/architect/representor/BaseRepresentor.java:149-151 | the nested field functions, in the order they were added |
| BaseRepresentors.BaseRepresentor.GetNumberFunctions | apio-architect-api/src/main/java/com/liferay/apio/architect/representor/BaseRepresentor.java:159-167 | the NUMBER list, in order |
| BaseRepresentors.BaseRepresentor.GetNumberListFunctions | apio-architect-api/src/main/java/com/liferay/apio/architect/representor/BaseRepresentor.java:175-183 | the NUMBER_LIST list, in order |
| BaseRepresentors.BaseRepresentor.GetRelatedModels | apio-architect-api/src/main/java/com/liferay/apio/architect/representor/BaseRepresentor.java:190-192 | the related models, in the order they were added |
| BaseRepresentors.BaseRepresentor.GetStringFunctions | apio-architect-api/src/main/java/com/liferay/apio/architect/representor/BaseRepresentor.java:200-208 | the STRING list, in order |
| BaseRepresentors.BaseRepresentor.GetStringListFunctions | apio-architect-api/src/main/java/com/liferay/apio/architect/representor/BaseRepresentor.java:216-224 | the STRING_LIST list, in order |
| BaseRepresentors.BaseRepresentor.GetTypes | apio-architect-api/src/main/java/com/liferay/apio/architect/representor/BaseRepresentor.java:231-233 | the types, in the order they were added |
| BaseRepresentors.BaseRepresentor.AddFieldFunction | apio-architect-api/src/main/java/com/liferay/apio/architect/representor/BaseRepresentor.java:274-281 | appends the entry to the list under the key, creating the list when absent; every other list, the binary map, the types, the related models and the nested fields are unchanged |
| BaseRepresentors.BaseRepresentor.PutBinaryFunction | apio-architect-api/src/main/java/com/liferay/apio/architect/representor/BaseRepresentor.java:258-259 | stores the function under the key, replacing any earlier one; nothing else changes |
| BaseRepresentors.BaseRepresentor.AddBinaryFunction | apio-architect-api/src/main/java/com/liferay/apio/architect/representor/BaseRepresentor.java:255-262 | afterwards getBinaryFunction(key) is the new function and getBinaryFunctions() ends with the entry; every other category is unchanged |
| BaseRepresentors.BaseRepresentor.AddBooleanFunction | apio-architect-api/src/main/java/com/liferay/apio/architect/representor/BaseRepresentor.java:264-266 | getBooleanFunctions() gains the entry at its end; every other category is unchanged |
| BaseRepresentors.BaseRepresentor.AddBooleanListFunction | apio-architect-api/src/main/java/com/liferay/apio/architect/representor/BaseRepresentor.java:268-272 | getBooleanListFunctions() gains the entry at its end; every other category is unchanged |
| BaseRepresentors.BaseRepresentor.AddLanguageFunction | apio-architect-api/src/main/java/com/liferay/apio/architect/representor/BaseRepresentor.java:283-287 | getLocalizedStringFunctions() gains the entry at its end; every other category is unchanged |
| BaseRepresentors.BaseRepresentor.AddLinkFunction | apio-architect-api/src/main/java/com/liferay/apio/architect/representor/BaseRepresentor.java:289-291 | getLinkFunctions() gains the entry at its end; every other category is unchanged |
| BaseRepresentors.BaseRepresentor.AddNestedFieldFunction | apio-architect-api/src/main/java/com/liferay/apio/architect/representor/BaseRepresentor.java:293-297 | appends to the nested field functions; the field functions, the binary map, the types and the related models are unchanged |
| BaseRepresentors.BaseRepresentor.AddNumberFunction | apio-architect-api/src/main/java/com/liferay/apio/architect/representor/BaseRepresentor.java:299-301 | getNumberFunctions() gains the entry at its end; every other category is unchanged |
| BaseRepresentors.BaseRepresentor.AddNumberListFunction | apio-architect-api/src/main/java/com/liferay/apio/architect/representor/BaseRepresentor.java:303-307 | getNumberListFunctions() gains the entry at its end; every other category is unchanged |
| BaseRepresentors.BaseRepresentor.AddRelatedModel | apio-architect-api/src/main/java/com/liferay/apio/architect/representor/BaseRepresentor.java:309-311 | appends to the related models; the field functions, the binary map, the types and the nested fields are unchanged |
| BaseRepresentors.BaseRepresentor.AddStringFunction | apio-architect-api/src/main/java/com/liferay/apio/architect/representor/BaseRepresentor.java:313-315 | getStringFunctions() gains the entry at its end; every other category is unchanged |
| BaseRepresentors.BaseRepresentor.AddStringListFunction | apio-architect-api/src/main/java/com/liferay/apio/architect/representor/BaseRepresentor.java:317-321 | getStringListFunctions() gains the entry at its end; every other category is unchanged |
| BaseRepresentors.BaseRepresentor.AddTypes | apio-architect-api/src/main/java/com/liferay/apio/architect/representor/BaseRepresentor.java:323-326 | appends the first type and then the rest, in order, after the types already there; nothing else changes |
| NestedRepresentors.NestedRepresentor.IsNested | apio-architect-api/src/main/java/com/liferay/apio/architect/representor/NestedRepresentor.java:47-50 | a nested representor says it is nested |
| NestedRepresentors.NestedRepresentor.Empty | apio-architect-api/src/main/java/com/liferay/apio/architect/representor/NestedRepresentor.java:467-468 | a new nested representor has an empty registry |
| NestedRepresentors.NestedRepresentor.Copy | apio-architect-api/src/main/java/com/liferay/apio/architect/representor/NestedRepresentor.java:470-472 | the copy has a registry of its own with the original's contents |
| NestedRepresentors.WithTypes | apio-architect-api/src/main/java/com/liferay/apio/architect/representor/NestedRepresentor.java:456-465 | a fresh representor whose types are the first type then the rest, with every category list, the binary map, the nested fields and the related models empty |
| NestedRepresentors.WithFieldFunction | apio-architect-api/src/main/java/com/liferay/apio/architect/representor/NestedRepresentor.java:375-389 | a fresh copy with the entry appended under the category and every other category equal to the input's; the input is not modified |
| NestedRepresentors.WithBinaryFunction | apio-architect-api/src/main/java/com/liferay/apio/architect/representor/NestedRepresentor.java:351-359 | the input representor gains the binary put (its getBinaryFunction(key) now finds the function, its getBinaryFunctions() is unchanged); the fresh copy has both the put and the entry at the end of BINARY |
| NestedRepresentors.WithNestedFieldFunction | apio-architect-api/src/main/java/com/liferay/apio/architect/representor/NestedRepresentor.java:405-415 | a fresh copy with one more nested field function and the same field functions; the input is not modified |
| NestedRepresentors.WithRelatedModel | apio-architect-api/src/main/java/com/liferay/apio/architect/representor/NestedRepresentor.java:431-440 | a fresh copy with one more related model and the same field functions; the input is not modified |
| NestedRepresentors.Builder.Types | apio-architect-api/src/main/java/com/liferay/apio/architect/representor/NestedRepresentor.java:65-69 | the first step wraps a fresh representor holding only the given types, in order |
| NestedRepresentors.FirstStep.constructor | apio-architect-api/src/main/java/com/liferay/apio/architect/representor/NestedRepresentor.java:343-345 | a step wraps the representor it is given |
| NestedRepresentors.FirstStep.AddBinary | apio-architect-api/src/main/java/com/liferay/apio/architect/representor/NestedRepresentor.java:82-92 | the step it was called on sees the binary put in its own representor; the new step's fresh representor has the put and the BINARY entry |
| NestedRepresentors.FirstStep.AddBoolean | apio-architect-api/src/main/java/com/liferay/apio/architect/representor/NestedRepresentor.java:101-111 | a new step over a fresh representor equal to this one plus one BOOLEAN entry; this step's representor is not modified |
| NestedRepresentors.FirstStep.AddBooleanList | apio-architect-api/src/main/java/com/liferay/apio/architect/representor/NestedRepresentor.java:120-130 | as AddBoolean, under BOOLEAN_LIST |
| NestedRepresentors.FirstStep.AddDate | apio-architect-api/src/main/java/com/liferay/apio/architect/representor/NestedRepresentor.java:139-155 | as AddBoolean, under STRING, with a function that formats the date |
| NestedRepresentors.FirstStep.AddLink | apio-architect-api/src/main/java/com/liferay/apio/architect/representor/NestedRepresentor.java:164-172 | as AddBoolean, under LINK, with the constant-URL function |
| NestedRepresentors.FirstStep.AddLinkedModel | apio-architect-api/src/main/java/com/liferay/apio/architect/representor/NestedRepresentor.java:183-194 | a new step over a fresh representor with one more related model |
| NestedRepresentors.FirstStep.AddLocalizedStringByLanguage | apio-architect-api/src/main/java/com/liferay/apio/architect/representor/NestedRepresentor.java:203-214 | as AddBoolean, under LOCALIZED |
| NestedRepresentors.FirstStep.AddLocalizedStringByLocale | apio-architect-api/src/main/java/com/liferay/apio/architect/representor/NestedRepresentor.java:223-230 | exactly the language variant given the caller's function applied to the preferred locale, under LOCALIZED |
| NestedRepresentors.FirstStep.AddNested | apio-architect-api/src/main/java/com/liferay/apio/architect/representor/NestedRepresentor.java:242-255 | a new step over a fresh representor with one more nested field function, holding the inner representor |
| NestedRepresentors.FirstStep.AddNumber | apio-architect-api/src/main/java/com/liferay/apio/architect/representor/NestedRepresentor.java:264-274 | as AddBoolean, under NUMBER |
| NestedRepresentors.FirstStep.AddNumberList | apio-architect-api/src/main/java/com/liferay/apio/architect/representor/NestedRepresentor.java:283-293 | as AddBoolean, under NUMBER_LIST |
| NestedRepresentors.FirstStep.AddString | apio-architect-api/src/main/java/com/liferay/apio/architect/representor/NestedRepresentor.java:302-312 | as AddBoolean, under STRING |
| NestedRepresentors.FirstStep.AddStringList | apio-architect-api/src/main/java/com/liferay/apio/architect/representor/NestedRepresentor.java:321-331 | as AddBoolean, under STRING_LIST |
| NestedRepresentors.FirstStep.Build | apio-architect-api/src/main/java/com/liferay/apio/architect/representor/NestedRepresentor.java:339-341 | build gives back the step's own representor itself, not a copy |
| Representors.FlattenPresent | apio-architect-api/src/main/java/com/liferay/apio/architect/representor/Representor.java:71-78 | an element is in the flattened result exactly when it is in one of the present lists; absent (null) lists contribute nothing |
| Representors.FlattenOne | apio-architect-api/src/main/java/com/liferay/apio/architect/representor/Representor.java:71-78 | one list flattens to its own elements in order when present, and to nothing when null |
| Representors.FlattenConcat | apio-architect-api/src/main/java/com/liferay/apio/architect/representor/Representor.java:71-78 | flattening keeps the lists in order and every element, duplicates included: the flattening of a concatenation is the concatenation of the flattenings |
| Representors.FlattenPair | apio-architect-api/src/main/java/com/liferay/apio/architect/representor/Representor.java:71-78 | flattening two possibly-null lists keeps the present ones, the first before the second |
| Representors.Representor.constructor | apio-architect-api/src/main/java/com/liferay/apio/architect/representor/Representor.java:478-482 | a new representor keeps its supplier, has no identifier function, no related collections and an empty registry |
| Representors.Representor.GetIdentifier | apio-architect-api/src/main/java/com/liferay/apio/architect/representor/Representor.java:59-61 | the installed identifier function applied to the model; none (the null-pointer failure) exactly when no identifier function was installed |
| Representors.Representor.GetRelatedCollections | apio-architect-api/src/main/java/com/liferay/apio/architect/representor/Representor.java:68-79 | the representor's own related collections in insertion order, followed by the supplier's list; a null list from the supplier, or the default empty-list supplier, contributes nothing |
| Representors.Representor.IsNested | apio-architect-api/src/main/java/com/liferay/apio/architect/representor/Representor.java:82-84 | a representor says it is not nested |
| Representors.Representor.AddRelatedCollection | apio-architect-api/src/main/java/com/liferay/apio/architect/representor/Representor.java:468-472 | appends to the representor's related collections; the identifier function is unchanged |
| Representors.Representor.SetIdentifierFunction | apio-architect-api/src/main/java/com/liferay/apio/architect/representor/Representor.java:474-476 | installs the identifier function; the related collections are unchanged |
| Representors.Builder.constructor | apio-architect-api/src/main/java/com/liferay/apio/architect/representor/Representor.java:92-94 | no identifier class, a no-op consumer and a fresh empty representor with the empty-list supplier |
| Representors.Builder.WithIdentifierClass | apio-architect-api/src/main/java/com/liferay/apio/architect/representor/Representor.java:96-102 | the given identifier class, a no-op consumer and a fresh empty representor with the empty-list supplier |
| Representors.Builder.WithCallbacks | apio-architect-api/src/main/java/com/liferay/apio/architect/representor/Representor.java:104-113 | the given identifier class and consumer, and a fresh empty representor with the given supplier |
| Representors.Builder.Types | apio-architect-api/src/main/java/com/liferay/apio/architect/representor/Representor.java:121-125 | appends the types, in order, to the builder's representor and moves on to a step over the same builder |
| Representors.IdentifierStep.constructor | apio-architect-api/src/main/java/com/liferay/apio/architect/representor/Representor.java:458-459 | the step belongs to the builder it is given |
| Representors.IdentifierStep.Identifier | apio-architect-api/src/main/java/com/liferay/apio/architect/representor/Representor.java:452-456 | installs the function: afterwards getIdentifier(m) is the function applied to m for every model m |
| Representors.FirstStep.constructor | apio-architect-api/src/main/java/com/liferay/apio/architect/representor/Representor.java:437-438 | the step belongs to the builder it is given |
| Representors.FirstStep.AddBidirectionalModel | apio-architect-api/src/main/java/com/liferay/apio/architect/representor/Representor.java:141-157 | appends exactly one related model and calls the consumer exactly once, with the linked identifier class and a related collection named relatedKey of the builder's identifier class; the representor's own related collections are unchanged; returns the same step |
| Representors.FirstStep.AddBinary | apio-architect-api/src/main/java/com/liferay/apio/architect/representor/Representor.java:166-175 | afterwards getBinaryFunction(key) finds the function and the BINARY list ends with the entry; the binary map still agrees with the BINARY list; returns the same step |
| Representors.FirstStep.AddBoolean | apio-architect-api/src/main/java/com/liferay/apio/architect/representor/Representor.java:184-193 | appends one BOOLEAN entry to the shared representor and returns the same step |
| Representors.FirstStep.AddBooleanList | apio-architect-api/src/main/java/com/liferay/apio/architect/representor/Representor.java:202-211 | as AddBoolean, under BOOLEAN_LIST |
| Representors.FirstStep.AddDate | apio-architect-api/src/main/java/com/liferay/apio/architect/representor/Representor.java:220-235 | as AddBoolean, under STRING, with a function that formats the date |
| Representors.FirstStep.AddLink | apio-architect-api/src/main/java/com/liferay/apio/architect/representor/Representor.java:244-251 | as AddBoolean, under LINK, with the constant-URL function |
| Representors.FirstStep.AddLinkedModel | apio-architect-api/src/main/java/com/liferay/apio/architect/representor/Representor.java:262-272 | appends one related model and returns the same step |
| Representors.FirstStep.AddLocalizedStringByLanguage | apio-architect-api/src/main/java/com/liferay/apio/architect/representor/Representor.java:281-292 | as AddBoolean, under LOCALIZED |
| Representors.FirstStep.AddLocalizedStringByLocale | apio-architect-api/src/main/java/com/liferay/apio/architect/representor/Representor.java:301-308 | exactly the language variant given the caller's function applied to the preferred locale, under LOCALIZED |
| Representors.FirstStep.AddNested | apio-architect-api/src/main/java/com/liferay/apio/architect/representor/Representor.java:320-334 | appends one nested field function holding the inner representor and returns the same step |
| Representors.FirstStep.AddNumber | apio-architect-api/src/main/java/com/liferay/apio/architect/representor/Representor.java:343-352 | as AddBoolean, under NUMBER |
| Representors.FirstStep.AddNumberList | apio-architect-api/src/main/java/com/liferay/apio/architect/representor/Representor.java:361-370 | as AddBoolean, under NUMBER_LIST |
| Representors.FirstStep.AddRelatedCollection | apio-architect-api/src/main/java/com/liferay/apio/architect/representor/Representor.java:380-389 | appends one related collection, in call order, to the representor's own list; the registry is untouched; returns the same step |
| Representors.FirstStep.AddString | apio-architect-api/src/main/java/com/liferay/apio/architect/representor/Representor.java:398-407 | as AddBoolean, under STRING |
| Representors.FirstStep.AddStringList | apio-architect-api/src/main/java/com/liferay/apio/architect/representor/Representor.java:416-425 | as AddBoolean, under STRING_LIST |
| Representors.FirstStep.Build | apio-architect-api/src/main/java/com/liferay/apio/architect/representor/Representor.java:433-435 | build gives back the single representor that every step mutated |
| JsonLdDocumentation.JsonObjectBuilder.StringField | apio-architect-message-json-ld/src/main/java/com/liferay/apio/architect/message/json/ld/internal/JSONLDDocumentationMessageMapper.java:62-66 | field(path).stringValue(s) appends one string emission to the log |
| JsonLdDocumentation.JsonObjectBuilder.BooleanField | apio-architect-message-json-ld/src/main/java/com/liferay/apio/architect/message/json/ld/internal/JSONLDDocumentationMessageMapper.java:81-85 | field(path).booleanValue(b) appends one boolean emission to the log |
| JsonLdDocumentation.JsonObjectBuilder.ArrayAdd | apio-architect-message-json-ld/src/main/java/com/liferay/apio/architect/message/json/ld/internal/JSONLDDocumentationMessageMapper.java:168-173 | field(path).arrayValue().add(child) appends one array-element emission to the log |
| JsonLdDocumentation.SchemaIri | apio-architect-message-json-ld/src/main/java/com/liferay/apio/architect/message/json/ld/internal/JSONLDDocumentationMessageMapper.java:137-141 | the schema.org IRI of an entity names that entity: reading it back gives the entity |
| JsonLdDocumentation.SchemaEntity | apio-architect-message-json-ld/src/main/java/com/liferay/apio/architect/message/json/ld/internal/JSONLDDocumentationMessageMapper.java:332 | a string read as a schema.org IRI is the schema.org prefix followed by the entity read |
| JsonLdDocumentation.BlankNodeId | apio-architect-message-json-ld/src/main/java/com/liferay/apio/architect/message/json/ld/internal/JSONLDDocumentationMessageMapper.java:107-111 | an operation's identifier is the blank-node prefix "_:" followed by the entity, and nothing else |
| JsonLdDocumentation.ValueOf | apio-architect-message-json-ld/src/main/java/com/liferay/apio/architect/message/json/ld/internal/JSONLDDocumentationMessageMapper.java:74-75 | the title of a form field is its name's text, or "null" when there is no name |
| JsonLdDocumentation.ReturnValue | apio-architect-message-json-ld/src/main/java/com/liferay/apio/architect/message/json/ld/internal/JSONLDDocumentationMessageMapper.java:320-336 | owl:Nothing if and only if the method is exactly "DELETE", whatever the collection flag; hydra:Collection if and only if the method is not DELETE and the request is a collection; otherwise, and only then, a schema.org IRI, naming the entity |
| JsonLdDocumentation.MapDescription | apio-architect-message-json-ld/src/main/java/com/liferay/apio/architect/message/json/ld/internal/JSONLDDocumentationMessageMapper.java:59-67 | appends exactly the description emission |
| JsonLdDocumentation.MapFormField | apio-architect-message-json-ld/src/main/java/com/liferay/apio/architect/message/json/ld/internal/JSONLDDocumentationMessageMapper.java:70-98 | appends exactly the title, required, readonly and writeonly emissions, in that order |
| JsonLdDocumentation.MapOperation | apio-architect-message-json-ld/src/main/java/com/liferay/apio/architect/message/json/ld/internal/JSONLDDocumentationMessageMapper.java:101-131 | appends exactly the @id, type, method and returns emissions, in that order |
| JsonLdDocumentation.MapResource | apio-architect-message-json-ld/src/main/java/com/liferay/apio/architect/message/json/ld/internal/JSONLDDocumentationMessageMapper.java:134-152 | appends exactly the @id, type and title emissions, in that order |
| JsonLdDocumentation.MapTitle | apio-architect-message-json-ld/src/main/java/com/liferay/apio/architect/message/json/ld/internal/JSONLDDocumentationMessageMapper.java:155-161 | appends exactly the title emission |
| JsonLdDocumentation.OnFinishOperation | apio-architect-message-json-ld/src/main/java/com/liferay/apio/architect/message/json/ld/internal/JSONLDDocumentationMessageMapper.java:164-174 | appends the child builder to the supportedOperation array and nothing else |
| JsonLdDocumentation.OnFinishProperty | apio-architect-message-json-ld/src/main/java/com/liferay/apio/architect/message/json/ld/internal/JSONLDDocumentationMessageMapper.java:177-187 | appends the child builder to the supportedProperty array and nothing else |
| JsonLdDocumentation.OnFinishResource | apio-architect-message-json-ld/src/main/java/com/liferay/apio/architect/message/json/ld/internal/JSONLDDocumentationMessageMapper.java:190-200 | appends the child builder to the supportedClass array and nothing else |
| JsonLdDocumentation.WriteHeader | apio-architect-message-json-ld/src/main/java/com/liferay/apio/architect/message/json/ld/internal/JSONLDDocumentationMessageMapper.java:207-224 | appends exactly the "hydra" context term, the documentation's @id and its ApiDocumentation type |
| JsonLdDocumentation.WriteTermDefinition | apio-architect-message-json-ld/src/main/java/com/liferay/apio/architect/message/json/ld/internal/JSONLDDocumentationMessageMapper.java:226-239 | appends exactly a context term's @id and its type @id, as onStart does for "property", "expect" and "returns" |
| JsonLdDocumentation.WritePlainTerms | apio-architect-message-json-ld/src/main/java/com/liferay/apio/architect/message/json/ld/internal/JSONLDDocumentationMessageMapper.java:241-275 | appends exactly the six plain context terms from "readonly" to "method", each with its hydra: IRI |
| JsonLdDocumentation.WriteStatusTerms | apio-architect-message-json-ld/src/main/java/com/liferay/apio/architect/message/json/ld/internal/JSONLDDocumentationMessageMapper.java:307-317 | appends exactly "statusCodes" and "code", both as "hydra:statusCodes" |
| JsonLdDocumentation.OnStart | apio-architect-message-json-ld/src/main/java/com/liferay/apio/architect/message/json/ld/internal/JSONLDDocumentationMessageMapper.java:203-318 | appends exactly the seventeen context and header emissions, in source order |
| JsonLdDocumentation.FormFieldFlags | apio-architect-message-json-ld/src/main/java/com/liferay/apio/architect/message/json/ld/internal/JSONLDDocumentationMessageMapper.java:70-98 | the title is String.valueOf(name); the field is written required if and only if it is present and required, and readonly if and only if it is absent; it is never written writeonly, and never both required and readonly |
| JsonLdDocumentation.OperationReturns | apio-architect-message-json-ld/src/main/java/com/liferay/apio/architect/message/json/ld/internal/JSONLDDocumentationMessageMapper.java:101-131 | the operation's @id is "_:" followed by the entity; it is written as returning owl:Nothing if and only if the method is DELETE, and as returning the entity's schema.org class if and only if the method is not DELETE and the request is not a collection |
| JsonLdDocumentation.ResourceIdNamesTitle | apio-architect-message-json-ld/src/main/java/com/liferay/apio/architect/message/json/ld/internal/JSONLDDocumentationMessageMapper.java:134-152 | any @id and title mapResource writes agree: the @id is the schema.org IRI naming the title |
| JsonLdDocumentation.OperationAndResourceIdsDiffer | apio-architect-message-json-ld/src/main/java/com/liferay/apio/architect/message/json/ld/internal/JSONLDDocumentationMessageMapper.java:107-111 | an operation's blank-node @id never equals a resource's schema.org @id |
| JsonLdDocumentation.HydraTerms | apio-architect-message-json-ld/src/main/java/com/liferay/apio/architect/message/json/ld/internal/JSONLDDocumentationMessageMapper.java:241-317 | each plain context term's hydra: compact IRI, with "code" standing for "hydra:statusCodes" |
| JsonLdDocumentation.ContextTermsAreHydra | apio-architect-message-json-ld/src/main/java/com/liferay/apio/architect/message/json/ld/internal/JSONLDDocumentationMessageMapper.java:241-317 | every plain context term onStart writes, other than "hydra", maps to its hydra: compact IRI; both "statusCodes" and "code" map to "hydra:statusCodes" |
| JsonLdDocumentation.ContextDefinitionsAreTypedId | apio-architect-message-json-ld/src/main/java/com/liferay/apio/architect/message/json/ld/internal/JSONLDDocumentationMessageMapper.java:226-305 | every term definition object onStart writes in the context ("property", "expect", "returns") has type @id |
| JsonLdDocumentation.ContextBindsHydraAndCode | apio-architect-message-json-ld/src/main/java/com/liferay/apio/architect/message/json/ld/internal/JSONLDDocumentationMessageMapper.java:207-212 | the context binds "hydra" to the Hydra profile URL and writes both "statusCodes" and "code" as "hydra:statusCodes" |

## Left out

- The caller's lambdas are not modelled. These are field getters, binary
  functions, identifier functions, transform functions and the nested
  representorFunction. They are arbitrary user code, so the model carries them
  as opaque tokens. An `Interpretation` parameter gives them meaning where a
  property needs one.
- `DateTransformer.asString` and `Language.getPreferredLocale` are not part of
  this model. They are uninterpreted functions of the `Interpretation`, and the
  date formatter is applied only to non-null dates.
- The copy constructor `BaseRepresentor(BaseRepresentor)` is not part of this
  model. `NestedRepresentor.java:470-472` calls it, but `BaseRepresentor.java`
  declares only the no-argument constructor. The copy is modelled as a value
  copy with a registry of its own. If the real constructor shares its inner
  lists, a nested step would also change earlier steps; the model does not
  capture that.
- NestedRepresentors.FirstStep.AddNested: it takes the representor that
  representorFunction built as a parameter. Applying the caller's function to a
  fresh Builder is user code.
- The per-category `_with*Function` helpers of `NestedRepresentor` are not
  separate members. Each one is a call of `WithFieldFunction` with its
  category: `_withBooleanFunction`, `_withBooleanListFunction`,
  `_withLanguageFunction`, `_withLinkFunction`, `_withNumberFunction`,
  `_withNumberListFunction`, `_withStringFunction` and
  `_withStringListFunction`.
- The iteration order of the `LinkedHashMap` keys is not modelled. No core
  operation exposes it: every getter reads a single key.
- Java generics and the `Unsafe::unsafeCast` in the getters are not modelled.
  There is one entry type, and the category tag stands in for the value type.
- `FieldFunction`, `NestedFieldFunction`, `RelatedModel`, `RelatedCollection`,
  `RequestFunction` and `FormField` are not part of this model. They are
  records with the constructor arguments or accessors visible at their call
  sites.
- The text of the `JSONLDConstants` values is not part of this model. The
  constants stay symbolic, as distinct named values. `getMediaType` only
  returns one of them, and is left out.
- `JSONObjectBuilder` is not part of this model. Only the sequence of writes
  made to it is modelled: whether a later field replaces an earlier one, and
  how arrays are serialised, are not. A `nestedField` step writes nothing by
  itself, and it shows up only as the first elements of later field paths.
- The `Documentation` and `HttpHeaders` arguments of `onStart` are unused, and
  they are left out. So are the OSGi `@Component` wiring and the interface
  annotations.
- The typed getters of `BaseRepresentor` return the live internal list of a
  category once it has been written, and `getNestedFieldFunctions`,
  `getRelatedModels` and `getTypes` always return the live list. The model
  returns the lists' contents as values, so a change made through a returned
  list, and its effect on the representor, is not captured.
- Null arguments are not modelled, except for the form field name and the
  optional collections: a null string (an entity name, a key, a title) cannot
  be expressed. For example, `mapOperation` and `mapResource` with a null
  entity write "_:null" and "http://schema.org/null", which the model does not
  capture.
- Representors.Representor.GetRelatedCollections: it returns the concatenated
  list instead of a lazy `Stream`, and the caller's supplier is given as the
  list it returns at that call.
- Representors.Representor.GetIdentifier: a missing identifier function yields
  None instead of raising a NullPointerException.
- `getCollection()` on a request function is read as a plain boolean. A null
  `Boolean`, which would unbox to a NullPointerException, is not modelled.
