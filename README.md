# Polymorphic JSON converter and order dispatch, modelled in Dafny

This project models the logic of the Kafka samples repository that is not
broker, registry or container plumbing:

- `PolymorphicJsonConverter` (the Newtonsoft `JsonConverter` in
  `Kafka.Schemas.Shared`). It writes a value as a JSON object stamped with a
  `"$type"` property that holds the runtime type's `FullName`. It reads such
  an object back by resolving that name. With an allow-list of known types it
  resolves against that list. With no list it takes the first type with that
  name among all loaded assemblies. Around the nested structural
  (de)serialization it clears the `Converter` of the resolved type's
  serialization contract and afterwards puts the old value back.
- The consumer's per-message dispatch, which takes a received JSON object for
  a standard or premium order by which properties it has.
- The `com.example.schemas` order family: the abstract `OrderMessage` with its
  two concrete subclasses and their customer, contact and product records.

Files and modules:

- `wrappers.dfy` (`Wrappers`): `Option` and `Result`.
- `json.dfy` (`Json`): JSON tokens. A `JObject` is a `map<string, Json>`.
  It also gives `JToken.ToString()`, the text the converter reads as the tag.
- `clr.dfy` (`Clr`): a `System.Type` as a record of its `FullName` and an
  identity. Two types from different assemblies can share a full name and
  still differ. A converter instance is a `ConverterRef`.
- `schemas.dfy` (`Schemas`): the order family as one datatype with a
  constructor per concrete subclass, plus `OrderType`, the declared classes
  and their full names.
- `converter.dfy` (`Converter`): the pieces of the converter.
  - The LINQ queries it runs over `Type[]`.
  - The tag lookup.
  - The contract table, held in a `JsonSerializer` class with a mutable
    `contracts` map.
  - The `PolymorphicJsonConverter` class: its three constructors,
    `CanConvert`, and the `ReadJson` and `WriteJson` methods.
  - `ReadOutcome` and `WriteOutcome` are pure functions. Each gives a call's
    result together with the contract table after the call. The two methods
    are proved to compute exactly these functions.
- `converter_properties.dfy` (`ConverterProperties`): what reading and writing
  promise, as lemmas over `ReadOutcome`, `WriteOutcome` and `Lookup`.
- `dispatch.dfy` (`Dispatch`): the consumer's three-way classification.
- `order_codec.dfy` (`OrderCodec`): the converter applied to the order family.
  It writes out one instance of the structural mapping for orders. With that
  instance it proves the write-then-read round trip. With that instance's
  camelCase property names it also proves that the consumer's dispatch
  agrees with what the converter wrote; no naming resolver in the repository
  produces those names.

How the outside world is represented:

- `JObject.ToObject(type, serializer)` and `JObject.FromObject(value,
  serializer)` are function parameters, and either may fail. Each is given
  the contract table as it stands during the nested call. This is how the
  model states that the nested call sees the resolved contract with no
  converter.
- `AppDomain.CurrentDomain.GetAssemblies()` together with `GetTypes()` is a
  parameter: a sequence of assemblies, each a sequence of types.
- `value.GetType()` is a parameter `typeOf`.
- The writer is the method's result.
- `DateTimeOffset` is kept as its opaque ISO 8601 text.

Notes on what the code does:

- The `"$type"` tag is the type's `FullName`, for example
  `com.example.schemas.StandardOrderMessage`
  (src/Kafka.Schemas.Shared/PolymorphicJsonConverter.cs:74).
- `WriteJson` never consults the known types. It stamps any value
  (src/Kafka.Schemas.Shared/PolymorphicJsonConverter.cs:62-77).
- Two known types with the same full name make `SingleOrDefault` throw an
  `InvalidOperationException`. That call is outside the `try`, so the
  exception escapes unwrapped
  (src/Kafka.Schemas.Shared/PolymorphicJsonConverter.cs:39, 48).
- The recursion guard is not call-local. It overwrites the `Converter` slot of
  a contract shared through the serializer
  (src/Kafka.Schemas.Shared/PolymorphicJsonConverter.cs:52-54, 72-76). If the
  nested call throws, the slot is left cleared, in `ReadJson` because the
  restore comes after the `ToObject` call inside the `try`, and in `WriteJson`
  because there is no `try` at all.
- No JSON Schema generator or union composer is implemented in the
  repository. The schema code only calls NJsonSchema
  (src/KafkaProducerApp/SchemaGenerator.cs:8-17).

## Model

| member | source | states |
|---|---|---|
| `Json.NatTextDenotes` | src/Kafka.Schemas.Shared/PolymorphicJsonConverter.cs:30 | The decimal digits written for a natural number denote that number. |
| `Json.IntTextDenotes` | src/Kafka.Schemas.Shared/PolymorphicJsonConverter.cs:30 | The text of an integer token is a '-' exactly for a negative number, followed by the digits of its magnitude. |
| `Json.TokenText` | src/Kafka.Schemas.Shared/PolymorphicJsonConverter.cs:30-31 | The tag text of a string token is the string itself. The text is empty exactly for a JSON null or an empty string, so only those two read as a missing tag. Array and object texts are bracketed. |
| `Schemas.OrderType` | src/Kafka.Schemas.Shared/com.example.schemas.cs:39-51 | `OrderType` is "StandardOrder" exactly for the standard variant and "PremiumOrder" exactly for the premium variant. |
| `Schemas.OrderTypeIdentifiesVariant` | src/Kafka.Schemas.Shared/com.example.schemas.cs:41-48 | Two messages have equal `OrderType` iff they are the same variant. |
| `Schemas.RuntimeClass` | src/Kafka.Schemas.Shared/com.example.schemas.cs:30-51 | The runtime class of every order message is concrete and derives directly from `OrderMessage`. It is `StandardOrderMessage` exactly for the standard variant. |
| `Schemas.OrderSubclassesAreClosed` | src/Kafka.Schemas.Shared/com.example.schemas.cs:30-52 | A class derives from `OrderMessage` iff some order message has it as its runtime class. |
| `Schemas.TypeOf` | src/Kafka.Schemas.Shared/com.example.schemas.cs:1-52 | The full name of every declared class reads back, through the reverse lookup `ClassNamed`, as that class and no other. |
| `Schemas.ClassNamedOnlyFullName` | src/Kafka.Schemas.Shared/com.example.schemas.cs:1-52 | A name reads back as a class exactly when it is that class's full name, so no other text names a schema class. |
| `Schemas.FullNameInjective` | src/Kafka.Schemas.Shared/com.example.schemas.cs:1-52 | Two classes have the same full name iff they are the same class. |
| `Schemas.TypeOfInjective` | src/Kafka.Schemas.Shared/com.example.schemas.cs:1-52 | Two classes' types carry the same full name iff they are the same class, so a `$type` tag names at most one schema class. |
| `Converter.MessageNamesTag` | src/Kafka.Schemas.Shared/PolymorphicJsonConverter.cs:37-59 | The not-known, not-found and wrapped-decode errors are `JsonSerializationException`s, and each message contains the tag. |
| `Converter.Contains` | src/Kafka.Schemas.Shared/PolymorphicJsonConverter.cs:24 | The sequential identity scan is true iff the type is in the list. |
| `Converter.AnyNamed` | src/Kafka.Schemas.Shared/PolymorphicJsonConverter.cs:35 | True iff some entry has the given full name. |
| `Converter.SingleOrDefault` | src/Kafka.Schemas.Shared/PolymorphicJsonConverter.cs:39 | Gives none iff no entry matches. Throws `InvalidOperationException` iff two entries match. Otherwise gives the one matching entry. |
| `Converter.FirstOrDefault` | src/Kafka.Schemas.Shared/PolymorphicJsonConverter.cs:41-43 | Gives none iff no entry matches. Otherwise gives a matching entry and no earlier entry matches. |
| `Converter.VisibleTypes` | src/Kafka.Schemas.Shared/PolymorphicJsonConverter.cs:41-42 | A type is visible iff some loaded assembly declares it. The order of the flattening is stated by `ConverterProperties.FirstLoadedIsFromEarliestAssembly`. |
| `Converter.TypeName` | src/Kafka.Schemas.Shared/PolymorphicJsonConverter.cs:30 | The tag is present iff the object has a `"$type"` property. A string property gives its own text. |
| `Converter.ResolveType` | src/Kafka.Schemas.Shared/PolymorphicJsonConverter.cs:35-47 | A resolved type has exactly the tag as its full name. With known types it is one of them. Every failure is not-known, ambiguous or not-found for that tag. |
| `Converter.Lookup` | src/Kafka.Schemas.Shared/PolymorphicJsonConverter.cs:29-47 | A successful lookup came from an object whose `"$type"` text is a non-empty tag, and the resolved type's full name is that tag. |
| `Converter.Resolved` | src/Kafka.Schemas.Shared/PolymorphicJsonConverter.cs:50 | Resolving a contract reuses a cached contract unchanged. A new contract starts with its default converter. No other entry changes. |
| `Converter.Suspended` | src/Kafka.Schemas.Shared/PolymorphicJsonConverter.cs:51-52 | During the nested call the resolved contract has no converter and every other entry is untouched. |
| `Converter.Stamp` | src/Kafka.Schemas.Shared/PolymorphicJsonConverter.cs:74 | `"$type"` is set to the full name, overwriting any previous value. Every other property is unchanged and no property is added besides `"$type"`. |
| `Converter.JsonSerializer.ResolveContract` | src/Kafka.Schemas.Shared/PolymorphicJsonConverter.cs:50 | Updates the table as `Resolved` says. |
| `Converter.JsonSerializer.SetConverter` | src/Kafka.Schemas.Shared/PolymorphicJsonConverter.cs:52-54 | Assigns one contract's converter slot and nothing else. |
| `Converter.PolymorphicJsonConverter.constructor` | src/Kafka.Schemas.Shared/PolymorphicJsonConverter.cs:9-12 | The parameterless converter has no known types and can convert every type. |
| `Converter.PolymorphicJsonConverter.OfOne` | src/Kafka.Schemas.Shared/PolymorphicJsonConverter.cs:14-17 | With one known type, it can convert exactly that type. |
| `Converter.PolymorphicJsonConverter.OfTwo` | src/Kafka.Schemas.Shared/PolymorphicJsonConverter.cs:18-21 | With two known types, it can convert exactly those two. |
| `Converter.PolymorphicJsonConverter.CanConvert` | src/Kafka.Schemas.Shared/PolymorphicJsonConverter.cs:22-25 | True iff the known list is empty or contains the type. |
| `Converter.PolymorphicJsonConverter.ReadJson` | src/Kafka.Schemas.Shared/PolymorphicJsonConverter.cs:27-61 | The result and the contract table afterwards are exactly `ReadOutcome` of the input and the old table. |
| `Converter.PolymorphicJsonConverter.WriteJson` | src/Kafka.Schemas.Shared/PolymorphicJsonConverter.cs:62-77 | What is written and the contract table afterwards are exactly `WriteOutcome` of the value and the old table. No known-type list is involved. |
| `ConverterProperties.ReadRejectsNonObject` | src/Kafka.Schemas.Shared/PolymorphicJsonConverter.cs:29 | A token that is not an object fails in `JObject.Load` and leaves the table unchanged. |
| `ConverterProperties.ReadMissingTag` | src/Kafka.Schemas.Shared/PolymorphicJsonConverter.cs:30-34 | An absent, null or empty `"$type"` fails with "type information is missing", returns no value and touches no contract. |
| `ConverterProperties.ReadUnknownTag` | src/Kafka.Schemas.Shared/PolymorphicJsonConverter.cs:35-38 | With known types, a tag that no known type carries fails as not known, whatever assemblies are loaded, and touches no contract. |
| `ConverterProperties.KnownListIgnoresLoadedTypes` | src/Kafka.Schemas.Shared/PolymorphicJsonConverter.cs:35-43 | With a non-empty known list the lookup is the same for any loaded assemblies, so the reflection fallback is never reached. |
| `ConverterProperties.KnownTagResolvesToEntry` | src/Kafka.Schemas.Shared/PolymorphicJsonConverter.cs:39-43 | A tag that exactly one known entry carries resolves to that entry. |
| `ConverterProperties.ReadDuplicateKnownTag` | src/Kafka.Schemas.Shared/PolymorphicJsonConverter.cs:39 | Two known entries with the tag's name make the read fail with an unwrapped `InvalidOperationException`, and the table is unchanged. |
| `ConverterProperties.UnrestrictedResolvesFirstLoaded` | src/Kafka.Schemas.Shared/PolymorphicJsonConverter.cs:41-47 | With no known types, the tag resolves to the first loaded type with that full name, taken in assembly and type order. With none it fails as not found. |
| `ConverterProperties.FirstOrDefaultAppend` | src/Kafka.Schemas.Shared/PolymorphicJsonConverter.cs:41-43 | The first match in two concatenated type lists is the first match in the first list if it has one, else the first match in the second. |
| `ConverterProperties.FirstLoadedIsFromEarliestAssembly` | src/Kafka.Schemas.Shared/PolymorphicJsonConverter.cs:41-43 | The first loaded type with a name is the first such type of the earliest assembly that declares the name, whatever later assemblies hold. |
| `ConverterProperties.ReadWrapsDecodeFailure` | src/Kafka.Schemas.Shared/PolymorphicJsonConverter.cs:48-60 | A failing structural decode is wrapped as a serialization error. The wrapper names the tag and keeps the original as inner cause. The resolved contract is left with no converter and every other entry is kept. |
| `ConverterProperties.ReadRestoresConverter` | src/Kafka.Schemas.Shared/PolymorphicJsonConverter.cs:50-55 | A successful read decodes with the resolved contract's converter cleared. Afterwards the table is as before, apart from caching a newly resolved contract. |
| `ConverterProperties.WriteNull` | src/Kafka.Schemas.Shared/PolymorphicJsonConverter.cs:64-68 | A null value writes JSON null and touches no contract. |
| `ConverterProperties.WriteStampsRuntimeType` | src/Kafka.Schemas.Shared/PolymorphicJsonConverter.cs:69-76 | Writes the structural object with `"$type"` set to the runtime type's full name and all other properties unchanged. The converter is cleared during the nested call and restored afterwards. |
| `ConverterProperties.WriteFailureLeavesConverterCleared` | src/Kafka.Schemas.Shared/PolymorphicJsonConverter.cs:72-73 | If `FromObject` throws, the exception escapes and the contract's converter stays cleared. |
| `ConverterProperties.StampedTagResolves` | src/Kafka.Schemas.Shared/PolymorphicJsonConverter.cs:35-43 | The stamped tag passes the lookup when the runtime type is a known type whose name no other known type shares, or when there are no known types and the type is loaded. It then resolves to a type with the same full name: the type itself when known, else the first loaded one. |
| `Dispatch.Classify` | src/KafkaConsumerApp/Program.cs:113-131 | Standard iff `standardFeatures` is present. Premium iff it is absent and both `premiumDiscountPercentage` and `dedicatedSupportContact` are present. Unknown otherwise. |
| `Dispatch.StandardTakesPrecedence` | src/KafkaConsumerApp/Program.cs:113-119 | Any object with `standardFeatures` is standard, even when it also has both premium properties. |
| `Dispatch.OnePremiumKeyIsUnknown` | src/KafkaConsumerApp/Program.cs:120-131 | One premium property without the other, and no `standardFeatures`, is unknown. |
| `Dispatch.NoKeysIsUnknown` | src/KafkaConsumerApp/Program.cs:127-131 | An object with none of the three properties is unknown. |
| `Dispatch.ClassifyReadsOnlyNames` | src/KafkaConsumerApp/Program.cs:113-131 | The classification depends only on the property names, never on their values. |
| `Dispatch.NamesAreCaseSensitive` | src/KafkaConsumerApp/Program.cs:113-120 | Matching is exact: the PascalCase names are unknown. |
| `OrderCodec.InheritedRoundTrip` | src/Kafka.Schemas.Shared/com.example.schemas.cs:30-36 | The inherited customer, contact and timestamp come back from a written message. |
| `OrderCodec.StandardRoundTrip` | src/Kafka.Schemas.Shared/com.example.schemas.cs:39-44 | The example mapping decodes a written standard order back to itself. |
| `OrderCodec.PremiumRoundTrip` | src/Kafka.Schemas.Shared/com.example.schemas.cs:46-52 | The example mapping decodes a written premium order back to itself. |
| `OrderCodec.FromJsonToJson` | src/Kafka.Schemas.Shared/com.example.schemas.cs:30-52 | Decoding a written message as its runtime type gives the message back, whatever `"$type"` holds. |
| `OrderCodec.OrderKnownTypesDistinct` | src/Kafka.Schemas.Shared/com.example.schemas.cs:39-46 | The two concrete order types have different full names. |
| `OrderCodec.WriteStampsFullName` | src/Kafka.Schemas.Shared/PolymorphicJsonConverter.cs:69-75 | A written order carries `"$type"` = `com.example.schemas.` followed by its class name, beside its own properties. |
| `OrderCodec.KnownRoundTrip` | src/Kafka.Schemas.Shared/PolymorphicJsonConverter.cs:27-77 | With both order types known, reading what was written gives back the same message. The contract table ends as the write left it. |
| `OrderCodec.UnrestrictedRoundTrip` | src/Kafka.Schemas.Shared/PolymorphicJsonConverter.cs:27-77 | The same holds with no known types, when the schema assembly is loaded and no other loaded type shares the order's full name. |
| `OrderCodec.DispatchMatchesVariant` | src/KafkaConsumerApp/Program.cs:113-126 | Under the camelCase property names of the example mapping, the consumer's dispatch of a written order picks the order's own variant. |

## Left out

- Kafka producers, consumers and the schema registry client. These are network I/O.
- The consume loop, cancellation and console output of the consumer. Only its dispatch rule is modelled.
- The consumer's own copies of the schema classes. They are only used for `ToObject<T>` after the dispatch.
- JSON Schema generation and `anyOf` composition. These are calls into NJsonSchema, and the repository implements neither.
- `SchemaGenerator.GenerateSchemaJson` and `SchemaRegistryService.RegisterSchemaAsync`, which the unit test calls. No implementation of either is in the repository.
- Newtonsoft's structural mapping (`FromObject`, `ToObject`). It is a parameter.
  - `OrderCodec` gives one instance of it, with camelCase property names. That instance is stricter than Newtonsoft: a missing property is an error, not a default.
  - The model ignores any change the nested call itself makes to the contract table.
- Reflection over the application domain. The loaded assemblies are a given sequence.
- Concurrency. Clearing a shared contract's converter races between concurrent calls, and only single-threaded calls are modelled.
- Property order of JSON objects. Objects are maps.
- The indented text of an array or object used as a tag. Only its brackets are modelled, and no type name starts with a bracket.
- Floating-point, date and decimal JSON values. `DateTimeOffset` is opaque text.
- Null references other than a null value passed to `WriteJson`.
- The `objectType` and `existingValue` arguments of `ReadJson`. The source ignores them.
- Exceptions thrown by the JSON writer.
- The message of the exception `JObject.Load` throws for a non-object token is given only up to the token kind and path.
- Configuration constants and interfaces. They have no behaviour.
- Converters registered in the serializer's own converter list. Newtonsoft looks one up when a contract's `Converter` is null, so clearing the slot keeps the nested call out of the converter only when it came from a `[JsonConverter]` attribute. The model treats the cleared slot as the only route back in.
- How a `JsonSerializer` comes to hold its contract cache. The source only receives serializers, and the default resolver's cache is shared across the process, so the serializer class starts from any given table.
- OrderCodec.DispatchMatchesVariant: holds only under the camelCase property names of the example mapping. Nothing in the repository configures such names for this converter, and Newtonsoft's default resolver writes the PascalCase names (`StandardFeatures`, …). The consumer's ordinal `ContainsKey` then classifies both variants as Unknown, as `Dispatch.NamesAreCaseSensitive` shows.
