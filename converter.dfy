/**
 * `PolymorphicJsonConverter`: a Newtonsoft `JsonConverter` that writes a
 * value as a JSON object stamped with a `"$type"` property naming its runtime
 * type, and reads such an object back by resolving that name, against an
 * optional allow-list of known types or else against every type the process
 * has loaded.
 *
 * While it hands the object to Newtonsoft's structural mapping
 * (`JObject.ToObject` / `JObject.FromObject`) it clears the `Converter` slot
 * of the resolved type's serialization contract, to keep the nested call from
 * re-entering this converter through that contract, and afterwards puts the
 * old value back. A converter registered on the serializer rather than by a
 * `[JsonConverter]` attribute is still found through the serializer's own
 * converter list; that path is not modelled.
 * The contract table is the one piece of shared mutable state; it lives in
 * the `JsonSerializer` class below. The structural mapping itself is not
 * modelled: it is a function parameter that may fail, and it is given the
 * contract table as it stands during the nested call.
 */
module Converter {
  import opened Wrappers
  import opened Json
  import opened Clr

  /** For each type whose contract has been resolved, the contract's `Converter` slot. */
  type ContractTable = map<ClrType, Option<ConverterRef>>

  /** An exception raised by the structural mapping, kept as the inner exception. */
  datatype Cause = Cause(message: string)

  /** The exceptions `ReadJson` lets escape. */
  datatype ReadError =
    | NotAnObject
    | TypeInformationMissing
    | TypeNotKnown(typeName: string)
    | AmbiguousKnownType(typeName: string)
    | TypeNotFound(typeName: string)
    | DeserializationFailed(typeName: string, inner: Cause)

  datatype ExceptionClass = JsonReaderException | JsonSerializationException | InvalidOperationException

  /** The discriminator property. */
  const TypeKey: string := "$type"

  /** The .NET exception class of each error. */
  function ExceptionClassOf(e: ReadError): ExceptionClass
  {
    match e
    case NotAnObject => JsonReaderException
    case AmbiguousKnownType(_) => InvalidOperationException
    case _ => JsonSerializationException
  }

  /**
   * The exception message. `NotAnObject` comes from `JObject.Load`, whose
   * message continues with the token kind and path (not modelled), and
   * `AmbiguousKnownType` from LINQ's `SingleOrDefault`.
   */
  function Message(e: ReadError): string
  {
    match e
    case NotAnObject => "Error reading JObject from JsonReader. Current JsonReader item is not an object"
    case TypeInformationMissing => "Type information is missing in the JSON object."
    case TypeNotKnown(n) => "Type '" + n + "' is not known."
    case AmbiguousKnownType(_) => "Sequence contains more than one matching element"
    case TypeNotFound(n) => "Type '" + n + "' could not be found."
    case DeserializationFailed(n, inner) => "Error deserializing type '" + n + "': " + inner.message
  }

  /** `sub` stands in `s` from position `i` on. */
  predicate OccursAt(sub: string, s: string, i: int)
  {
    0 <= i <= |s| - |sub| && s[i..i + |sub|] == sub
  }

  ghost predicate Occurs(sub: string, s: string)
  {
    exists i :: OccursAt(sub, s, i)
  }

  /** The converter's own failures after the tag has been read name the tag in their message. */
  lemma MessageNamesTag(e: ReadError)
    requires e.TypeNotKnown? || e.TypeNotFound? || e.DeserializationFailed?
    ensures Occurs(e.typeName, Message(e))
    ensures ExceptionClassOf(e) == JsonSerializationException
  {
    var n := e.typeName;
    var k := if e.DeserializationFailed? then |"Error deserializing type '"| else |"Type '"|;
    assert OccursAt(n, Message(e), k);
  }

  // ---------------------------------------------------------------------
  // The LINQ queries of ReadJson and CanConvert, over `Type[]`.

  /** `Enumerable.Contains`: a scan comparing types by identity. */
  function Contains(s: seq<ClrType>, t: ClrType): (b: bool)
    ensures b <==> t in s
  {
    if s == [] then false else s[0] == t || Contains(s[1..], t)
  }

  /** `Enumerable.Any(t => t.FullName == name)`. */
  function AnyNamed(s: seq<ClrType>, name: string): (b: bool)
    ensures b <==> exists i :: 0 <= i < |s| && s[i].fullName == name
  {
    if s == [] then false else s[0].fullName == name || AnyNamed(s[1..], name)
  }

  /**
   * `Enumerable.SingleOrDefault(t => t.FullName == name)`: no match gives
   * null, one match gives it, and a second match throws.
   */
  function SingleOrDefault(s: seq<ClrType>, name: string): (r: Result<Option<ClrType>, ExceptionClass>)
    ensures r == Success(None) <==> forall i :: 0 <= i < |s| ==> s[i].fullName != name
    ensures r.Failure? <==>
      exists i, j :: 0 <= i < j < |s| && s[i].fullName == name && s[j].fullName == name
    ensures r.Failure? ==> r.error == InvalidOperationException
    ensures r.Success? && r.value.Some? ==>
      exists i :: 0 <= i < |s| && s[i] == r.value.value && s[i].fullName == name &&
        forall j :: 0 <= j < |s| && j != i ==> s[j].fullName != name
  {
    if s == [] then Success(None)
    else
      var rest := SingleOrDefault(s[1..], name);
      if s[0].fullName != name then rest
      else if rest == Success(None) then Success(Some(s[0]))
      else Failure(InvalidOperationException)
  }

  /** `Enumerable.FirstOrDefault(t => t.FullName == name)`. */
  function FirstOrDefault(s: seq<ClrType>, name: string): (r: Option<ClrType>)
    ensures r.None? <==> forall i :: 0 <= i < |s| ==> s[i].fullName != name
    ensures r.Some? ==>
      exists i :: 0 <= i < |s| && s[i] == r.value && s[i].fullName == name &&
        forall j :: 0 <= j < i ==> s[j].fullName != name
  {
    if s == [] then None
    else if s[0].fullName == name then Some(s[0])
    else FirstOrDefault(s[1..], name)
  }

  /**
   * `AppDomain.CurrentDomain.GetAssemblies().SelectMany(a => a.GetTypes())`:
   * every loaded type, assembly by assembly, each assembly's types in order.
   */
  function VisibleTypes(assemblies: seq<seq<ClrType>>): (r: seq<ClrType>)
    ensures forall t :: t in r <==> exists a :: a in assemblies && t in a
  {
    if assemblies == [] then [] else assemblies[0] + VisibleTypes(assemblies[1..])
  }

  // ---------------------------------------------------------------------
  // Reading: the decisions of ReadJson before the structural decode.

  /** `jsonObject["$type"]?.ToString()`: absent gives null, present gives the token's text. */
  function TypeName(obj: map<string, Json>): (r: Option<string>)
    ensures r.Some? <==> TypeKey in obj
    ensures r.Some? && obj[TypeKey].JStr? ==> r.value == obj[TypeKey].s
  {
    if TypeKey in obj then Some(TokenText(obj[TypeKey])) else None
  }

  /**
   * Resolving a non-empty tag: against the known types when there are any,
   * else against every visible type in order.
   */
  function ResolveType(known: seq<ClrType>, assemblies: seq<seq<ClrType>>, typeName: string)
    : (r: Result<ClrType, ReadError>)
    ensures r.Success? ==> r.value.fullName == typeName
    ensures r.Success? && |known| > 0 ==> r.value in known
    ensures r.Failure? ==> r.error in {TypeNotKnown(typeName), AmbiguousKnownType(typeName), TypeNotFound(typeName)}
  {
    if |known| > 0 && !AnyNamed(known, typeName) then Failure(TypeNotKnown(typeName))
    else
      match SingleOrDefault(known, typeName)
      case Failure(_) => Failure(AmbiguousKnownType(typeName))
      case Success(Some(t)) => Success(t)
      case Success(None) =>
        match FirstOrDefault(VisibleTypes(assemblies), typeName)
        case Some(t) => Success(t)
        case None => Failure(TypeNotFound(typeName))
  }

  /** What ReadJson knows once the tag is resolved. */
  datatype Resolution = Resolution(obj: map<string, Json>, typeName: string, resolved: ClrType)

  /** Loading the object, reading its tag and resolving it. */
  function Lookup(known: seq<ClrType>, assemblies: seq<seq<ClrType>>, reader: Json)
    : (r: Result<Resolution, ReadError>)
    ensures r.Success? ==>
      reader == JObj(r.value.obj) && TypeName(r.value.obj) == Some(r.value.typeName) &&
      r.value.typeName != "" && r.value.resolved.fullName == r.value.typeName
  {
    if !reader.JObj? then Failure(NotAnObject)
    else
      var tag := TypeName(reader.fields);
      if tag.None? || tag.value == "" then Failure(TypeInformationMissing)
      else
        match ResolveType(known, assemblies, tag.value)
        case Failure(e) => Failure(e)
        case Success(t) => Success(Resolution(reader.fields, tag.value, t))
  }

  // ---------------------------------------------------------------------
  // The contract table around the nested call.

  /**
   * `ContractResolver.ResolveContract(t)` on the table: a contract seen
   * before is reused, a new one starts with the converter its type's
   * attributes name.
   */
  function Resolved(table: ContractTable, defaultConverter: ClrType -> Option<ConverterRef>, t: ClrType)
    : (r: ContractTable)
    ensures t in r
    ensures t in table ==> r == table
    ensures t !in table ==> r[t] == defaultConverter(t)
    ensures forall k :: k != t ==> (k in r <==> k in table)
    ensures forall k :: k in table ==> k in r && r[k] == table[k]
  {
    if t in table then table else table[t := defaultConverter(t)]
  }

  /** The table during the nested call: the contract of `t` has no converter, all others are untouched. */
  function Suspended(table: ContractTable, t: ClrType): (r: ContractTable)
    ensures t in r && r[t] == None
    ensures forall k :: k != t ==> (k in r <==> k in table)
    ensures forall k :: k in table && k != t ==> r[k] == table[k]
  {
    table[t := None]
  }

  /**
   * The outcome of ReadJson: its result and the contract table afterwards.
   * A structural failure is wrapped, and the cleared converter is left cleared.
   */
  function ReadOutcome<V>(
    known: seq<ClrType>, assemblies: seq<seq<ClrType>>, reader: Json,
    table: ContractTable, defaultConverter: ClrType -> Option<ConverterRef>,
    toObject: (map<string, Json>, ClrType, ContractTable) -> Result<V, Cause>)
    : (Result<V, ReadError>, ContractTable)
  {
    match Lookup(known, assemblies, reader)
    case Failure(e) => (Failure(e), table)
    case Success(res) =>
      var resolved := Resolved(table, defaultConverter, res.resolved);
      var during := Suspended(resolved, res.resolved);
      match toObject(res.obj, res.resolved, during)
      case Success(v) => (Success(v), resolved)
      case Failure(c) => (Failure(DeserializationFailed(res.typeName, c)), during)
  }

  // ---------------------------------------------------------------------
  // Writing.

  /** `jsonObject["$type"] = type.FullName`: set or overwrite the tag, nothing else changes. */
  function Stamp(obj: map<string, Json>, t: ClrType): (r: map<string, Json>)
    ensures r.Keys == obj.Keys + {TypeKey}
    ensures r[TypeKey] == JStr(t.fullName)
    ensures forall k :: k in obj && k != TypeKey ==> r[k] == obj[k]
  {
    obj[TypeKey := JStr(t.fullName)]
  }

  /**
   * The outcome of WriteJson: what it writes and the contract table
   * afterwards. A null value is written as JSON null and nothing else
   * happens. An exception from the structural mapping escapes, and since
   * there is no try block the cleared converter stays cleared.
   */
  function WriteOutcome<V>(
    value: Option<V>, table: ContractTable, defaultConverter: ClrType -> Option<ConverterRef>,
    typeOf: V -> ClrType, fromObject: (V, ContractTable) -> Result<map<string, Json>, Cause>)
    : (Result<Json, Cause>, ContractTable)
  {
    match value
    case None => (Success(JNull), table)
    case Some(v) =>
      var t := typeOf(v);
      var resolved := Resolved(table, defaultConverter, t);
      var during := Suspended(resolved, t);
      match fromObject(v, during)
      case Success(obj) => (Success(JObj(Stamp(obj, t))), resolved)
      case Failure(c) => (Failure(c), during)
  }

  // ---------------------------------------------------------------------
  // The serializer's contract table and the converter itself.

  /** The part of a `JsonSerializer` the converter uses: its contract resolver's cache. */
  class JsonSerializer {
    var contracts: ContractTable
    /** The converter a freshly resolved contract starts with, from the type's attributes. */
    const defaultConverter: ClrType -> Option<ConverterRef>

    /**
     * A serializer whose resolver has already cached `contracts`. Newtonsoft's
     * default resolver is shared by every serializer in the process, so
     * earlier calls may have cached contracts before this one starts.
     */
    constructor (contracts: ContractTable, defaultConverter: ClrType -> Option<ConverterRef>)
      ensures this.contracts == contracts && this.defaultConverter == defaultConverter
    {
      this.defaultConverter := defaultConverter;
      this.contracts := contracts;
    }

    /** `serializer.ContractResolver.ResolveContract(t)`. */
    method ResolveContract(t: ClrType)
      modifies this
      ensures contracts == Resolved(old(contracts), defaultConverter, t)
    {
      if t !in contracts {
        contracts := contracts[t := defaultConverter(t)];
      }
    }

    /** `jsonContract.Converter = converter` on the contract of `t`. */
    method SetConverter(t: ClrType, converter: Option<ConverterRef>)
      requires t in contracts
      modifies this
      ensures contracts == old(contracts)[t := converter]
    {
      contracts := contracts[t := converter];
    }
  }

  class PolymorphicJsonConverter {
    /** `_knownTypes`; empty means every loaded type is accepted. */
    const knownTypes: seq<ClrType>

    constructor ()
      ensures knownTypes == []
      ensures forall t :: CanConvert(t)
    {
      knownTypes := [];
    }

    constructor OfOne(type1: ClrType)
      ensures knownTypes == [type1]
      ensures forall t :: CanConvert(t) <==> t == type1
    {
      knownTypes := [type1];
    }

    constructor OfTwo(type1: ClrType, type2: ClrType)
      ensures knownTypes == [type1, type2]
      ensures forall t :: CanConvert(t) <==> t == type1 || t == type2
    {
      knownTypes := [type1, type2];
    }

    predicate CanConvert(typeToConvert: ClrType)
      ensures CanConvert(typeToConvert) <==> knownTypes == [] || typeToConvert in knownTypes
    {
      |knownTypes| == 0 || Contains(knownTypes, typeToConvert)
    }

    /**
     * ReadJson on the token the reader is at. `assemblies` stands for the
     * loaded assemblies' types and `toObject` for `JObject.ToObject(type,
     * serializer)`. The `objectType` and `existingValue` arguments are
     * ignored by the source and left out.
     */
    method ReadJson<V>(
      reader: Json, assemblies: seq<seq<ClrType>>, serializer: JsonSerializer,
      toObject: (map<string, Json>, ClrType, ContractTable) -> Result<V, Cause>)
      returns (r: Result<V, ReadError>)
      modifies serializer
      ensures (r, serializer.contracts) ==
        ReadOutcome(knownTypes, assemblies, reader, old(serializer.contracts), serializer.defaultConverter, toObject)
    {
      if !reader.JObj? {
        return Failure(NotAnObject);
      }
      var jsonObject := reader.fields;
      var typeName := TypeName(jsonObject);
      if typeName.None? || typeName.value == "" {
        return Failure(TypeInformationMissing);
      }
      var name := typeName.value;
      if |knownTypes| > 0 && !AnyNamed(knownTypes, name) {
        return Failure(TypeNotKnown(name));
      }
      var single := SingleOrDefault(knownTypes, name);
      if single.Failure? {
        return Failure(AmbiguousKnownType(name));
      }
      var found := single.value;
      if found.None? {
        found := FirstOrDefault(VisibleTypes(assemblies), name);
      }
      if found.None? {
        return Failure(TypeNotFound(name));
      }
      var t := found.value;
      serializer.ResolveContract(t);
      var converter := serializer.contracts[t];
      serializer.SetConverter(t, None);
      var content := toObject(jsonObject, t, serializer.contracts);
      if content.Failure? {
        return Failure(DeserializationFailed(name, content.error));
      }
      ghost var resolved := Resolved(old(serializer.contracts), serializer.defaultConverter, t);
      assert serializer.contracts == Suspended(resolved, t);
      serializer.SetConverter(t, converter);
      assert serializer.contracts == resolved;
      assert Lookup(knownTypes, assemblies, reader) == Success(Resolution(jsonObject, name, t));
      r := Success(content.value);
    }

    /**
     * WriteJson of `value` (None is null). `typeOf` stands for `GetType()`
     * and `fromObject` for `JObject.FromObject(value, serializer)`; the
     * object written to the writer is returned.
     */
    method WriteJson<V>(
      value: Option<V>, serializer: JsonSerializer, typeOf: V -> ClrType,
      fromObject: (V, ContractTable) -> Result<map<string, Json>, Cause>)
      returns (written: Result<Json, Cause>)
      modifies serializer
      ensures (written, serializer.contracts) ==
        WriteOutcome(value, old(serializer.contracts), serializer.defaultConverter, typeOf, fromObject)
    {
      if value.None? {
        return Success(JNull);
      }
      var t := typeOf(value.value);
      serializer.ResolveContract(t);
      var converter := serializer.contracts[t];
      serializer.SetConverter(t, None);
      var jsonObject := fromObject(value.value, serializer.contracts);
      if jsonObject.Failure? {
        return Failure(jsonObject.error);
      }
      var stamped := jsonObject.value[TypeKey := JStr(t.fullName)];
      written := Success(JObj(stamped));
      ghost var resolved := Resolved(old(serializer.contracts), serializer.defaultConverter, t);
      serializer.SetConverter(t, converter);
      assert serializer.contracts == resolved;
    }
  }
}
