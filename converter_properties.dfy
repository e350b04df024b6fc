/**
 * What ReadJson and WriteJson promise, stated over their outcome functions
 * (which the methods of `PolymorphicJsonConverter` are proved to compute).
 */
module ConverterProperties {
  import opened Wrappers
  import opened Json
  import opened Clr
  import opened Converter

  /** No two types in the list share a full name. */
  predicate DistinctNames(s: seq<ClrType>)
  {
    forall i, j :: 0 <= i < j < |s| ==> s[i].fullName != s[j].fullName
  }

  /** A token that is not an object is rejected by `JObject.Load`, before anything else. */
  lemma ReadRejectsNonObject<V>(
    known: seq<ClrType>, assemblies: seq<seq<ClrType>>, reader: Json, table: ContractTable,
    defaultConverter: ClrType -> Option<ConverterRef>,
    toObject: (map<string, Json>, ClrType, ContractTable) -> Result<V, Cause>)
    requires !reader.JObj?
    ensures ReadOutcome(known, assemblies, reader, table, defaultConverter, toObject) == (Failure(NotAnObject), table)
  {
  }

  /** An absent or empty `"$type"` (a JSON null reads as empty) fails, whatever the known types. */
  lemma ReadMissingTag<V>(
    known: seq<ClrType>, assemblies: seq<seq<ClrType>>, obj: map<string, Json>, table: ContractTable,
    defaultConverter: ClrType -> Option<ConverterRef>,
    toObject: (map<string, Json>, ClrType, ContractTable) -> Result<V, Cause>)
    requires TypeKey !in obj || obj[TypeKey] == JNull || obj[TypeKey] == JStr("")
    ensures ReadOutcome(known, assemblies, JObj(obj), table, defaultConverter, toObject) ==
      (Failure(TypeInformationMissing), table)
  {
  }

  /**
   * With a non-empty known list, a tag no known type carries is rejected as
   * not known, and the loaded types are never looked at: the outcome is the
   * same for any two sets of assemblies.
   */
  lemma ReadUnknownTag<V>(
    known: seq<ClrType>, assemblies: seq<seq<ClrType>>, obj: map<string, Json>, table: ContractTable,
    defaultConverter: ClrType -> Option<ConverterRef>,
    toObject: (map<string, Json>, ClrType, ContractTable) -> Result<V, Cause>)
    requires |known| > 0 && TypeName(obj).Some? && TypeName(obj).value != ""
    requires forall i :: 0 <= i < |known| ==> known[i].fullName != TypeName(obj).value
    ensures ReadOutcome(known, assemblies, JObj(obj), table, defaultConverter, toObject) ==
      (Failure(TypeNotKnown(TypeName(obj).value)), table)
  {
  }

  /** With a non-empty known list, resolution never reaches the loaded types. */
  lemma KnownListIgnoresLoadedTypes(
    known: seq<ClrType>, assemblies1: seq<seq<ClrType>>, assemblies2: seq<seq<ClrType>>, reader: Json)
    requires |known| > 0
    ensures Lookup(known, assemblies1, reader) == Lookup(known, assemblies2, reader)
  {
  }

  /** A tag carried by exactly one known type resolves to that very entry. */
  lemma KnownTagResolvesToEntry(
    known: seq<ClrType>, assemblies: seq<seq<ClrType>>, obj: map<string, Json>, i: nat)
    requires i < |known| && TypeName(obj) == Some(known[i].fullName) && known[i].fullName != ""
    requires forall j :: 0 <= j < |known| && j != i ==> known[j].fullName != known[i].fullName
    ensures Lookup(known, assemblies, JObj(obj)) == Success(Resolution(obj, known[i].fullName, known[i]))
  {
  }

  /** Two known entries with the tag's full name make `SingleOrDefault` throw; the exception is not wrapped. */
  lemma ReadDuplicateKnownTag<V>(
    known: seq<ClrType>, assemblies: seq<seq<ClrType>>, obj: map<string, Json>, table: ContractTable,
    defaultConverter: ClrType -> Option<ConverterRef>,
    toObject: (map<string, Json>, ClrType, ContractTable) -> Result<V, Cause>, i: nat, j: nat)
    requires i < j < |known| && known[i].fullName == known[j].fullName
    requires TypeName(obj) == Some(known[i].fullName) && known[i].fullName != ""
    ensures ReadOutcome(known, assemblies, JObj(obj), table, defaultConverter, toObject) ==
      (Failure(AmbiguousKnownType(known[i].fullName)), table)
    ensures ExceptionClassOf(AmbiguousKnownType(known[i].fullName)) == InvalidOperationException
  {
  }

  /**
   * With no known types the tag resolves to the first loaded type, in
   * assembly and type order, with that full name; with none it is not found.
   */
  lemma UnrestrictedResolvesFirstLoaded(assemblies: seq<seq<ClrType>>, obj: map<string, Json>)
    requires TypeName(obj).Some? && TypeName(obj).value != ""
    ensures var name := TypeName(obj).value;
      Lookup([], assemblies, JObj(obj)) ==
        match FirstOrDefault(VisibleTypes(assemblies), name)
        case Some(t) => Success(Resolution(obj, name, t))
        case None => Failure(TypeNotFound(name))
  {
  }

  /** `FirstOrDefault` over a concatenation searches the first part before the second. */
  lemma {:induction false} FirstOrDefaultAppend(a: seq<ClrType>, b: seq<ClrType>, name: string)
    ensures FirstOrDefault(a + b, name) ==
      if AnyNamed(a, name) then FirstOrDefault(a, name) else FirstOrDefault(b, name)
  {
    if a != [] {
      assert (a + b)[1..] == a[1..] + b;
      FirstOrDefaultAppend(a[1..], b, name);
    } else {
      assert a + b == b;
    }
  }

  /**
   * The flattened loaded types are searched assembly by assembly: the first
   * type found is the first match in the earliest assembly that declares the
   * name, whatever later assemblies hold.
   */
  lemma {:induction false} FirstLoadedIsFromEarliestAssembly(assemblies: seq<seq<ClrType>>, name: string, k: nat)
    requires k < |assemblies| && AnyNamed(assemblies[k], name)
    requires forall j :: 0 <= j < k ==> !AnyNamed(assemblies[j], name)
    ensures FirstOrDefault(VisibleTypes(assemblies), name) == FirstOrDefault(assemblies[k], name)
    decreases k
  {
    FirstOrDefaultAppend(assemblies[0], VisibleTypes(assemblies[1..]), name);
    if k > 0 {
      FirstLoadedIsFromEarliestAssembly(assemblies[1..], name, k - 1);
    }
  }

  /**
   * When the structural decode throws, ReadJson throws a serialization
   * error naming the tag with the original as inner exception, and the
   * restore is skipped: the resolved contract is left with no converter.
   */
  lemma ReadWrapsDecodeFailure<V>(
    known: seq<ClrType>, assemblies: seq<seq<ClrType>>, reader: Json, table: ContractTable,
    defaultConverter: ClrType -> Option<ConverterRef>,
    toObject: (map<string, Json>, ClrType, ContractTable) -> Result<V, Cause>)
    requires Lookup(known, assemblies, reader).Success?
    requires var res := Lookup(known, assemblies, reader).value;
      toObject(res.obj, res.resolved, Suspended(Resolved(table, defaultConverter, res.resolved), res.resolved)).Failure?
    ensures var res := Lookup(known, assemblies, reader).value;
      var cause := toObject(res.obj, res.resolved, Suspended(Resolved(table, defaultConverter, res.resolved), res.resolved)).error;
      var (r, after) := ReadOutcome(known, assemblies, reader, table, defaultConverter, toObject);
      && r == Failure(DeserializationFailed(res.typeName, cause))
      && Occurs(res.typeName, Message(r.error))
      && ExceptionClassOf(r.error) == JsonSerializationException
      && res.resolved in after && after[res.resolved] == None
      && (forall k :: k in table && k != res.resolved ==> k in after && after[k] == table[k])
  {
    var res := Lookup(known, assemblies, reader).value;
    var cause := toObject(res.obj, res.resolved, Suspended(Resolved(table, defaultConverter, res.resolved), res.resolved)).error;
    MessageNamesTag(DeserializationFailed(res.typeName, cause));
  }

  /**
   * A successful read hands the nested decode a table in which the resolved
   * contract has no converter, and leaves the table as it was before the call
   * apart from caching a newly resolved contract.
   */
  lemma ReadRestoresConverter<V>(
    known: seq<ClrType>, assemblies: seq<seq<ClrType>>, reader: Json, table: ContractTable,
    defaultConverter: ClrType -> Option<ConverterRef>,
    toObject: (map<string, Json>, ClrType, ContractTable) -> Result<V, Cause>)
    requires ReadOutcome(known, assemblies, reader, table, defaultConverter, toObject).0.Success?
    ensures var res := Lookup(known, assemblies, reader).value;
      var during := Suspended(Resolved(table, defaultConverter, res.resolved), res.resolved);
      var (r, after) := ReadOutcome(known, assemblies, reader, table, defaultConverter, toObject);
      && during[res.resolved] == None
      && toObject(res.obj, res.resolved, during) == Success(r.value)
      && after == Resolved(table, defaultConverter, res.resolved)
      && (res.resolved in table ==> after == table)
  {
  }

  /** A null value is written as JSON null, with no contract touched. */
  lemma WriteNull<V>(
    table: ContractTable, defaultConverter: ClrType -> Option<ConverterRef>,
    typeOf: V -> ClrType, fromObject: (V, ContractTable) -> Result<map<string, Json>, Cause>)
    ensures WriteOutcome(None, table, defaultConverter, typeOf, fromObject) == (Success(JNull), table)
  {
  }

  /**
   * A value is written as its structural object with `"$type"` set to its
   * runtime type's full name (replacing any `"$type"` the mapping produced)
   * and every other property unchanged; the nested mapping sees the type's
   * contract with no converter, and afterwards the table is as before apart
   * from caching. The known types play no part.
   */
  lemma WriteStampsRuntimeType<V>(
    v: V, table: ContractTable, defaultConverter: ClrType -> Option<ConverterRef>,
    typeOf: V -> ClrType, fromObject: (V, ContractTable) -> Result<map<string, Json>, Cause>)
    requires fromObject(v, Suspended(Resolved(table, defaultConverter, typeOf(v)), typeOf(v))).Success?
    ensures var t := typeOf(v);
      var obj := fromObject(v, Suspended(Resolved(table, defaultConverter, t), t)).value;
      var (w, after) := WriteOutcome(Some(v), table, defaultConverter, typeOf, fromObject);
      && w.Success? && w.value.JObj?
      && w.value.fields.Keys == obj.Keys + {TypeKey}
      && w.value.fields[TypeKey] == JStr(t.fullName)
      && (forall k :: k in obj && k != TypeKey ==> w.value.fields[k] == obj[k])
      && after == Resolved(table, defaultConverter, t)
      && (t in table ==> after == table)
  {
  }

  /** An exception from the structural mapping escapes WriteJson and the converter is left cleared. */
  lemma WriteFailureLeavesConverterCleared<V>(
    v: V, table: ContractTable, defaultConverter: ClrType -> Option<ConverterRef>,
    typeOf: V -> ClrType, fromObject: (V, ContractTable) -> Result<map<string, Json>, Cause>)
    requires fromObject(v, Suspended(Resolved(table, defaultConverter, typeOf(v)), typeOf(v))).Failure?
    ensures var (w, after) := WriteOutcome(Some(v), table, defaultConverter, typeOf, fromObject);
      && w == Failure(fromObject(v, Suspended(Resolved(table, defaultConverter, typeOf(v)), typeOf(v))).error)
      && typeOf(v) in after && after[typeOf(v)] == None
  {
  }

  /**
   * The tag WriteJson stamps is accepted by ReadJson's lookup whenever the
   * runtime type is a known type whose name no other known type shares, or
   * there are no known types and the type is loaded. It resolves to a type
   * with the same full name: the type itself when it is known, else the
   * first loaded type with that name.
   */
  lemma StampedTagResolves(
    known: seq<ClrType>, assemblies: seq<seq<ClrType>>, obj: map<string, Json>, t: ClrType)
    requires t.fullName != ""
    requires (t in known && DistinctNames(known)) || (known == [] && exists a :: a in assemblies && t in a)
    ensures var l := Lookup(known, assemblies, JObj(Stamp(obj, t)));
      && l.Success?
      && l.value.typeName == t.fullName
      && l.value.resolved.fullName == t.fullName
      && (t in known ==> l.value.resolved == t)
      && (known == [] ==> Some(l.value.resolved) == FirstOrDefault(VisibleTypes(assemblies), t.fullName))
  {
    var stamped := Stamp(obj, t);
    assert TypeName(stamped) == Some(t.fullName);
    if t in known {
      var i :| 0 <= i < |known| && known[i] == t;
      KnownTagResolvesToEntry(known, assemblies, stamped, i);
    } else {
      assert t in VisibleTypes(assemblies);
      UnrestrictedResolvesFirstLoaded(assemblies, stamped);
    }
  }
}
