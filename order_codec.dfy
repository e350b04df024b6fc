/**
 * The order family driven through the converter. The structural mapping
 * (`JObject.FromObject` / `ToObject`) is Newtonsoft's and is not part of
 * this model; here one instance of it is written out for the order
 * messages, with camelCase property names (the names the consumer's
 * dispatch tests for), so that the converter's round trip and the
 * consumer's dispatch can be stated for the concrete hierarchy. Nothing in
 * the repository configures camelCase names; Newtonsoft's default resolver
 * keeps the PascalCase names of the C# properties.
 */
module OrderCodec {
  import opened Wrappers
  import opened Json
  import opened Clr
  import opened Schemas
  import opened Converter
  import opened ConverterProperties
  import Dispatch

  // ---------------------------------------------------------------------
  // The example structural mapping.

  function IdNameJson(id: int, name: string): Json
  {
    JObj(map["id" := JNum(id), "name" := JStr(name)])
  }

  /**
   * The properties of an order message. The get-only `OrderType` is written
   * too, as Newtonsoft writes every public readable property.
   */
  function ToJson(m: OrderMessage): map<string, Json>
  {
    var common := map[
      "orderType" := JStr(OrderType(m)),
      "customerInfo" := IdNameJson(m.customerInfo.id, m.customerInfo.name),
      "contactInfo" := IdNameJson(m.contactInfo.id, m.contactInfo.name),
      "timestamp" := JStr(m.timestamp.iso8601)];
    match m
    case StandardOrderMessage(_, _, _, sp, features) =>
      common + map[
        "productInfo" := JObj(map[
          "id" := JNum(sp.product.id), "name" := JStr(sp.product.name),
          "standardProductFeatures" := JStr(sp.standardProductFeatures)]),
        "standardFeatures" := JStr(features)]
    case PremiumOrderMessage(_, _, _, pp, discount, support) =>
      common + map[
        "productInfo" := JObj(map[
          "id" := JNum(pp.product.id), "name" := JStr(pp.product.name),
          "premiumProductFeatures" := JStr(pp.premiumProductFeatures)]),
        "premiumDiscountPercentage" := JNum(discount),
        "dedicatedSupportContact" := JStr(support)]
  }

  function Member(obj: map<string, Json>, key: string): Result<Json, Cause>
  {
    if key in obj then Success(obj[key]) else Failure(Cause("Required property '" + key + "' not found in JSON."))
  }

  function IntMember(obj: map<string, Json>, key: string): Result<int, Cause>
  {
    var j :- Member(obj, key);
    if j.JNum? then Success(j.n) else Failure(Cause("Error converting value to type 'System.Int32'."))
  }

  function StringMember(obj: map<string, Json>, key: string): Result<string, Cause>
  {
    var j :- Member(obj, key);
    if j.JStr? then Success(j.s) else Failure(Cause("Error converting value to type 'System.String'."))
  }

  function ObjectMember(obj: map<string, Json>, key: string): Result<map<string, Json>, Cause>
  {
    var j :- Member(obj, key);
    if j.JObj? then Success(j.fields) else Failure(Cause("Unexpected token while deserializing object."))
  }

  function CustomerMember(obj: map<string, Json>, key: string): Result<Customer, Cause>
  {
    var o :- ObjectMember(obj, key);
    var id :- IntMember(o, "id");
    var name :- StringMember(o, "name");
    Success(Customer(id, name))
  }

  function ContactMember(obj: map<string, Json>, key: string): Result<Contact, Cause>
  {
    var o :- ObjectMember(obj, key);
    var id :- IntMember(o, "id");
    var name :- StringMember(o, "name");
    Success(Contact(id, name))
  }

  function ProductMember(obj: map<string, Json>): Result<Product, Cause>
  {
    var o :- ObjectMember(obj, "productInfo");
    var id :- IntMember(o, "id");
    var name :- StringMember(o, "name");
    Success(Product(id, name))
  }

  function StandardFromJson(obj: map<string, Json>): Result<OrderMessage, Cause>
  {
    var customer :- CustomerMember(obj, "customerInfo");
    var contact :- ContactMember(obj, "contactInfo");
    var timestamp :- StringMember(obj, "timestamp");
    var product :- ProductMember(obj);
    var productObj :- ObjectMember(obj, "productInfo");
    var productFeatures :- StringMember(productObj, "standardProductFeatures");
    var features :- StringMember(obj, "standardFeatures");
    Success(StandardOrderMessage(customer, contact, Timestamp(timestamp),
      StandardProduct(product, productFeatures), features))
  }

  function PremiumFromJson(obj: map<string, Json>): Result<OrderMessage, Cause>
  {
    var customer :- CustomerMember(obj, "customerInfo");
    var contact :- ContactMember(obj, "contactInfo");
    var timestamp :- StringMember(obj, "timestamp");
    var product :- ProductMember(obj);
    var productObj :- ObjectMember(obj, "productInfo");
    var productFeatures :- StringMember(productObj, "premiumProductFeatures");
    var discount :- IntMember(obj, "premiumDiscountPercentage");
    var support :- StringMember(obj, "dedicatedSupportContact");
    Success(PremiumOrderMessage(customer, contact, Timestamp(timestamp),
      PremiumProduct(product, productFeatures), discount, support))
  }

  /**
   * The properties of `obj` as an instance of type `t`. Only the two
   * concrete order types can be built; properties not read (`$type`,
   * the get-only `orderType`) are ignored. Unlike Newtonsoft, a missing
   * property is an error here rather than a default value.
   */
  function FromJson(obj: map<string, Json>, t: ClrType): Result<OrderMessage, Cause>
  {
    if t == TypeOf(StandardOrderMessageClass) then StandardFromJson(obj)
    else if t == TypeOf(PremiumOrderMessageClass) then PremiumFromJson(obj)
    else Failure(Cause("Could not create an order message of type " + t.fullName + "."))
  }

  /** `GetType()` of an order message. */
  function OrderClrType(m: OrderMessage): ClrType
  {
    TypeOf(RuntimeClass(m))
  }

  /** The members both variants inherit come back from a written message. */
  lemma InheritedRoundTrip(m: OrderMessage, tag: Json)
    ensures var obj := ToJson(m)[TypeKey := tag];
      && CustomerMember(obj, "customerInfo") == Success(m.customerInfo)
      && ContactMember(obj, "contactInfo") == Success(m.contactInfo)
      && StringMember(obj, "timestamp") == Success(m.timestamp.iso8601)
  {
  }

  lemma StandardRoundTrip(m: OrderMessage, tag: Json)
    requires m.StandardOrderMessage?
    ensures StandardFromJson(ToJson(m)[TypeKey := tag]) == Success(m)
  {
  }

  lemma PremiumRoundTrip(m: OrderMessage, tag: Json)
    requires m.PremiumOrderMessage?
    ensures PremiumFromJson(ToJson(m)[TypeKey := tag]) == Success(m)
  {
    var obj := ToJson(m)[TypeKey := tag];
    var pp := m.premiumProductInfo;
    InheritedRoundTrip(m, tag);
    var product := map["id" := JNum(pp.product.id), "name" := JStr(pp.product.name),
      "premiumProductFeatures" := JStr(pp.premiumProductFeatures)];
    assert obj["productInfo"] == JObj(product);
    assert ProductMember(obj) == Success(pp.product);
    assert StringMember(product, "premiumProductFeatures") == Success(pp.premiumProductFeatures);
    assert IntMember(obj, "premiumDiscountPercentage") == Success(m.premiumDiscountPercentage);
    assert StringMember(obj, "dedicatedSupportContact") == Success(m.dedicatedSupportContact);
  }

  /** The mapping recovers every message from its own properties, whatever `$type` says. */
  lemma FromJsonToJson(m: OrderMessage, tag: Json)
    ensures FromJson(ToJson(m)[TypeKey := tag], OrderClrType(m)) == Success(m)
  {
    TypeOfInjective(StandardOrderMessageClass, PremiumOrderMessageClass);
    if m.StandardOrderMessage? {
      StandardRoundTrip(m, tag);
    } else {
      PremiumRoundTrip(m, tag);
    }
  }

  // ---------------------------------------------------------------------
  // The converter on orders.

  /** The converter as `new PolymorphicJsonConverter(typeof(StandardOrderMessage), typeof(PremiumOrderMessage))` builds it. */
  const OrderKnownTypes: seq<ClrType> := [TypeOf(StandardOrderMessageClass), TypeOf(PremiumOrderMessageClass)]

  /** The shared schema assembly: the namespace's classes in declaration order. */
  const SchemaAssembly: seq<ClrType> := [
    TypeOf(CustomerClass), TypeOf(ProductClass), TypeOf(StandardProductClass),
    TypeOf(PremiumProductClass), TypeOf(ContactClass), TypeOf(OrderMessageClass),
    TypeOf(StandardOrderMessageClass), TypeOf(PremiumOrderMessageClass)]

  function Write(m: OrderMessage, table: ContractTable, defaultConverter: ClrType -> Option<ConverterRef>)
    : (Result<Json, Cause>, ContractTable)
  {
    WriteOutcome(Some(m), table, defaultConverter, OrderClrType, (v: OrderMessage, _: ContractTable) => Success(ToJson(v)))
  }

  function Read(known: seq<ClrType>, assemblies: seq<seq<ClrType>>, j: Json, table: ContractTable,
    defaultConverter: ClrType -> Option<ConverterRef>)
    : (Result<OrderMessage, ReadError>, ContractTable)
  {
    ReadOutcome(known, assemblies, j, table, defaultConverter,
      (obj: map<string, Json>, t: ClrType, _: ContractTable) => FromJson(obj, t))
  }

  /** The two known order types have different full names. */
  lemma OrderKnownTypesDistinct()
    ensures DistinctNames(OrderKnownTypes)
  {
  }

  /**
   * Writing an order stamps `"$type"` with `com.example.schemas.` and its
   * class name, beside the order's own properties.
   */
  lemma WriteStampsFullName(m: OrderMessage, table: ContractTable, defaultConverter: ClrType -> Option<ConverterRef>)
    ensures var (w, _) := Write(m, table, defaultConverter);
      && w.Success? && w.value.JObj?
      && w.value.fields[TypeKey] == JStr("com.example.schemas." + ClassName(RuntimeClass(m)))
      && w.value.fields.Keys == ToJson(m).Keys + {TypeKey}
  {
  }

  /**
   * Round trip through a converter that knows both order types: reading
   * what was written gives back the same message, and the contract table
   * ends as the write left it (each call restores what it cleared).
   */
  lemma KnownRoundTrip(
    m: OrderMessage, assemblies: seq<seq<ClrType>>, table: ContractTable,
    defaultConverter: ClrType -> Option<ConverterRef>)
    ensures var (w, afterWrite) := Write(m, table, defaultConverter);
      && w.Success?
      && afterWrite == Resolved(table, defaultConverter, OrderClrType(m))
      && Read(OrderKnownTypes, assemblies, w.value, afterWrite, defaultConverter) == (Success(m), afterWrite)
  {
    var t := OrderClrType(m);
    WriteStampsFullName(m, table, defaultConverter);
    var (w, afterWrite) := Write(m, table, defaultConverter);
    OrderKnownTypesDistinct();
    StampedTagResolves(OrderKnownTypes, assemblies, ToJson(m), t);
    FromJsonToJson(m, JStr(t.fullName));
    assert w.value == JObj(Stamp(ToJson(m), t));
  }

  /**
   * Round trip through the parameterless converter, when the schema type is
   * the only loaded type with its full name.
   */
  lemma UnrestrictedRoundTrip(
    m: OrderMessage, assemblies: seq<seq<ClrType>>, table: ContractTable,
    defaultConverter: ClrType -> Option<ConverterRef>)
    requires SchemaAssembly in assemblies
    requires forall a, u :: a in assemblies && u in a && u.fullName == OrderClrType(m).fullName ==> u == OrderClrType(m)
    ensures var (w, afterWrite) := Write(m, table, defaultConverter);
      && w.Success?
      && Read([], assemblies, w.value, afterWrite, defaultConverter) == (Success(m), afterWrite)
  {
    var t := OrderClrType(m);
    WriteStampsFullName(m, table, defaultConverter);
    var (w, afterWrite) := Write(m, table, defaultConverter);
    assert t in SchemaAssembly by {
      if m.StandardOrderMessage? { assert SchemaAssembly[6] == t; } else { assert SchemaAssembly[7] == t; }
    }
    StampedTagResolves([], assemblies, ToJson(m), t);
    var name := t.fullName;
    var first := FirstOrDefault(VisibleTypes(assemblies), name);
    assert first == Some(t) by {
      var u := first.value;
      assert u in VisibleTypes(assemblies) && u.fullName == name;
      var a :| a in assemblies && u in a;
    }
    FromJsonToJson(m, JStr(name));
    assert w.value == JObj(Stamp(ToJson(m), t));
  }

  /**
   * Under this mapping's camelCase names, the consumer's field-presence
   * dispatch agrees with the variant of what the converter wrote. With
   * Newtonsoft's default PascalCase names it would not.
   */
  lemma DispatchMatchesVariant(m: OrderMessage, table: ContractTable, defaultConverter: ClrType -> Option<ConverterRef>)
    ensures var (w, _) := Write(m, table, defaultConverter);
      && w.Success? && w.value.JObj?
      && Dispatch.Classify(w.value.fields) ==
           (if m.StandardOrderMessage? then Dispatch.StandardOrder else Dispatch.PremiumOrder)
  {
    WriteStampsFullName(m, table, defaultConverter);
    var keys := ToJson(m).Keys + {TypeKey};
    if m.StandardOrderMessage? {
      assert Dispatch.StandardKey in keys;
    } else {
      assert Dispatch.StandardKey !in keys;
      assert Dispatch.DiscountKey in keys && Dispatch.SupportKey in keys;
    }
  }
}
