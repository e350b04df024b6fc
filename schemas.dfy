/**
 * The closed order-message family in namespace `com.example.schemas`.
 * The abstract base `OrderMessage` and its two concrete subclasses become one
 * datatype with a constructor per concrete subclass; the inherited members
 * (`CustomerInfo`, `ContactInfo`, `Timestamp`) appear in both constructors.
 */
module Schemas {
  import opened Wrappers
  import opened Clr

  datatype Customer = Customer(id: int, name: string)

  /** The shared part of both product shapes. */
  datatype Product = Product(id: int, name: string)

  datatype StandardProduct = StandardProduct(product: Product, standardProductFeatures: string)

  datatype PremiumProduct = PremiumProduct(product: Product, premiumProductFeatures: string)

  datatype Contact = Contact(id: int, name: string)

  /** A `DateTimeOffset`, kept opaque as its ISO 8601 round-trip text. */
  datatype Timestamp = Timestamp(iso8601: string)

  datatype OrderMessage =
    | StandardOrderMessage(
        customerInfo: Customer, contactInfo: Contact, timestamp: Timestamp,
        standardProductInfo: StandardProduct, standardFeatures: string)
    | PremiumOrderMessage(
        customerInfo: Customer, contactInfo: Contact, timestamp: Timestamp,
        premiumProductInfo: PremiumProduct, premiumDiscountPercentage: int,
        dedicatedSupportContact: string)

  /** The get-only `OrderType` override of each concrete subclass. */
  function OrderType(m: OrderMessage): (r: string)
    ensures r == "StandardOrder" <==> m.StandardOrderMessage?
    ensures r == "PremiumOrder" <==> m.PremiumOrderMessage?
  {
    match m
    case StandardOrderMessage(_, _, _, _, _) => "StandardOrder"
    case PremiumOrderMessage(_, _, _, _, _, _) => "PremiumOrder"
  }

  /** `OrderType` tells the two variants apart. */
  lemma OrderTypeIdentifiesVariant(m1: OrderMessage, m2: OrderMessage)
    ensures OrderType(m1) == OrderType(m2) <==> m1.StandardOrderMessage? == m2.StandardOrderMessage?
  {
  }

  /** The classes the namespace declares. */
  datatype SchemaClass =
    | CustomerClass
    | ProductClass
    | StandardProductClass
    | PremiumProductClass
    | ContactClass
    | OrderMessageClass
    | StandardOrderMessageClass
    | PremiumOrderMessageClass

  const Namespace: string := "com.example.schemas"

  function ClassName(c: SchemaClass): string
  {
    match c
    case CustomerClass => "Customer"
    case ProductClass => "Product"
    case StandardProductClass => "StandardProduct"
    case PremiumProductClass => "PremiumProduct"
    case ContactClass => "Contact"
    case OrderMessageClass => "OrderMessage"
    case StandardOrderMessageClass => "StandardOrderMessage"
    case PremiumOrderMessageClass => "PremiumOrderMessage"
  }

  /** `Type.FullName` of a class declared in the namespace. */
  function FullName(c: SchemaClass): string
  {
    Namespace + "." + ClassName(c)
  }

  /** The position of a class in its declaration order, used as its type identity. */
  function Ordinal(c: SchemaClass): nat
  {
    match c
    case CustomerClass => 0
    case ProductClass => 1
    case StandardProductClass => 2
    case PremiumProductClass => 3
    case ContactClass => 4
    case OrderMessageClass => 5
    case StandardOrderMessageClass => 6
    case PremiumOrderMessageClass => 7
  }

  /**
   * The schema class a full name denotes, if any: the namespace and a dot,
   * then one of the declared class names.
   */
  function ClassNamed(name: string): Option<SchemaClass>
  {
    var k := |Namespace| + 1;
    if |name| < k || name[..k] != Namespace + "." then None
    else
      var n := name[k..];
      if n == "Customer" then Some(CustomerClass)
      else if n == "Product" then Some(ProductClass)
      else if n == "StandardProduct" then Some(StandardProductClass)
      else if n == "PremiumProduct" then Some(PremiumProductClass)
      else if n == "Contact" then Some(ContactClass)
      else if n == "OrderMessage" then Some(OrderMessageClass)
      else if n == "StandardOrderMessage" then Some(StandardOrderMessageClass)
      else if n == "PremiumOrderMessage" then Some(PremiumOrderMessageClass)
      else None
  }

  /** The runtime `Type` of a class: its full name reads back as that class. */
  function TypeOf(c: SchemaClass): (t: ClrType)
    ensures ClassNamed(t.fullName) == Some(c)
  {
    assert FullName(c)[..|Namespace| + 1] == Namespace + ".";
    assert FullName(c)[|Namespace| + 1..] == ClassName(c);
    ClrType(FullName(c), Ordinal(c))
  }

  /** Only a class's own full name reads back as that class. */
  lemma ClassNamedOnlyFullName(name: string, c: SchemaClass)
    ensures ClassNamed(name) == Some(c) <==> name == FullName(c)
  {
    if ClassNamed(name) == Some(c) {
      var k := |Namespace| + 1;
      assert name == name[..k] + name[k..];
    } else {
      assert ClassNamed(TypeOf(c).fullName) == Some(c);
    }
  }

  /** The declared base class of each class; `OrderMessage`, `Product`, `Customer` and `Contact` have none. */
  function BaseClass(c: SchemaClass): Option<SchemaClass>
  {
    match c
    case StandardProductClass => Some(ProductClass)
    case PremiumProductClass => Some(ProductClass)
    case StandardOrderMessageClass => Some(OrderMessageClass)
    case PremiumOrderMessageClass => Some(OrderMessageClass)
    case _ => None
  }

  /** `OrderMessage` is declared abstract; no other class of the namespace is. */
  predicate IsAbstract(c: SchemaClass)
  {
    c == OrderMessageClass
  }

  /** `value.GetType()` of an order message. */
  function RuntimeClass(m: OrderMessage): (c: SchemaClass)
    ensures !IsAbstract(c) && BaseClass(c) == Some(OrderMessageClass)
    ensures c == StandardOrderMessageClass <==> m.StandardOrderMessage?
  {
    match m
    case StandardOrderMessage(_, _, _, _, _) => StandardOrderMessageClass
    case PremiumOrderMessage(_, _, _, _, _, _) => PremiumOrderMessageClass
  }

  /** The concrete subclasses of `OrderMessage` are exactly the two order variants. */
  lemma OrderSubclassesAreClosed(c: SchemaClass)
    ensures BaseClass(c) == Some(OrderMessageClass) <==>
            exists m: OrderMessage :: RuntimeClass(m) == c
  {
    var s := Customer(0, "");
    var ct := Contact(0, "");
    var ts := Timestamp("");
    if c == StandardOrderMessageClass {
      assert RuntimeClass(StandardOrderMessage(s, ct, ts, StandardProduct(Product(0, ""), ""), "")) == c;
    } else if c == PremiumOrderMessageClass {
      assert RuntimeClass(PremiumOrderMessage(s, ct, ts, PremiumProduct(Product(0, ""), ""), 0, "")) == c;
    }
  }

  /** Distinct classes have distinct full names, so a full name identifies its class. */
  lemma FullNameInjective(c1: SchemaClass, c2: SchemaClass)
    ensures FullName(c1) == FullName(c2) <==> c1 == c2
  {
    if FullName(c1) == FullName(c2) {
      var k := |Namespace| + 1;
      assert ClassName(c1) == FullName(c1)[k..];
      assert ClassName(c2) == FullName(c2)[k..];
    }
  }

  /** Every class's `TypeOf` carries its full name and no two classes share one. */
  lemma TypeOfInjective(c1: SchemaClass, c2: SchemaClass)
    ensures TypeOf(c1).fullName == TypeOf(c2).fullName <==> c1 == c2
  {
    FullNameInjective(c1, c2);
  }
}
