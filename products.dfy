/** The Best Buy store's Product: a named, priced inventory item with a stock
    level and an active flag, whose mutators validate before they change
    anything.  The behaviour is given twice: once on values (`ProductState`
    and the step functions, where the properties are proved), and once as the
    mutable `Product` class whose methods are proved to follow the step
    functions. */
module Products {
  import opened PyText

  /** The distinct `ValueError`s the class raises, one per message. */
  datatype Error =
    | EmptyName             // constructor: name empty or whitespace only
    | NegativePrice         // constructor: price below zero
    | NegativeStock         // constructor: quantity below zero
    | NegativeQuantity      // set_quantity: new quantity below zero
    | NonPositivePurchase   // buy: purchase quantity zero or below
    | InsufficientStock     // buy: purchase quantity above the stock

  /** Either the value an operation returns or the error it raises. */
  datatype Outcome<+T> = Ok(value: T) | Fail(error: Error)

  /** The four attributes of a product. */
  datatype ProductState = ProductState(name: string, price: int, quantity: int, active: bool)

  /** What a mutator returns or raises, together with the state it leaves. */
  datatype Step<+T> = Step(outcome: Outcome<T>, after: ProductState)

  /** The class invariant: a non-blank name, a price and a stock of at least zero. */
  predicate Invariant(s: ProductState) {
    !Blank(s.name) && s.price >= 0 && s.quantity >= 0
  }

  /** The rejection test of the constructor: the name is empty or strips to
      the empty string. */
  predicate NameRejected(name: string) {
    |name| == 0 || Strip(name) == []
  }

  /** The constructor: the name is checked first, then the price, then the
      quantity; a new product stores its arguments and starts active. */
  function Construct(name: string, price: int, quantity: int): (r: Outcome<ProductState>)
    ensures r.Fail? <==> Blank(name) || price < 0 || quantity < 0
    ensures Blank(name) ==> r == Fail(EmptyName)
    ensures !Blank(name) && price < 0 ==> r == Fail(NegativePrice)
    ensures !Blank(name) && price >= 0 && quantity < 0 ==> r == Fail(NegativeStock)
    ensures r.Ok? ==> r.value == ProductState(name, price, quantity, true) && Invariant(r.value)
  {
    StripEmptyIffBlank(name);
    if NameRejected(name) then Fail(EmptyName)
    else if price < 0 then Fail(NegativePrice)
    else if quantity < 0 then Fail(NegativeStock)
    else Ok(ProductState(name, price, quantity, true))
  }

  /** `set_quantity`: a negative quantity is refused and changes nothing;
      otherwise the stock is replaced, a stock of zero deactivates the
      product, and a positive stock leaves the flag as it was. */
  function SetQuantityStep(s: ProductState, q: int): (r: Step<()>)
    ensures r.outcome.Fail? <==> q < 0
    ensures r.outcome.Fail? ==> r.outcome.error == NegativeQuantity && r.after == s
    ensures r.outcome.Ok? ==> r.after == s.(quantity := q, active := s.active && q != 0)
    ensures Invariant(s) ==> Invariant(r.after)
  {
    if q < 0 then Step(Fail(NegativeQuantity), s)
    else
      var t := s.(quantity := q);
      Step(Ok(()), if t.quantity == 0 then t.(active := false) else t)
  }

  /** `buy`: the purchase quantity must be positive and at most the stock
      (the active flag is not consulted); on success the total `q * price`
      is returned, the stock drops by `q`, and selling out deactivates. */
  function BuyStep(s: ProductState, q: int): (r: Step<int>)
    ensures r.outcome.Fail? <==> q <= 0 || q > s.quantity
    ensures r.outcome.Fail? ==> r.after == s
    ensures q <= 0 ==> r.outcome == Fail(NonPositivePurchase)
    ensures 0 < q && q > s.quantity ==> r.outcome == Fail(InsufficientStock)
    ensures r.outcome.Ok? ==>
              r.outcome.value == q * s.price &&
              r.after == s.(quantity := s.quantity - q, active := s.active && q != s.quantity)
    ensures Invariant(s) ==> Invariant(r.after)
  {
    if q <= 0 then Step(Fail(NonPositivePurchase), s)
    else if q > s.quantity then Step(Fail(InsufficientStock), s)
    else
      var total := q * s.price;
      var t := s.(quantity := s.quantity - q);
      Step(Ok(total), if t.quantity == 0 then t.(active := false) else t)
  }

  /** `show`: the name, then the price and the quantity as Python renders
      integers. */
  function Summary(s: ProductState): string {
    s.name + ", Price: " + IntStr(s.price) + ", Quantity: " + IntStr(s.quantity)
  }

  /** The summary reports the stock faithfully: two products with the same
      name render alike only when their prices and quantities agree. */
  lemma SummaryDeterminesPriceAndQuantity(s: ProductState, t: ProductState)
    requires s.name == t.name && Summary(s) == Summary(t)
    ensures s.price == t.price && s.quantity == t.quantity
  {
    Regroup(s.name, IntStr(s.price), IntStr(s.quantity));
    Regroup(t.name, IntStr(t.price), IntStr(t.quantity));
    DropCommonPrefix(s.name + ", Price: ", IntStr(s.price) + ", Quantity: " + IntStr(s.quantity),
                     IntStr(t.price) + ", Quantity: " + IntStr(t.quantity));
    NumbersDetermined(s.price, s.quantity, t.price, t.quantity);
  }

  lemma Regroup(name: string, price: string, quantity: string)
    ensures name + ", Price: " + price + ", Quantity: " + quantity
            == (name + ", Price: ") + (price + ", Quantity: " + quantity)
  {
  }

  lemma DropCommonPrefix(h: string, x: string, y: string)
    requires h + x == h + y
    ensures x == y
  {
    assert x == (h + x)[|h|..];
  }

  /** The part of a summary after the name fixes both numbers. */
  lemma NumbersDetermined(p1: int, q1: int, p2: int, q2: int)
    requires IntStr(p1) + ", Quantity: " + IntStr(q1) == IntStr(p2) + ", Quantity: " + IntStr(q2)
    ensures p1 == p2 && q1 == q2
  {
    IntStrHasNoComma(p1);
    IntStrHasNoComma(p2);
    SplitAtComma(IntStr(p1), IntStr(q1), IntStr(p2), IntStr(q2), ", Quantity: ");
    IntStrInjective(p1, p2);
    IntStrInjective(q1, q2);
  }

  /** Whatever the flag says, a purchase is decided, priced and stocked the
      same way: only the flag itself carries over. */
  lemma BuyIgnoresActive(s: ProductState, q: int, b: bool)
    ensures BuyStep(s.(active := b), q).outcome == BuyStep(s, q).outcome
    ensures BuyStep(s.(active := b), q).after.quantity == BuyStep(s, q).after.quantity
  {
  }

  /** In particular, an inactive product that still has stock can be bought. */
  lemma InactiveProductCanBeBought(s: ProductState, q: int)
    requires !s.active && 0 < q <= s.quantity
    ensures BuyStep(s, q).outcome == Ok(q * s.price)
    ensures !BuyStep(s, q).after.active
  {
  }

  /** The total of a purchase from a valid product is never negative. */
  lemma BuyTotalNonNegative(s: ProductState, q: int)
    requires Invariant(s) && BuyStep(s, q).outcome.Ok?
    ensures BuyStep(s, q).outcome.value >= 0
  {
  }

  /** Buying `q1` and then `q2` succeeds exactly when buying `q1 + q2` at once
      does, and then costs the same and leaves the same product. */
  lemma BuyInTwoSteps(s: ProductState, q1: int, q2: int)
    requires q1 > 0 && q2 > 0
    ensures var first := BuyStep(s, q1);
            var second := BuyStep(first.after, q2);
            var both := BuyStep(s, q1 + q2);
            (first.outcome.Ok? && second.outcome.Ok? <==> both.outcome.Ok?) &&
            (both.outcome.Ok? ==>
               first.outcome.value + second.outcome.value == both.outcome.value &&
               second.after == both.after)
  {
  }

  /** The operations a client can apply to a product. */
  datatype Op = SetQuantity(q: int) | Activate | Deactivate | Buy(q: int)

  /** The state an operation leaves, whether it succeeds or raises. */
  function Apply(s: ProductState, op: Op): ProductState {
    match op
    case SetQuantity(q) => SetQuantityStep(s, q).after
    case Activate => s.(active := true)
    case Deactivate => s.(active := false)
    case Buy(q) => BuyStep(s, q).after
  }

  function Run(s: ProductState, ops: seq<Op>): ProductState
    decreases |ops|
  {
    if ops == [] then s else Run(Apply(s, ops[0]), ops[1..])
  }

  /** Every sequence of operations on a valid product keeps it valid. */
  lemma {:induction false} RunPreservesInvariant(s: ProductState, ops: seq<Op>)
    requires Invariant(s)
    ensures Invariant(Run(s, ops))
    decreases |ops|
  {
    if ops != [] {
      RunPreservesInvariant(Apply(s, ops[0]), ops[1..]);
    }
  }

  /** No operation changes the name or the price. */
  lemma {:induction false} RunKeepsNameAndPrice(s: ProductState, ops: seq<Op>)
    ensures Run(s, ops).name == s.name && Run(s, ops).price == s.price
    decreases |ops|
  {
    if ops != [] {
      RunKeepsNameAndPrice(Apply(s, ops[0]), ops[1..]);
    }
  }

  /** Only an explicit `activate` turns an inactive product active again:
      restocking does not. */
  lemma {:induction false} OnlyActivateReactivates(s: ProductState, ops: seq<Op>)
    requires !s.active && Activate !in ops
    ensures !Run(s, ops).active
    decreases |ops|
  {
    if ops != [] {
      assert ops[0] != Activate;
      assert Activate !in ops[1..];
      OnlyActivateReactivates(Apply(s, ops[0]), ops[1..]);
    }
  }

  /** Without `set_quantity`, the stock never grows. */
  lemma {:induction false} StockOnlyGrowsBySetQuantity(s: ProductState, ops: seq<Op>)
    requires forall i :: 0 <= i < |ops| ==> !ops[i].SetQuantity?
    ensures Run(s, ops).quantity <= s.quantity
    decreases |ops|
  {
    if ops != [] {
      StockOnlyGrowsBySetQuantity(Apply(s, ops[0]), ops[1..]);
    }
  }

  /** A product object.  The name and the price are fixed at construction;
      the stock and the flag change in place. */
  class Product {
    const name: string
    const price: int
    var quantity: int
    var active: bool

    /** The object's attributes as a value. */
    function State(): ProductState
      reads this
    {
      ProductState(name, price, quantity, active)
    }

    ghost predicate Valid()
      reads this
    {
      Invariant(State())
    }

    /** Stores already validated arguments; `Create` does the validation. */
    constructor (name: string, price: int, quantity: int)
      requires Construct(name, price, quantity).Ok?
      ensures State() == Construct(name, price, quantity).value
      ensures Valid()
    {
      this.name := name;
      this.price := price;
      this.quantity := quantity;
      this.active := true;
    }

    method GetQuantity() returns (q: int)
      requires Valid()
      ensures q == quantity && q >= 0
    {
      q := quantity;
    }

    method SetQuantity(q: int) returns (r: Outcome<()>)
      requires Valid()
      modifies this
      ensures Step(r, State()) == SetQuantityStep(old(State()), q)
      ensures State() == Apply(old(State()), Op.SetQuantity(q))
      ensures Valid()
    {
      if q < 0 {
        return Fail(NegativeQuantity);
      }
      quantity := q;
      if quantity == 0 {
        Deactivate();
      }
      return Ok(());
    }

    method IsActive() returns (b: bool)
      ensures b == active
    {
      b := active;
    }

    method Activate()
      requires Valid()
      modifies this
      ensures State() == old(State()).(active := true) == Apply(old(State()), Op.Activate)
      ensures Valid()
    {
      active := true;
    }

    method Deactivate()
      requires Valid()
      modifies this
      ensures State() == old(State()).(active := false) == Apply(old(State()), Op.Deactivate)
      ensures Valid()
    {
      active := false;
    }

    method Show() returns (s: string)
      ensures s == Summary(State())
      ensures |s| > |name| && s[..|name|] == name
    {
      s := Summary(State());
    }

    method Buy(q: int) returns (r: Outcome<int>)
      requires Valid()
      modifies this
      ensures Step(r, State()) == BuyStep(old(State()), q)
      ensures State() == Apply(old(State()), Op.Buy(q))
      ensures Valid()
    {
      if q <= 0 {
        return Fail(NonPositivePurchase);
      }
      if q > quantity {
        return Fail(InsufficientStock);
      }
      var total := q * price;
      quantity := quantity - q;
      if quantity == 0 {
        Deactivate();
      }
      return Ok(total);
    }
  }

  /** `Product(name, price, quantity)`: validates, then builds an active
      product, or raises the first error and builds nothing. */
  method Create(name: string, price: int, quantity: int) returns (r: Outcome<Product>)
    ensures r.Fail? <==> Construct(name, price, quantity).Fail?
    ensures r.Fail? ==> r.error == Construct(name, price, quantity).error
    ensures r.Ok? ==> fresh(r.value) && r.value.Valid() &&
                      r.value.State() == Construct(name, price, quantity).value
  {
    if NameRejected(name) {
      StripEmptyIffBlank(name);
      return Fail(EmptyName);
    }
    if price < 0 {
      return Fail(NegativePrice);
    }
    if quantity < 0 {
      return Fail(NegativeStock);
    }
    var p := new Product(name, price, quantity);
    return Ok(p);
  }
}
