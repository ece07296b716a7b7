/** Order records, the status machine, and the in-memory repository. */
module OrderModel {
  import opened Wrappers

  /** A status string: one of the six known ones, or any other text. */
  datatype Status = Pending | Confirmed | Preparing | Delivering | Delivered | Cancelled | OtherStatus(text: string)

  datatype Delivery = Standard | Express | Scheduled | OtherDelivery(text: string)

  datatype OrderItem = OrderItem(foodId: int, foodName: string, unitPrice: real, quantity: int)

  datatype Order = Order(orderId: int, customerId: int, restaurantId: int, restaurantName: string,
                         items: seq<OrderItem>, totalPrice: real, delivery: Delivery, status: Status,
                         rating: real, createdAt: string)

  // ---------- the status machine ----------

  predicate IsValidTransition(from: Status, to: Status) {
    match from
    case Pending => to.Confirmed? || to.Cancelled?
    case Confirmed => to.Preparing? || to.Cancelled?
    case Preparing => to.Delivering?
    case Delivering => to.Delivered?
    case _ => false
  }

  /** The five stages of an order that is not cancelled. */
  const STAGES: seq<Status> := [Pending, Confirmed, Preparing, Delivering, Delivered]

  predicate CanRate(s: Status) { s.Delivered? }

  predicate IsValidRating(rating: real) { 1.0 <= rating <= 5.0 }

  // ---------- the repository ----------

  datatype Repo = Repo(connected: bool, failCreate: bool, nextOrderId: int, fixedCreatedAt: string, orders: seq<Order>)

  function FirstWithId(orders: seq<Order>, id: int): Option<Order> {
    if orders == [] then None
    else if orders[0].orderId == id then Some(orders[0])
    else FirstWithId(orders[1..], id)
  }

  function OwnedBy(orders: seq<Order>, customerId: int): seq<Order> {
    if orders == [] then []
    else (if orders[0].customerId == customerId then [orders[0]] else []) + OwnedBy(orders[1..], customerId)
  }

  /** Applies a change to the first order with that id. */
  function ChangeFirst(orders: seq<Order>, id: int, change: Order -> Order): seq<Order> {
    if orders == [] then []
    else if orders[0].orderId == id then [change(orders[0])] + orders[1..]
    else [orders[0]] + ChangeFirst(orders[1..], id, change)
  }

  function WithStatus(s: Status): Order -> Order { (o: Order) => o.(status := s) }

  function WithRating(r: real): Order -> Order { (o: Order) => o.(rating := r) }

  function Stored(r: Repo, o: Order): Order {
    o.(orderId := r.nextOrderId,
       status := if o.status == OtherStatus("") then Pending else o.status,
       createdAt := if o.createdAt == "" then r.fixedCreatedAt else o.createdAt)
  }

  function Created(r: Repo, o: Order): Repo {
    if r.failCreate then r else r.(orders := r.orders + [Stored(r, o)], nextOrderId := r.nextOrderId + 1)
  }

  class FakeOrderRepo {
    var connected: bool
    var failCreate: bool
    var nextOrderId: int
    var fixedCreatedAt: string
    var orders: seq<Order>

    constructor ()
      ensures State() == Repo(true, false, 1, "2026-04-12 10:00:00", [])
    {
      connected, failCreate, nextOrderId, fixedCreatedAt, orders := true, false, 1, "2026-04-12 10:00:00", [];
    }

    function State(): Repo
      reads this
    {
      Repo(connected, failCreate, nextOrderId, fixedCreatedAt, orders)
    }

    method CreateOrder(order: Order) returns (id: Option<int>)
      modifies this
      ensures State() == Created(old(State()), order)
      ensures id == if old(failCreate) then None else Some(old(nextOrderId))
    {
      if failCreate {
        return None;
      }
      var stored := order.(orderId := nextOrderId);
      nextOrderId := nextOrderId + 1;
      if stored.status == OtherStatus("") {
        stored := stored.(status := Pending);
      }
      if stored.createdAt == "" {
        stored := stored.(createdAt := fixedCreatedAt);
      }
      orders := orders + [stored];
      id := Some(stored.orderId);
    }

    method FindOrderById(orderId: int) returns (r: Option<Order>)
      ensures r == FirstWithId(orders, orderId)
    {
      for i := 0 to |orders|
        invariant FirstWithId(orders[i..], orderId) == FirstWithId(orders, orderId)
      {
        assert orders[i..][1..] == orders[i + 1..];
        if orders[i].orderId == orderId {
          return Some(orders[i]);
        }
      }
      r := None;
    }

    method ListOrdersByCustomer(customerId: int) returns (out: seq<Order>)
      ensures out == OwnedBy(orders, customerId)
    {
      out := [];
      for i := 0 to |orders|
        invariant out + OwnedBy(orders[i..], customerId) == OwnedBy(orders, customerId)
      {
        assert orders[i..][1..] == orders[i + 1..];
        if orders[i].customerId == customerId {
          out := out + [orders[i]];
        }
      }
    }

    method UpdateOrderStatus(orderId: int, newStatus: Status) returns (ok: bool)
      modifies this
      ensures State() == old(State()).(orders := ChangeFirst(old(orders), orderId, WithStatus(newStatus)))
      ensures ok == FirstWithId(old(orders), orderId).Some?
    {
      ok := ChangeOrder(orderId, WithStatus(newStatus));
    }

    method UpdateOrderRating(orderId: int, rating: real) returns (ok: bool)
      modifies this
      ensures State() == old(State()).(orders := ChangeFirst(old(orders), orderId, WithRating(rating)))
      ensures ok == FirstWithId(old(orders), orderId).Some?
    {
      ok := ChangeOrder(orderId, WithRating(rating));
    }

    /** The loop both updates share: changes the first match in place. */
    method ChangeOrder(orderId: int, change: Order -> Order) returns (ok: bool)
      modifies this`orders
      ensures orders == ChangeFirst(old(orders), orderId, change)
      ensures ok == FirstWithId(old(orders), orderId).Some?
    {
      hide ChangeFirst, FirstWithId;
      ghost var was := orders;
      assert was[0..] == was && was[..0] + was == was;
      for i := 0 to |orders|
        invariant orders == was
        invariant ChangeFirst(was, orderId, change) == was[..i] + ChangeFirst(was[i..], orderId, change)
        invariant FirstWithId(was[i..], orderId) == FirstWithId(was, orderId)
      {
        ChangeStep(was, i, orderId, change);
        if orders[i].orderId == orderId {
          orders := orders[i := change(orders[i])];
          return true;
        }
      }
      ChangeNothing(was, orderId, change);
      ok := false;
    }
  }

  lemma ChangeStep(s: seq<Order>, i: nat, id: int, change: Order -> Order)
    requires i < |s|
    ensures if s[i].orderId == id then
        s[..i] + ChangeFirst(s[i..], id, change) == s[i := change(s[i])] && FirstWithId(s[i..], id) == Some(s[i])
      else
        s[..i] + ChangeFirst(s[i..], id, change) == s[..i + 1] + ChangeFirst(s[i + 1..], id, change)
        && FirstWithId(s[i..], id) == FirstWithId(s[i + 1..], id)
  {
    assert s[i..][0] == s[i] && s[i..][1..] == s[i + 1..];
    if s[i].orderId == id {
      assert s[i := change(s[i])] == s[..i] + ([change(s[i])] + s[i + 1..]);
    } else {
      assert s[..i + 1] == s[..i] + [s[i]];
    }
  }

  lemma ChangeNothing(s: seq<Order>, id: int, change: Order -> Order)
    ensures s[..|s|] + ChangeFirst(s[|s|..], id, change) == s && FirstWithId(s[|s|..], id).None?
  {
    assert s[|s|..] == [];
  }
}

/** The order service over that repository. */
module OrderService {
  import opened Wrappers
  import opened OrderModel

  datatype NewItem = NewItem(foodId: int, quantity: int)

  datatype NewOrder = NewOrder(customerId: int, restaurantId: int, items: seq<NewItem>, delivery: Delivery)

  datatype Restaurant = Restaurant(id: int, name: string, kind: string)

  datatype Food = Food(id: int, name: string, price: real)

  /** The restaurant repository as one call sees it; the menu may hold empty entries. */
  datatype Restaurants = Restaurants(connected: bool, find: int -> Option<Restaurant>,
                                     foods: (int, string) -> seq<Option<Food>>)

  datatype ErrorCode = DbUnavailable | ValidationError | EmptyOrder | InvalidQuantity | RestaurantNotFound
                     | MenuItemMismatch | DbError | OrderNotFound | Forbidden | InvalidStatusTransition
                     | OrderAlreadyRated

  datatype Result<+T> = Success(value: T) | Failure(code: ErrorCode)

  // ---------- reference ----------

  /** The menu keeps the first entry for each id. */
  function MenuEntry(foods: seq<Option<Food>>, id: int): Option<Food> {
    if foods == [] then None
    else if foods[0].Some? && foods[0].value.id == id then foods[0]
    else MenuEntry(foods[1..], id)
  }

  /** The priced lines, unless some item is not on the menu. */
  function PricedLines(items: seq<NewItem>, foods: seq<Option<Food>>): Option<seq<OrderItem>> {
    if items == [] then Some([])
    else
      var food, rest := MenuEntry(foods, items[0].foodId), PricedLines(items[1..], foods);
      if food.None? || rest.None? then None
      else Some([OrderItem(food.value.id, food.value.name, food.value.price, items[0].quantity)] + rest.value)
  }

  function Total(lines: seq<OrderItem>): real {
    if lines == [] then 0.0
    else Total(lines[..|lines| - 1]) + lines[|lines| - 1].unitPrice * lines[|lines| - 1].quantity as real
  }

  function Draft(q: NewOrder, rest: Restaurant, lines: seq<OrderItem>): Order {
    Order(0, q.customerId, rest.id, rest.name, lines, Total(lines), q.delivery, Pending, 0.0, "")
  }

  /** Why a request is refused before anything is stored, or the order to store. */
  function Checked(repo: Repo, q: NewOrder, rs: Restaurants): Result<Order> {
    if !repo.connected || !rs.connected then Failure(DbUnavailable)
    else if q.delivery.OtherDelivery? then Failure(ValidationError)
    else if q.items == [] then Failure(EmptyOrder)
    else if exists i :: 0 <= i < |q.items| && q.items[i].quantity <= 0 then Failure(InvalidQuantity)
    else
      match rs.find(q.restaurantId)
      case None => Failure(RestaurantNotFound)
      case Some(rest) =>
        match PricedLines(q.items, rs.foods(rest.id, rest.kind))
        case None => Failure(MenuItemMismatch)
        case Some(lines) => Success(Draft(q, rest, lines))
  }

  datatype Call =
    | Create(request: NewOrder, restaurants: Restaurants)
    | Update(orderId: int, newStatus: Status, isAdmin: bool)
    | Rate(orderId: int, rating: real, userId: int, isAdmin: bool)
    | SetConnected(on: bool)
    | SetFailCreate(on: bool)
    | SetCreatedAt(text: string)

  function UpdateCheck(repo: Repo, id: int, newStatus: Status, isAdmin: bool): Result<Order> {
    if !repo.connected then Failure(DbUnavailable)
    else if !isAdmin then Failure(Forbidden)
    else
      match FirstWithId(repo.orders, id)
      case None => Failure(OrderNotFound)
      case Some(o) => if IsValidTransition(o.status, newStatus) then Success(o) else Failure(InvalidStatusTransition)
  }

  function RateCheck(repo: Repo, id: int, rating: real, userId: int, isAdmin: bool): Result<Order> {
    if !repo.connected then Failure(DbUnavailable)
    else
      match FirstWithId(repo.orders, id)
      case None => Failure(OrderNotFound)
      case Some(o) =>
        if !isAdmin && o.customerId != userId then Failure(OrderNotFound)
        else if !CanRate(o.status) then Failure(InvalidStatusTransition)
        else if o.rating > 0.0 then Failure(OrderAlreadyRated)
        else if !IsValidRating(rating) then Failure(ValidationError)
        else Success(o)
  }

  /** The repository after a call. */
  function After(repo: Repo, c: Call): Repo {
    match c
    case Create(q, rs) =>
      var checked := Checked(repo, q, rs);
      if checked.Success? then Created(repo, checked.value) else repo
    case Update(id, s, isAdmin) =>
      if UpdateCheck(repo, id, s, isAdmin).Success?
      then repo.(orders := ChangeFirst(repo.orders, id, WithStatus(s))) else repo
    case Rate(id, r, u, isAdmin) =>
      if RateCheck(repo, id, r, u, isAdmin).Success?
      then repo.(orders := ChangeFirst(repo.orders, id, WithRating(r))) else repo
    case SetConnected(on) => repo.(connected := on)
    case SetFailCreate(on) => repo.(failCreate := on)
    case SetCreatedAt(t) => repo.(fixedCreatedAt := t)
  }

  function Get(repo: Repo, id: int, userId: int, isAdmin: bool): Result<Order> {
    if !repo.connected then Failure(DbUnavailable)
    else
      match FirstWithId(repo.orders, id)
      case None => Failure(OrderNotFound)
      case Some(o) => if !isAdmin && o.customerId != userId then Failure(OrderNotFound) else Success(o)
  }

  function ListFor(repo: Repo, userId: int, isAdmin: bool): Result<seq<Order>> {
    if !repo.connected then Failure(DbUnavailable)
    else Success(if isAdmin then repo.orders else OwnedBy(repo.orders, userId))
  }

  /** What a stored order looks like on re-reading, when it is found. */
  function Reread(repo: Repo, id: int, otherwise: Order): Order {
    match FirstWithId(repo.orders, id) case Some(o) => o case None => otherwise
  }

  // ---------- the code ----------

  lemma PricedStep(items: seq<NewItem>, i: nat, foods: seq<Option<Food>>)
    requires i < |items|
    ensures var food, rest := MenuEntry(foods, items[i].foodId), PricedLines(items[i + 1..], foods);
      PricedLines(items[i..], foods)
      == if food.None? || rest.None? then None
         else Some([OrderItem(food.value.id, food.value.name, food.value.price, items[i].quantity)] + rest.value)
  {
    hide MenuEntry;
    assert items[i..][0] == items[i] && items[i..][1..] == items[i + 1..];
  }

  lemma TotalStep(lines: seq<OrderItem>, line: OrderItem)
    ensures Total(lines + [line]) == Total(lines) + line.unitPrice * line.quantity as real
  {
    assert (lines + [line])[..|lines|] == lines;
  }

  class Service {
    const repo: FakeOrderRepo

    constructor (repo: FakeOrderRepo)
      ensures this.repo == repo
    {
      this.repo := repo;
    }

    method CreateOrder(q: NewOrder, rs: Restaurants) returns (r: Result<Order>)
      modifies repo
      ensures repo.State() == After(old(repo.State()), Create(q, rs))
      ensures var checked := Checked(old(repo.State()), q, rs);
        r == if checked.Failure? then checked
             else if old(repo.failCreate) then Failure(DbError)
             else Success(Reread(repo.State(), old(repo.nextOrderId),
                                 checked.value.(orderId := old(repo.nextOrderId))))
    {
      if !repo.connected || !rs.connected {
        return Failure(DbUnavailable);
      }
      if q.delivery.OtherDelivery? {
        return Failure(ValidationError);
      }
      if |q.items| == 0 {
        return Failure(EmptyOrder);
      }
      for i := 0 to |q.items|
        invariant forall j :: 0 <= j < i ==> q.items[j].quantity > 0
        invariant repo.State() == old(repo.State())
      {
        if q.items[i].quantity <= 0 {
          return Failure(InvalidQuantity);
        }
      }
      var found := rs.find(q.restaurantId);
      if found.None? {
        return Failure(RestaurantNotFound);
      }
      var lines, total, ok := PriceLines(q.items, rs.foods(found.value.id, found.value.kind));
      if !ok {
        return Failure(MenuItemMismatch);
      }
      var dto := Order(0, q.customerId, found.value.id, found.value.name, lines, total, q.delivery, Pending, 0.0, "");
      var newId := repo.CreateOrder(dto);
      if newId.None? {
        return Failure(DbError);
      }
      var persisted := repo.FindOrderById(newId.value);
      if persisted.Some? {
        return Success(persisted.value);
      }
      r := Success(dto.(orderId := newId.value));
    }

    /** Indexes the menu, then prices the items in order. */
    static method PriceLines(items: seq<NewItem>, foods: seq<Option<Food>>)
      returns (lines: seq<OrderItem>, total: real, ok: bool)
      ensures ok <==> PricedLines(items, foods).Some?
      ensures ok ==> lines == PricedLines(items, foods).value && total == Total(lines)
    {
      var menu := IndexMenu(foods);
      lines, total, ok := [], 0.0, true;
      assert items[0..] == items;
      for i := 0 to |items|
        invariant total == Total(lines)
        invariant var all, rest := PricedLines(items, foods), PricedLines(items[i..], foods);
          if rest.None? then all.None? else all.Some? && all.value == lines + rest.value
      {
        hide PricedLines, MenuEntry, Total;
        PricedStep(items, i, foods);
        if items[i].foodId !in menu {
          ok := false;
          return;
        }
        var food := menu[items[i].foodId];
        var line := OrderItem(food.id, food.name, food.price, items[i].quantity);
        total := total + line.unitPrice * line.quantity as real;
        TotalStep(lines, line);
        lines := lines + [line];
      }
      assert items[|items|..] == [];
    }

    static method IndexMenu(foods: seq<Option<Food>>) returns (menu: map<int, Food>)
      ensures forall id :: id in menu <==> MenuEntry(foods, id).Some?
      ensures forall id :: id in menu ==> MenuEntry(foods, id) == Some(menu[id])
    {
      menu := map[];
      for i := 0 to |foods|
        invariant forall id :: id in menu ==> MenuEntry(foods, id) == Some(menu[id])
        invariant forall id :: id !in menu ==> MenuEntry(foods, id) == MenuEntry(foods[i..], id)
      {
        assert foods[i..][0] == foods[i] && foods[i..][1..] == foods[i + 1..];
        if foods[i].Some? && foods[i].value.id !in menu {
          menu := menu[foods[i].value.id := foods[i].value];
        }
      }
      assert foods[|foods|..] == [];
    }

    method GetOrder(orderId: int, userId: int, isAdmin: bool) returns (r: Result<Order>)
      ensures r == Get(repo.State(), orderId, userId, isAdmin)
    {
      if !repo.connected {
        return Failure(DbUnavailable);
      }
      var found := repo.FindOrderById(orderId);
      if found.None? || (!isAdmin && found.value.customerId != userId) {
        return Failure(OrderNotFound);
      }
      r := Success(found.value);
    }

    method ListOrders(userId: int, isAdmin: bool) returns (r: Result<seq<Order>>)
      ensures r == ListFor(repo.State(), userId, isAdmin)
    {
      if !repo.connected {
        return Failure(DbUnavailable);
      }
      if isAdmin {
        return Success(repo.orders);
      }
      var mine := repo.ListOrdersByCustomer(userId);
      r := Success(mine);
    }

    method UpdateStatus(orderId: int, newStatus: Status, isAdmin: bool) returns (r: Result<Order>)
      modifies repo
      ensures repo.State() == After(old(repo.State()), Update(orderId, newStatus, isAdmin))
      ensures var checked := UpdateCheck(old(repo.State()), orderId, newStatus, isAdmin);
        r == if checked.Failure? then checked
             else Success(Reread(repo.State(), orderId, checked.value.(status := newStatus)))
    {
      if !repo.connected {
        return Failure(DbUnavailable);
      }
      if !isAdmin {
        return Failure(Forbidden);
      }
      var found := repo.FindOrderById(orderId);
      if found.None? {
        return Failure(OrderNotFound);
      }
      if !IsValidTransition(found.value.status, newStatus) {
        return Failure(InvalidStatusTransition);
      }
      var ok := repo.UpdateOrderStatus(orderId, newStatus);
      if !ok {
        return Failure(DbError);
      }
      var updated := repo.FindOrderById(orderId);
      if updated.Some? {
        return Success(updated.value);
      }
      r := Success(found.value.(status := newStatus));
    }

    method RateOrder(orderId: int, rating: real, userId: int, isAdmin: bool) returns (r: Result<Order>)
      modifies repo
      ensures repo.State() == After(old(repo.State()), Rate(orderId, rating, userId, isAdmin))
      ensures var checked := RateCheck(old(repo.State()), orderId, rating, userId, isAdmin);
        r == if checked.Failure? then checked
             else Success(Reread(repo.State(), orderId, checked.value.(rating := rating)))
    {
      if !repo.connected {
        return Failure(DbUnavailable);
      }
      var found := repo.FindOrderById(orderId);
      if found.None? || (!isAdmin && found.value.customerId != userId) {
        return Failure(OrderNotFound);
      }
      if !CanRate(found.value.status) {
        return Failure(InvalidStatusTransition);
      }
      if found.value.rating > 0.0 {
        return Failure(OrderAlreadyRated);
      }
      if !IsValidRating(rating) {
        return Failure(ValidationError);
      }
      var ok := repo.UpdateOrderRating(orderId, rating);
      if !ok {
        return Failure(DbError);
      }
      var updated := repo.FindOrderById(orderId);
      if updated.Some? {
        return Success(updated.value);
      }
      r := Success(found.value.(rating := rating));
    }
  }
}

/** What every run of service calls keeps. */
module OrderProperties {
  import opened Wrappers
  import opened Sorting
  import opened OrderModel
  import opened OrderService

  const EMPTY: Repo := Repo(true, false, 1, "2026-04-12 10:00:00", [])

  function RunCalls(calls: seq<Call>): Repo {
    if calls == [] then EMPTY else After(RunCalls(calls[..|calls| - 1]), calls[|calls| - 1])
  }

  // ---------- orders are numbered from 1 in creation order ----------

  predicate NumberedFrom(orders: seq<Order>, k: int) {
    forall i :: 0 <= i < |orders| ==> orders[i].orderId == k + i
  }

  predicate Numbered(repo: Repo) {
    NumberedFrom(repo.orders, 1) && repo.nextOrderId == |repo.orders| + 1
  }

  lemma {:induction false} FindNumbered(orders: seq<Order>, k: int, id: int)
    requires NumberedFrom(orders, k)
    ensures FirstWithId(orders, id) == if k <= id < k + |orders| then Some(orders[id - k]) else None
  {
    if orders != [] {
      FindNumbered(orders[1..], k + 1, id);
    }
  }

  lemma {:induction false} ChangeNumbered(orders: seq<Order>, k: int, id: int, change: Order -> Order)
    requires NumberedFrom(orders, k)
    ensures ChangeFirst(orders, id, change)
         == if k <= id < k + |orders| then orders[id - k := change(orders[id - k])] else orders
  {
    if orders != [] {
      ChangeNumbered(orders[1..], k + 1, id, change);
    }
  }

  // ---------- one call ----------

  /** Everything about an order except its status and rating. */
  predicate SameRecord(o: Order, o': Order) {
    o' == o.(status := o'.status, rating := o'.rating)
  }

  /** What a call may do to an existing order: nothing, one legal transition, or its one rating. */
  predicate Evolves(o: Order, o': Order) {
    SameRecord(o, o')
    && (o' == o
        || (o'.rating == o.rating && IsValidTransition(o.status, o'.status))
        || (o'.status == o.status && CanRate(o.status) && o.rating <= 0.0 && IsValidRating(o'.rating)))
  }

  predicate Terminal(s: Status) { s.Delivered? || s.Cancelled? }

  /** The order that a successful creation adds. */
  predicate CreatedBy(repo: Repo, c: Call, o: Order) {
    c.Create? && Checked(repo, c.request, c.restaurants).Success?
    && o == Stored(repo, Checked(repo, c.request, c.restaurants).value)
  }

  /** What a call may do to the orders: change at most one of them, legally, and add at most one at the end. */
  predicate StepsTo(repo: Repo, c: Call, repo': Repo) {
    |repo.orders| <= |repo'.orders| <= |repo.orders| + 1
    && (forall i :: 0 <= i < |repo.orders| ==> Evolves(repo.orders[i], repo'.orders[i]))
    && (forall i, j :: 0 <= i < j < |repo.orders| ==>
          repo'.orders[i] == repo.orders[i] || repo'.orders[j] == repo.orders[j])
    && (|repo'.orders| > |repo.orders| ==> CreatedBy(repo, c, repo'.orders[|repo.orders|]))
  }

  lemma StepEvolves(repo: Repo, c: Call)
    requires Numbered(repo)
    ensures Numbered(After(repo, c)) && StepsTo(repo, c, After(repo, c))
  {
    match c
    case Create(_, _) => CreateEvolves(repo, c);
    case Update(_, _, _) => UpdateEvolves(repo, c);
    case Rate(_, _, _, _) => RateEvolves(repo, c);
    case _ => hide Numbered;
  }

  lemma CreateEvolves(repo: Repo, c: Call)
    requires Numbered(repo) && c.Create?
    ensures Numbered(After(repo, c)) && StepsTo(repo, c, After(repo, c))
  {
    hide Checked, IsValidTransition;
  }

  lemma UpdateEvolves(repo: Repo, c: Call)
    requires Numbered(repo) && c.Update?
    ensures Numbered(After(repo, c)) && StepsTo(repo, c, After(repo, c))
  {
    hide Checked, IsValidTransition, FirstWithId, ChangeFirst, CreatedBy;
    FindNumbered(repo.orders, 1, c.orderId);
    ChangeNumbered(repo.orders, 1, c.orderId, WithStatus(c.newStatus));
  }

  lemma RateEvolves(repo: Repo, c: Call)
    requires Numbered(repo) && c.Rate?
    ensures Numbered(After(repo, c)) && StepsTo(repo, c, After(repo, c))
  {
    hide Checked, IsValidTransition, FirstWithId, ChangeFirst, CreatedBy;
    FindNumbered(repo.orders, 1, c.orderId);
    ChangeNumbered(repo.orders, 1, c.orderId, WithRating(c.rating));
  }

  lemma {:induction false} AlwaysNumbered(calls: seq<Call>)
    ensures Numbered(RunCalls(calls))
  {
    if calls != [] {
      AlwaysNumbered(calls[..|calls| - 1]);
      StepEvolves(RunCalls(calls[..|calls| - 1]), calls[|calls| - 1]);
    }
  }

  // ---------- the status history ----------

  /** The statuses that order number `i` has had, oldest first, without repetition. */
  function StatusTrail(calls: seq<Call>, i: nat): seq<Status> {
    if calls == [] then []
    else
      var before := StatusTrail(calls[..|calls| - 1], i);
      var repo := RunCalls(calls);
      if i >= |repo.orders| || (before != [] && before[|before| - 1] == repo.orders[i].status) then before
      else before + [repo.orders[i].status]
  }

  predicate IsPath(trail: seq<Status>) {
    (trail != [] ==> trail[0].Pending?)
    && forall j :: 0 < j < |trail| ==> IsValidTransition(trail[j - 1], trail[j])
  }

  /** A non-empty part of the stages from the first on, or a cancellation of a pending or confirmed order. */
  predicate IsLifeOrCancelled(trail: seq<Status>) {
    (trail != [] && trail <= STAGES)
    || trail == [Pending, Cancelled]
    || trail == [Pending, Confirmed, Cancelled]
  }

  /** The transitions are the steps from one stage to the next and the cancellations of the first two. */
  lemma TransitionIff(from: Status, to: Status)
    ensures IsValidTransition(from, to) <==>
              (exists j :: 0 <= j < 4 && from == STAGES[j] && to == STAGES[j + 1])
              || (to.Cancelled? && (from.Pending? || from.Confirmed?))
  {
    assert STAGES[0].Pending? && STAGES[1].Confirmed? && STAGES[2].Preparing? && STAGES[3].Delivering?;
    assert STAGES[4].Delivered?;
  }

  lemma PathPrefix(trail: seq<Status>, s: Status)
    requires trail != []
    ensures IsPath(trail + [s]) <==> IsPath(trail) && IsValidTransition(trail[|trail| - 1], s)
  {
    var t, n := trail + [s], |trail|;
    assert t[..n] == trail;
    if IsPath(t) {
      forall j | 0 < j < n
        ensures IsValidTransition(trail[j - 1], trail[j])
      {
        assert IsValidTransition(t[j - 1], t[j]);
      }
      assert IsValidTransition(t[n - 1], t[n]);
    }
    if IsPath(trail) && IsValidTransition(trail[n - 1], s) {
      forall j | 0 < j < |t|
        ensures IsValidTransition(t[j - 1], t[j])
      {
        if j < n {
          assert IsValidTransition(trail[j - 1], trail[j]);
        }
      }
    }
  }

  lemma LifePrefix(trail: seq<Status>, s: Status)
    requires trail != []
    ensures IsLifeOrCancelled(trail + [s]) <==> IsLifeOrCancelled(trail) && IsValidTransition(trail[|trail| - 1], s)
  {
    var t, n := trail + [s], |trail|;
    assert t[..n] == trail && t[n] == s;
    assert trail <= STAGES && n < 5 ==> (t <= STAGES <==> s == STAGES[n]);
    if IsLifeOrCancelled(t) || IsLifeOrCancelled(trail) {
      assert n <= 5;
    }
  }

  /** A trail of statuses is a path from Pending exactly when it is one of these. */
  lemma {:induction false} PathIff(trail: seq<Status>)
    requires trail != []
    ensures IsPath(trail) <==> IsLifeOrCancelled(trail)
  {
    var n := |trail| - 1;
    if n > 0 {
      PathIff(trail[..n]);
      PathPrefix(trail[..n], trail[n]);
      LifePrefix(trail[..n], trail[n]);
      assert trail[..n] + [trail[n]] == trail;
    } else {
      assert trail == [trail[0]] && trail[0] == Pending ==> trail <= STAGES;
    }
  }

  /** Every order's history is a beginning of Pending, Confirmed, Preparing, Delivering, Delivered, or ends with a
      cancellation of the pending or confirmed order, and its last status is the order's. */
  lemma {:induction false} StatusHistory(calls: seq<Call>, i: nat)
    ensures var trail := StatusTrail(calls, i);
      if i < |RunCalls(calls).orders|
      then IsLifeOrCancelled(trail) && trail[|trail| - 1] == RunCalls(calls).orders[i].status
      else trail == []
  {
    if calls != [] {
      hide After, CreatedBy, IsLifeOrCancelled, IsValidTransition;
      var init, c := calls[..|calls| - 1], calls[|calls| - 1];
      AlwaysNumbered(init);
      StepEvolves(RunCalls(init), c);
      StatusHistory(init, i);
      assert RunCalls(calls) == After(RunCalls(init), c);
      if i < |RunCalls(init).orders| {
        var before := StatusTrail(init, i);
        NotEmptyLife(before);
        LifePrefix(before, RunCalls(calls).orders[i].status);
      } else if i < |RunCalls(calls).orders| {
        CreatedFresh(RunCalls(init), c, RunCalls(calls).orders[i]);
        PathIff([Pending]);
      }
    }
  }

  lemma NotEmptyLife(trail: seq<Status>)
    requires IsLifeOrCancelled(trail)
    ensures 1 <= |trail| <= 5
  {
  }

  /** An update is accepted exactly from an administrator, for an order that is there, when it is the next stage or
      cancels a pending or confirmed order. */
  lemma UpdateAcceptedIff(repo: Repo, id: int, newStatus: Status, isAdmin: bool)
    ensures var found := FirstWithId(repo.orders, id);
      UpdateCheck(repo, id, newStatus, isAdmin).Success? <==>
        repo.connected && isAdmin && found.Some?
        && ((exists j :: 0 <= j < 4 && found.value.status == STAGES[j] && newStatus == STAGES[j + 1])
            || (newStatus.Cancelled? && (found.value.status.Pending? || found.value.status.Confirmed?)))
  {
    var found := FirstWithId(repo.orders, id);
    if found.Some? {
      TransitionIff(found.value.status, newStatus);
    }
  }

  /** How one call changes the status of order number `i`. */
  lemma StatusStep(repo: Repo, c: Call, i: nat)
    requires Numbered(repo) && i < |repo.orders|
    ensures i < |After(repo, c).orders|
    ensures var o, o' := repo.orders[i], After(repo, c).orders[i];
      if c.Update? && c.orderId == i + 1 && UpdateCheck(repo, c.orderId, c.newStatus, c.isAdmin).Success?
      then o' == o.(status := c.newStatus) else o'.status == o.status
  {
    hide Checked, IsValidTransition;
    if c.Rate? {
      FindNumbered(repo.orders, 1, c.orderId);
      ChangeNumbered(repo.orders, 1, c.orderId, WithRating(c.rating));
    } else if c.Update? {
      FindNumbered(repo.orders, 1, c.orderId);
      ChangeNumbered(repo.orders, 1, c.orderId, WithStatus(c.newStatus));
    }
  }

  // ---------- the rating ----------

  /** The ratings that calls have written to order number `i`. */
  function RatingTrail(calls: seq<Call>, i: nat): seq<real> {
    if calls == [] then []
    else
      var init, c := calls[..|calls| - 1], calls[|calls| - 1];
      RatingTrail(init, i)
      + (if c.Rate? && c.orderId == i + 1
            && RateCheck(RunCalls(init), c.orderId, c.rating, c.userId, c.isAdmin).Success?
         then [c.rating] else [])
  }

  lemma CreatedFresh(repo: Repo, c: Call, o: Order)
    requires CreatedBy(repo, c, o)
    ensures o.status.Pending? && o.rating == 0.0
  {
  }

  /** How one call changes the rating of order number `i`. */
  lemma RatingStep(repo: Repo, c: Call, i: nat)
    requires Numbered(repo) && i < |repo.orders|
    ensures i < |After(repo, c).orders|
    ensures var o, o' := repo.orders[i], After(repo, c).orders[i];
      if c.Rate? && c.orderId == i + 1 && RateCheck(repo, c.orderId, c.rating, c.userId, c.isAdmin).Success?
      then o.rating <= 0.0 && o.status.Delivered? && 1.0 <= c.rating <= 5.0 && o' == o.(rating := c.rating)
      else o'.rating == o.rating && (o.status.Delivered? ==> o'.status.Delivered?)
  {
    hide Checked;
    if c.Rate? {
      FindNumbered(repo.orders, 1, c.orderId);
      ChangeNumbered(repo.orders, 1, c.orderId, WithRating(c.rating));
    } else if c.Update? {
      FindNumbered(repo.orders, 1, c.orderId);
      ChangeNumbered(repo.orders, 1, c.orderId, WithStatus(c.newStatus));
    }
  }

  /** A rating is written at most once, within [1, 5], and only to an order that is and stays Delivered. */
  lemma {:induction false} RatedOnce(calls: seq<Call>, i: nat)
    ensures var trail, repo := RatingTrail(calls, i), RunCalls(calls);
      |trail| <= 1 && (forall r :: r in trail ==> 1.0 <= r <= 5.0)
      && (i < |repo.orders| ==> repo.orders[i].rating == if trail == [] then 0.0 else trail[0])
      && (trail != [] ==> i < |repo.orders| && repo.orders[i].status.Delivered?)
  {
    if calls != [] {
      hide After, CreatedBy, Evolves, IsValidRating, FirstWithId, NumberedFrom;
      var init, c := calls[..|calls| - 1], calls[|calls| - 1];
      var repo := RunCalls(init);
      RatedOnce(init, i);
      AlwaysNumbered(init);
      StepEvolves(repo, c);
      var written := RatingTrail(init, i);
      assert written + [] == written && (written != [] ==> written[0] in written);
      if i < |repo.orders| {
        RatingStep(repo, c, i);
      } else {
        NotThereToRate(repo, c, i);
      }
    }
  }

  /** A rating is accepted exactly from the owner or an administrator, on a delivered order without a rating. */
  lemma RateAcceptedIff(repo: Repo, id: int, rating: real, userId: int, isAdmin: bool)
    ensures var found := FirstWithId(repo.orders, id);
      RateCheck(repo, id, rating, userId, isAdmin).Success? <==>
        repo.connected && found.Some? && (isAdmin || found.value.customerId == userId)
        && found.value.status.Delivered? && found.value.rating <= 0.0 && 1.0 <= rating <= 5.0
  {
  }

  lemma NotThereToRate(repo: Repo, c: Call, i: nat)
    requires Numbered(repo) && i >= |repo.orders|
    ensures c.Rate? && c.orderId == i + 1 ==> RateCheck(repo, c.orderId, c.rating, c.userId, c.isAdmin).Failure?
    ensures i < |After(repo, c).orders| ==> After(repo, c).orders[i].rating == 0.0
  {
    hide After, CreatedBy, Evolves, FirstWithId, NumberedFrom, CanRate;
    FindNumbered(repo.orders, 1, i + 1);
    StepEvolves(repo, c);
    if i < |After(repo, c).orders| {
      CreatedFresh(repo, c, After(repo, c).orders[i]);
    }
  }

  // ---------- what never changes ----------

  /** From any point of a run on, an order keeps its owner, restaurant, lines, total and creation time, and a terminal
      status is final. */
  lemma {:induction false} RecordsAreFrozen(calls: seq<Call>, n: nat, i: nat)
    requires n <= |calls| && i < |RunCalls(calls[..n]).orders|
    ensures i < |RunCalls(calls).orders|
    ensures var o, o' := RunCalls(calls[..n]).orders[i], RunCalls(calls).orders[i];
      SameRecord(o, o') && (Terminal(o.status) ==> o'.status == o.status)
    decreases |calls|
  {
    if n == |calls| {
      assert calls[..n] == calls;
    } else {
      hide After;
      var init := calls[..|calls| - 1];
      assert init[..n] == calls[..n];
      RecordsAreFrozen(init, n, i);
      AlwaysNumbered(init);
      StepEvolves(RunCalls(init), calls[|calls| - 1]);
    }
  }

  /** Call `n` made order number `i`: its owner, lines and total are still those of the request it checked. */
  predicate MadeBy(calls: seq<Call>, n: nat, i: nat) {
    n < |calls| && i < |RunCalls(calls).orders|
    && var before := RunCalls(calls[..n]);
    |before.orders| == i && calls[n].Create?
    && var checked := Checked(before, calls[n].request, calls[n].restaurants);
    checked.Success? && SameRecord(Stored(before, checked.value), RunCalls(calls).orders[i])
  }

  lemma {:induction false} OrderOrigin(calls: seq<Call>, i: nat)
    requires i < |RunCalls(calls).orders|
    ensures exists n: nat :: MadeBy(calls, n, i)
  {
    hide Checked, Evolves;
    var init, c := calls[..|calls| - 1], calls[|calls| - 1];
    var before := RunCalls(init);
    AlwaysNumbered(init);
    StepEvolves(before, c);
    if i < |before.orders| {
      OrderOrigin(init, i);
      var n: nat :| MadeBy(init, n, i);
      assert calls[..n] == init[..n];
      EvolvesKeepsRecord(before.orders[i], RunCalls(calls).orders[i]);
      assert MadeBy(calls, n, i);
    } else {
      assert calls[..|calls| - 1] == init;
      assert MadeBy(calls, |calls| - 1, i);
    }
  }

  lemma EvolvesKeepsRecord(o: Order, o': Order)
    requires Evolves(o, o')
    ensures SameRecord(o, o')
  {
  }

  function LineCosts(lines: seq<OrderItem>): (costs: seq<real>)
    ensures |costs| == |lines|
    ensures forall i :: 0 <= i < |lines| ==> costs[i] == lines[i].unitPrice * lines[i].quantity as real
  {
    seq(|lines|, i requires 0 <= i < |lines| => lines[i].unitPrice * lines[i].quantity as real)
  }

  lemma CostsOfInit(lines: seq<OrderItem>)
    requires lines != []
    ensures LineCosts(lines)[..|lines| - 1] == LineCosts(lines[..|lines| - 1])
  {
    var n := |lines| - 1;
    forall i | 0 <= i < n
      ensures LineCosts(lines)[i] == LineCosts(lines[..n])[i]
    {
      assert lines[..n][i] == lines[i];
    }
  }

  lemma {:induction false} TotalIsSum(lines: seq<OrderItem>)
    ensures Total(lines) == Sum(LineCosts(lines))
  {
    if lines != [] {
      hide Sum;
      TotalIsSum(lines[..|lines| - 1]);
      CostsOfInit(lines);
      SumSplitLast(LineCosts(lines));
    } else {
      assert LineCosts([]) == [];
    }
  }

  /** A stored request has only positive quantities and its total is the sum of menu price times quantity. */
  lemma CheckedOrder(repo: Repo, q: NewOrder, rs: Restaurants)
    requires Checked(repo, q, rs).Success?
    ensures var o := Checked(repo, q, rs).value;
      var menu := rs.foods(rs.find(q.restaurantId).value.id, rs.find(q.restaurantId).value.kind);
      o.customerId == q.customerId && o.status.Pending? && o.rating == 0.0 && o.totalPrice == Sum(LineCosts(o.items))
      && o.restaurantId == rs.find(q.restaurantId).value.id && o.restaurantName == rs.find(q.restaurantId).value.name
      && o.delivery == q.delivery && o.createdAt == ""
      && |o.items| == |q.items| > 0
      && forall i :: 0 <= i < |o.items| ==>
           o.items[i].quantity == q.items[i].quantity > 0
           && MenuEntry(menu, q.items[i].foodId).Some?
           && o.items[i].unitPrice == MenuEntry(menu, q.items[i].foodId).value.price
           && o.items[i].foodId == q.items[i].foodId
           && o.items[i].foodName == MenuEntry(menu, q.items[i].foodId).value.name
  {
    TotalIsSum(Checked(repo, q, rs).value.items);
    var menu := rs.foods(rs.find(q.restaurantId).value.id, rs.find(q.restaurantId).value.kind);
    LinesMatch(q.items, menu);
  }

  lemma {:induction false} MenuEntryHasId(foods: seq<Option<Food>>, id: int)
    ensures MenuEntry(foods, id).Some? ==> MenuEntry(foods, id).value.id == id
  {
    if foods != [] {
      MenuEntryHasId(foods[1..], id);
    }
  }

  lemma {:induction false} LinesMatch(items: seq<NewItem>, foods: seq<Option<Food>>)
    ensures PricedLines(items, foods).Some? <==>
              forall i :: 0 <= i < |items| ==> MenuEntry(foods, items[i].foodId).Some?
    ensures PricedLines(items, foods).Some? ==>
              var lines := PricedLines(items, foods).value;
              |lines| == |items| && forall i :: 0 <= i < |items| ==>
                lines[i].quantity == items[i].quantity && MenuEntry(foods, items[i].foodId).Some?
                && lines[i].unitPrice == MenuEntry(foods, items[i].foodId).value.price
                && lines[i].foodId == items[i].foodId
                && lines[i].foodName == MenuEntry(foods, items[i].foodId).value.name
  {
    if items != [] {
      MenuEntryHasId(foods, items[0].foodId);
      LinesMatch(items[1..], foods);
      assert forall i :: 1 <= i < |items| ==> items[i] == items[1..][i - 1];
    }
  }

  /** A request is accepted exactly when both databases answer, the delivery option is known, there is an item, every
      quantity is positive, the restaurant exists and every item is on its menu. */
  lemma AcceptedIff(repo: Repo, q: NewOrder, rs: Restaurants)
    ensures Checked(repo, q, rs).Success? <==>
      repo.connected && rs.connected && !q.delivery.OtherDelivery? && q.items != []
      && (forall i :: 0 <= i < |q.items| ==> q.items[i].quantity > 0)
      && rs.find(q.restaurantId).Some?
      && var rest := rs.find(q.restaurantId).value;
         forall i :: 0 <= i < |q.items| ==> MenuEntry(rs.foods(rest.id, rest.kind), q.items[i].foodId).Some?
  {
    if rs.find(q.restaurantId).Some? {
      var rest := rs.find(q.restaurantId).value;
      LinesMatch(q.items, rs.foods(rest.id, rest.kind));
    }
  }

  // ---------- one customer learns nothing about another's orders ----------

  /** Two repositories that differ, for a customer, only in other people's orders. */
  predicate LooksTheSame(r: Repo, s: Repo, userId: int) {
    r.connected == s.connected && OwnedBy(r.orders, userId) == OwnedBy(s.orders, userId)
  }

  lemma {:induction false} OwnedHasId(orders: seq<Order>, k: int, id: int, userId: int)
    requires NumberedFrom(orders, k)
    ensures FirstWithId(OwnedBy(orders, userId), id)
         == match FirstWithId(orders, id)
            case Some(o) => if o.customerId == userId then Some(o) else None
            case None => None
  {
    if orders != [] {
      var rest := OwnedBy(orders[1..], userId);
      OwnedHasId(orders[1..], k + 1, id, userId);
      FindNumbered(orders[1..], k + 1, id);
      if orders[0].customerId == userId {
        assert ([orders[0]] + rest)[1..] == rest;
      } else {
        assert [] + rest == rest;
      }
    }
  }

  lemma {:induction false} OwnedMembers(orders: seq<Order>, userId: int)
    ensures forall o :: o in OwnedBy(orders, userId) <==> o in orders && o.customerId == userId
  {
    if orders != [] {
      OwnedMembers(orders[1..], userId);
      assert orders == [orders[0]] + orders[1..];
    }
  }

  /** What a caller is listed is what he can read: every order for an administrator, his own for anybody else. */
  lemma ListedIffReadable(repo: Repo, userId: int, isAdmin: bool, o: Order)
    requires Numbered(repo) && repo.connected
    ensures ListFor(repo, userId, isAdmin).Success?
    ensures o in ListFor(repo, userId, isAdmin).value <==> Get(repo, o.orderId, userId, isAdmin) == Success(o)
    ensures o in ListFor(repo, userId, isAdmin).value <==> o in repo.orders && (isAdmin || o.customerId == userId)
  {
    OwnedMembers(repo.orders, userId);
    FindNumbered(repo.orders, 1, o.orderId);
    if o in repo.orders {
      var i :| 0 <= i < |repo.orders| && repo.orders[i] == o;
      assert repo.orders[i].orderId == 1 + i;
    }
  }

  /** What a customer who is not an administrator is told when reading, rating or updating depends on his own orders
      only: for a foreign order the answers are those for an order that does not exist. */
  lemma NothingLeaks(r: Repo, s: Repo, userId: int, id: int, rating: real, newStatus: Status)
    requires Numbered(r) && Numbered(s) && LooksTheSame(r, s, userId)
    ensures Get(r, id, userId, false) == Get(s, id, userId, false)
    ensures ListFor(r, userId, false) == ListFor(s, userId, false)
    ensures RateCheck(r, id, rating, userId, false) == RateCheck(s, id, rating, userId, false)
    ensures UpdateCheck(r, id, newStatus, false) == UpdateCheck(s, id, newStatus, false)
  {
    OwnedHasId(r.orders, 1, id, userId);
    OwnedHasId(s.orders, 1, id, userId);
  }

  /** A creation is answered alike too, except that the new id counts everybody's orders. */
  lemma CreationShowsOnlyTheId(r: Repo, s: Repo, q: NewOrder, rs: Restaurants)
    requires r.connected == s.connected && r.fixedCreatedAt == s.fixedCreatedAt
    ensures Checked(r, q, rs) == Checked(s, q, rs)
    ensures Checked(r, q, rs).Success? ==>
              var o := Checked(r, q, rs).value;
              Stored(r, o) == Stored(s, o).(orderId := r.nextOrderId)
  {
  }

  /** A call by somebody else who is not an administrator. */
  predicate ByAnother(c: Call, userId: int) {
    match c
    case Create(q, _) => q.customerId != userId
    case Update(_, _, isAdmin) => !isAdmin
    case Rate(_, _, u, isAdmin) => !isAdmin && u != userId
    case _ => false
  }

  lemma {:induction false} OwnedAppend(orders: seq<Order>, o: Order, userId: int)
    ensures OwnedBy(orders + [o], userId) == OwnedBy(orders, userId) + (if o.customerId == userId then [o] else [])
  {
    if orders == [] {
      assert orders + [o] == [o] && [o][1..] == [];
    } else {
      OwnedAppend(orders[1..], o, userId);
      assert (orders + [o])[1..] == orders[1..] + [o];
    }
  }

  lemma {:induction false} ForeignChange(orders: seq<Order>, id: int, change: Order -> Order, userId: int)
    requires FirstWithId(orders, id).Some? && FirstWithId(orders, id).value.customerId != userId
    requires forall o :: change(o).customerId == o.customerId
    ensures OwnedBy(ChangeFirst(orders, id, change), userId) == OwnedBy(orders, userId)
  {
    if orders[0].orderId == id {
      assert ([change(orders[0])] + orders[1..])[1..] == orders[1..];
    } else {
      ForeignChange(orders[1..], id, change, userId);
      var rest := ChangeFirst(orders[1..], id, change);
      assert ([orders[0]] + rest)[1..] == rest;
    }
  }

  /** What other customers do is invisible: it changes nothing that a customer is later told when reading, rating or
      updating. */
  lemma OthersAreInvisible(repo: Repo, c: Call, userId: int)
    requires ByAnother(c, userId)
    ensures LooksTheSame(repo, After(repo, c), userId)
  {
    hide IsValidTransition;
    match c
    case Create(q, rs) =>
      var checked := Checked(repo, q, rs);
      if checked.Success? {
        CheckedOrder(repo, q, rs);
        hide Checked;
        OwnedAppend(repo.orders, Stored(repo, checked.value), userId);
        assert OwnedBy(repo.orders, userId) + [] == OwnedBy(repo.orders, userId);
      }
    case Rate(id, r, u, isAdmin) =>
      if RateCheck(repo, id, r, u, isAdmin).Success? {
        ForeignChange(repo.orders, id, WithRating(r), userId);
      }
    case _ =>
  }

  // ---------- and so it stays, over whole runs ----------

  /** Two repositories that a customer cannot tell apart, now or by creating an order. */
  predicate Twins(r: Repo, s: Repo, userId: int) {
    LooksTheSame(r, s, userId)
    && r.nextOrderId == s.nextOrderId && r.failCreate == s.failCreate && r.fixedCreatedAt == s.fixedCreatedAt
  }

  lemma {:induction false} AbsentUnchanged(orders: seq<Order>, id: int, change: Order -> Order)
    requires FirstWithId(orders, id).None?
    ensures ChangeFirst(orders, id, change) == orders
  {
    if orders != [] {
      AbsentUnchanged(orders[1..], id, change);
    }
  }

  /** Changing an order changes a customer's own orders as if there were no others. */
  lemma {:induction false} OwnedChange(orders: seq<Order>, k: int, id: int, change: Order -> Order, userId: int)
    requires NumberedFrom(orders, k) && forall o :: change(o).customerId == o.customerId
    ensures OwnedBy(ChangeFirst(orders, id, change), userId) == ChangeFirst(OwnedBy(orders, userId), id, change)
  {
    if orders != [] {
      var tail := orders[1..];
      var own := OwnedBy(tail, userId);
      OwnedChange(tail, k + 1, id, change, userId);
      OwnedHead(orders[0], tail, userId);
      if orders[0].orderId == id {
        OwnedHasId(tail, k + 1, id, userId);
        FindNumbered(tail, k + 1, id);
        AbsentUnchanged(own, id, change);
        OwnedHead(change(orders[0]), tail, userId);
        assert ([orders[0]] + own)[1..] == own;
      } else {
        OwnedHead(orders[0], ChangeFirst(tail, id, change), userId);
        assert ([orders[0]] + own)[1..] == own;
      }
      assert [orders[0]] + tail == orders;
    }
  }

  lemma OwnedHead(o: Order, tail: seq<Order>, userId: int)
    ensures OwnedBy([o] + tail, userId)
         == if o.customerId == userId then [o] + OwnedBy(tail, userId) else OwnedBy(tail, userId)
  {
    assert ([o] + tail)[1..] == tail;
  }

  /** One and the same call, whoever makes it, keeps two such repositories indistinguishable. */
  lemma SameCallKeepsTwins(r: Repo, s: Repo, c: Call, userId: int)
    requires Numbered(r) && Numbered(s) && Twins(r, s, userId)
    ensures Twins(After(r, c), After(s, c), userId)
  {
    hide OwnedBy, ChangeFirst, FirstWithId, Checked, IsValidTransition, NumberedFrom;
    match c
    case Create(q, rs) =>
      CreationShowsOnlyTheId(r, s, q, rs);
      if Checked(r, q, rs).Success? {
        OwnedAppend(r.orders, Stored(r, Checked(r, q, rs).value), userId);
        OwnedAppend(s.orders, Stored(s, Checked(s, q, rs).value), userId);
      }
    case Update(id, status, isAdmin) =>
      SameChange(r, s, id, WithStatus(status), userId);
    case Rate(id, rating, u, isAdmin) =>
      SameChange(r, s, id, WithRating(rating), userId);
    case _ =>
  }

  /** An own order is found in both alike; a foreign one may be changed in one only, unseen. */
  lemma SameChange(r: Repo, s: Repo, id: int, change: Order -> Order, userId: int)
    requires Numbered(r) && Numbered(s) && LooksTheSame(r, s, userId)
    requires forall o :: change(o).customerId == o.customerId
    ensures var own := OwnedBy(r.orders, userId);
      var r', s' := ChangeFirst(r.orders, id, change), ChangeFirst(s.orders, id, change);
      OwnedBy(r', userId) == OwnedBy(s', userId)
      && (FirstWithId(own, id).Some? ==> FirstWithId(r.orders, id) == FirstWithId(s.orders, id))
      && (FirstWithId(own, id).None? ==> OwnedBy(r', userId) == own)
  {
    hide OwnedBy, ChangeFirst, FirstWithId;
    OwnedChange(r.orders, 1, id, change, userId);
    OwnedChange(s.orders, 1, id, change, userId);
    OwnedHasId(r.orders, 1, id, userId);
    OwnedHasId(s.orders, 1, id, userId);
    if FirstWithId(OwnedBy(r.orders, userId), id).None? {
      AbsentUnchanged(OwnedBy(r.orders, userId), id, change);
    }
  }

  /** A creation that would be accepted by a connected repository. */
  predicate Creates(c: Call) { c.Create? && Checked(EMPTY, c.request, c.restaurants).Success? }

  /** The same call, or two calls by other customers of which both create an order or neither does. */
  ghost predicate Alike(c: Call, d: Call, userId: int) {
    c == d || (ByAnother(c, userId) && ByAnother(d, userId) && (Creates(c) <==> Creates(d)))
  }

  lemma AnotherMovesOn(r: Repo, c: Call, userId: int)
    requires ByAnother(c, userId)
    ensures var r' := After(r, c);
      r'.failCreate == r.failCreate && r'.fixedCreatedAt == r.fixedCreatedAt && r'.connected == r.connected
      && r'.nextOrderId == r.nextOrderId + (if Creates(c) && r.connected && !r.failCreate then 1 else 0)
  {
    hide ChangeFirst, FirstWithId, PricedLines, MenuEntry;
  }

  lemma AlikeKeepsTwins(r: Repo, s: Repo, c: Call, d: Call, userId: int)
    requires Numbered(r) && Numbered(s) && Twins(r, s, userId) && Alike(c, d, userId)
    ensures Twins(After(r, c), After(s, d), userId)
  {
    hide After, Numbered, OwnedBy, ByAnother, Creates;
    if c == d {
      SameCallKeepsTwins(r, s, c, userId);
    } else {
      OthersAreInvisible(r, c, userId);
      OthersAreInvisible(s, d, userId);
      AnotherMovesOn(r, c, userId);
      AnotherMovesOn(s, d, userId);
    }
  }

  /** Non-interference: whatever other customers do instead, as long as they create orders at the same points, a
      customer ends up with a repository that he cannot tell from the other, in any run with any calls of his own
      and any administrator's in between. */
  lemma {:induction false} OthersNeverShow(cs: seq<Call>, ds: seq<Call>, userId: int)
    requires |cs| == |ds| && forall i :: 0 <= i < |cs| ==> Alike(cs[i], ds[i], userId)
    ensures Twins(RunCalls(cs), RunCalls(ds), userId)
  {
    if cs != [] {
      var n := |cs| - 1;
      OthersNeverShow(cs[..n], ds[..n], userId);
      AlwaysNumbered(cs[..n]);
      AlwaysNumbered(ds[..n]);
      assert Alike(cs[n], ds[n], userId);
      hide Twins, Alike, After, Numbered;
      AlikeKeepsTwins(RunCalls(cs[..n]), RunCalls(ds[..n]), cs[n], ds[n], userId);
    }
  }

  /** A successful update or rating is what the caller then reads back. */
  lemma ChangeIsReadBack(repo: Repo, id: int, change: Order -> Order)
    requires Numbered(repo) && FirstWithId(repo.orders, id).Some?
    requires forall o :: change(o).orderId == o.orderId
    ensures FirstWithId(ChangeFirst(repo.orders, id, change), id) == Some(change(FirstWithId(repo.orders, id).value))
  {
    FindNumbered(repo.orders, 1, id);
    ChangeNumbered(repo.orders, 1, id, change);
    FindNumbered(ChangeFirst(repo.orders, id, change), 1, id);
  }
}
