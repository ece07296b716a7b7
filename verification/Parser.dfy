/** Turning the model's tool call into an order draft that only names dishes on the menu. */
module DraftParser {
  import opened Menu
  import opened Sorting
  import opened Wrappers
  import opened Strings

  /** Case folding, trimming, and rounding to two decimals. */
  datatype Env = Env(lower: string -> string, strip: string -> string, round2: real -> real)

  /** What the tool call holds under `quantity`. */
  datatype Quantity = Absent | Whole(n: int) | NotWhole

  datatype Raw = Raw(food: Option<string>, quantity: Quantity)

  datatype Reply =
    | TextOnly(text: string)
    | Call(tool: string, restaurant: Option<string>, delivery: Option<string>, items: seq<Raw>)

  datatype Line = Line(foodId: int, food: string, quantity: int, price: real)

  datatype Issue = RestaurantUnknown(name: string) | FoodUnknown(food: string, restaurant: string)

  datatype Draft = Draft(restaurantId: int, restaurant: string, delivery: string, lines: seq<Line>, total: real)

  datatype Parsed =
    | Drafted(draft: Draft, confidence: real, issues: seq<Issue>)
    | Refused(text: string)
    | UnexpectedTool(tool: string)
    | NoItems
    | InvalidQuantity
    | NothingResolved(issues: seq<Issue>)

  /** Where the order goes: the id and name settled on, and whether the name was recognised. */
  datatype Place = Place(id: Option<int>, name: string, known: bool)

  const TOOL: string := "create_order_draft"

  // ---------- reference ----------

  function FirstWhere<T>(s: seq<T>, p: T -> bool): (i: nat)
    ensures i <= |s| && (i < |s| ==> p(s[i])) && forall k :: 0 <= k < i ==> !p(s[k])
  {
    if s == [] || p(s[0]) then 0 else FirstWhere(s[1..], p) + 1
  }

  lemma FirstIs<T>(s: seq<T>, p: T -> bool, i: nat)
    requires i <= |s| && (i < |s| ==> p(s[i])) && forall k :: 0 <= k < i ==> !p(s[k])
    ensures FirstWhere(s, p) == i
  {
    var j := FirstWhere(s, p);
  }

  function Default<T>(o: Option<T>, d: T): T { if o.Some? then o.value else d }

  function Named(env: Env, name: string): Food -> bool { (f: Food) => env.lower(f.restaurant) == env.lower(name) }
  function NamedLike(env: Env, name: string): Food -> bool {
    (f: Food) => Contains(env.lower(f.restaurant), env.lower(name))
  }
  function WithId(id: int): Food -> bool { (f: Food) => f.restaurantId == id }

  function Locate(menu: seq<Food>, name: string, hint: int, env: Env): Place {
    var exact, like, hinted := FirstWhere(menu, Named(env, name)), FirstWhere(menu, NamedLike(env, name)),
                               FirstWhere(menu, WithId(hint));
    if exact < |menu| then Place(Some(menu[exact].restaurantId), name, true)
    else if like < |menu| then Place(Some(menu[like].restaurantId), menu[like].restaurant, true)
    else if hint == 0 then Place(None, name, false)
    else Place(Some(hint), if hinted < |menu| then menu[hinted].restaurant else name, false)
  }

  function At(menu: seq<Food>, p: Food -> bool): seq<Food> {
    if menu == [] then []
    else At(menu[..|menu| - 1], p) + (if p(menu[|menu| - 1]) then [menu[|menu| - 1]] else [])
  }

  /** The restaurant's dishes, or the whole menu when it has none. */
  function Candidates(menu: seq<Food>, restaurant: string, env: Env): seq<Food> {
    var there := At(menu, Named(env, restaurant));
    if there == [] then menu else there
  }

  function SameName(name: string): Food -> bool { (f: Food) => f.name == name }
  function SameFolded(env: Env, folded: string): Food -> bool { (f: Food) => env.lower(f.name) == folded }
  function Overlaps(env: Env, folded: string): Food -> bool {
    (f: Food) => Contains(env.lower(f.name), folded) || Contains(folded, env.lower(f.name))
  }

  function Fold(name: string, env: Env): string { env.strip(env.lower(name)) }

  function Resolve(name: string, menu: seq<Food>, restaurant: string, env: Env): Option<Food> {
    var cs, folded := Candidates(menu, restaurant, env), Fold(name, env);
    var exact, same, like := FirstWhere(cs, SameName(name)), FirstWhere(cs, SameFolded(env, folded)),
                             FirstWhere(cs, Overlaps(env, folded));
    if exact < |cs| then Some(cs[exact])
    else if same < |cs| then Some(cs[same])
    else if like < |cs| then Some(cs[like])
    else None
  }

  function AmountOf(q: Quantity): int { if q.Absent? then 1 else if q.Whole? then q.n else 0 }

  function FoodName(raw: Raw): string { Default(raw.food, "") }

  function FoodFor(raw: Raw, menu: seq<Food>, restaurant: string, env: Env): Option<Food> {
    Resolve(FoodName(raw), menu, restaurant, env)
  }

  function LineFor(raw: Raw, food: Food): Line { Line(food.id, food.name, AmountOf(raw.quantity), food.price) }

  function Lines(items: seq<Raw>, menu: seq<Food>, restaurant: string, env: Env): seq<Line> {
    if items == [] then []
    else
      var raw := items[|items| - 1];
      var food := FoodFor(raw, menu, restaurant, env);
      Lines(items[..|items| - 1], menu, restaurant, env) + (if food.Some? then [LineFor(raw, food.value)] else [])
  }

  function Missing(items: seq<Raw>, menu: seq<Food>, restaurant: string, env: Env): seq<Issue> {
    if items == [] then []
    else
      var raw := items[|items| - 1];
      Missing(items[..|items| - 1], menu, restaurant, env)
      + (if FoodFor(raw, menu, restaurant, env).None? then [FoodUnknown(FoodName(raw), restaurant)] else [])
  }

  /** A line's quantity must be at least one; that of an unknown dish is never looked at. */
  predicate Invalid(raw: Raw, menu: seq<Food>, restaurant: string, env: Env) {
    FoodFor(raw, menu, restaurant, env).Some? && AmountOf(raw.quantity) < 1
  }

  function Cost(lines: seq<Line>): real {
    if lines == [] then 0.0
    else Cost(lines[..|lines| - 1]) + lines[|lines| - 1].price * lines[|lines| - 1].quantity as real
  }

  function Confidence(issues: nat): real {
    var raw := 1.0 - 0.15 * issues as real;
    if raw > 0.0 then raw else 0.0
  }

  function PlaceIssues(place: Place, name: string): seq<Issue> { if place.known then [] else [RestaurantUnknown(name)] }

  function Parse(reply: Reply, menu: seq<Food>, hint: int, env: Env): Parsed {
    if reply.TextOnly? then Refused(reply.text)
    else if reply.tool != TOOL then UnexpectedTool(reply.tool)
    else if reply.items == [] then NoItems
    else
      var name := Default(reply.restaurant, "");
      var place := Locate(menu, name, hint, env);
      var lines := Lines(reply.items, menu, place.name, env);
      var issues := PlaceIssues(place, name) + Missing(reply.items, menu, place.name, env);
      if exists i :: 0 <= i < |reply.items| && Invalid(reply.items[i], menu, place.name, env) then InvalidQuantity
      else if lines == [] then NothingResolved(issues)
      else Drafted(Draft(Default(place.id, 0), place.name, Default(reply.delivery, "Standard"), lines,
                         env.round2(Cost(lines))),
                   env.round2(Confidence(|issues|)), issues)
  }

  // ---------- the code ----------

  method FindFirst(menu: seq<Food>, p: Food -> bool) returns (i: nat)
    ensures i == FirstWhere(menu, p)
  {
    i := 0;
    while i < |menu| && !p(menu[i])
      invariant i <= |menu| && forall k :: 0 <= k < i ==> !p(menu[k])
    {
      i := i + 1;
    }
    FirstIs(menu, p, i);
  }

  method ResolveFood(name: string, menu: seq<Food>, restaurant: string, env: Env) returns (food: Option<Food>)
    ensures food == Resolve(name, menu, restaurant, env)
  {
    var folded := env.strip(env.lower(name));
    var cs: seq<Food> := [];
    for i := 0 to |menu|
      invariant cs == At(menu[..i], Named(env, restaurant))
    {
      assert menu[..i + 1][..i] == menu[..i];
      if env.lower(menu[i].restaurant) == env.lower(restaurant) {
        cs := cs + [menu[i]];
      }
    }
    assert menu[..|menu|] == menu;
    if cs == [] {
      cs := menu;
    }
    var i := FindFirst(cs, SameName(name));
    if i < |cs| {
      return Some(cs[i]);
    }
    i := FindFirst(cs, SameFolded(env, folded));
    if i < |cs| {
      return Some(cs[i]);
    }
    i := FindFirst(cs, Overlaps(env, folded));
    return if i < |cs| then Some(cs[i]) else None;
  }

  method LocateRestaurant(menu: seq<Food>, asked: string, hint: int, env: Env)
    returns (id: Option<int>, name: string, issues: seq<Issue>)
    ensures var place := Locate(menu, asked, hint, env);
      id == place.id && name == place.name && issues == PlaceIssues(place, asked)
  {
    id, name, issues := None, asked, [];
    var i := FindFirst(menu, Named(env, asked));
    if i < |menu| {
      id := Some(menu[i].restaurantId);
    }
    if id.None? {
      i := FindFirst(menu, NamedLike(env, asked));
      if i < |menu| {
        id, name := Some(menu[i].restaurantId), menu[i].restaurant;
      }
      if id.None? {
        issues := [RestaurantUnknown(name)];
        if hint != 0 {
          id := Some(hint);
          i := FindFirst(menu, WithId(hint));
          if i < |menu| {
            name := menu[i].restaurant;
          }
        }
      }
    }
  }

  /** The loop over the requested items, which stops at the first invalid quantity. */
  method ResolveItems(items: seq<Raw>, menu: seq<Food>, name: string, env: Env)
    returns (valid: bool, lines: seq<Line>, missing: seq<Issue>, total: real)
    ensures valid <==> forall i :: 0 <= i < |items| ==> !Invalid(items[i], menu, name, env)
    ensures valid ==>
              lines == Lines(items, menu, name, env) && missing == Missing(items, menu, name, env)
              && total == Cost(lines)
  {
    hide Resolve, Lines, Missing, Cost;
    NoItemsYet(menu, name, env);
    assert items[..0] == [];
    valid, lines, missing, total := true, [], [], 0.0;
    for i := 0 to |items|
      invariant valid && forall k :: 0 <= k < i ==> !Invalid(items[k], menu, name, env)
      invariant lines == Lines(items[..i], menu, name, env) && missing == Missing(items[..i], menu, name, env)
      invariant total == Cost(lines)
    {
      var raw := items[i];
      ItemStep(items, i, menu, name, env);
      var food := ResolveFood(FoodName(raw), menu, name, env);
      if food.None? {
        missing := missing + [FoodUnknown(FoodName(raw), name)];
      } else {
        if AmountOf(raw.quantity) < 1 {
          assert Invalid(items[i], menu, name, env);
          valid := false;
          return;
        }
        CostStep(lines, LineFor(raw, food.value));
        total := total + food.value.price * AmountOf(raw.quantity) as real;
        lines := lines + [LineFor(raw, food.value)];
      }
    }
    assert items[..|items|] == items;
  }

  lemma NoItemsYet(menu: seq<Food>, name: string, env: Env)
    ensures Lines([], menu, name, env) == [] && Missing([], menu, name, env) == [] && Cost([]) == 0.0
  {
  }

  lemma ItemStep(items: seq<Raw>, i: nat, menu: seq<Food>, name: string, env: Env)
    requires i < |items|
    ensures var food := FoodFor(items[i], menu, name, env);
      var lines, missing := Lines(items[..i], menu, name, env), Missing(items[..i], menu, name, env);
      Lines(items[..i + 1], menu, name, env) == (if food.Some? then lines + [LineFor(items[i], food.value)] else lines)
      && Missing(items[..i + 1], menu, name, env)
         == if food.Some? then missing else missing + [FoodUnknown(FoodName(items[i]), name)]
  {
    hide FoodFor;
    var upTo := items[..i + 1];
    assert upTo[..i] == items[..i] && upTo[i] == items[i];
    var lines, missing := Lines(items[..i], menu, name, env), Missing(items[..i], menu, name, env);
    assert lines + [] == lines && missing + [] == missing;
  }

  lemma CostStep(lines: seq<Line>, line: Line)
    ensures Cost(lines + [line]) == Cost(lines) + line.price * line.quantity as real
  {
    assert (lines + [line])[..|lines|] == lines;
  }

  method ParseOrder(reply: Reply, menu: seq<Food>, hint: int, env: Env) returns (parsed: Parsed)
    ensures parsed == Parse(reply, menu, hint, env)
  {
    hide Locate, Lines, Missing, Invalid, Cost, Confidence, PlaceIssues;
    if reply.TextOnly? {
      return Refused(reply.text);
    }
    if reply.tool != TOOL {
      return UnexpectedTool(reply.tool);
    }
    if reply.items == [] {
      return NoItems;
    }
    var id, name, issues := LocateRestaurant(menu, Default(reply.restaurant, ""), hint, env);
    var valid, lines, missing, total := ResolveItems(reply.items, menu, name, env);
    if !valid {
      return InvalidQuantity;
    }
    issues := issues + missing;
    if lines == [] {
      return NothingResolved(issues);
    }
    var draft := Draft(Default(id, 0), name, Default(reply.delivery, "Standard"), lines, env.round2(total));
    parsed := Drafted(draft, env.round2(Confidence(|issues|)), issues);
  }
}

/** What a parsed draft promises about the request and the menu. */
module DraftProperties {
  import opened Menu
  import opened Sorting
  import opened Wrappers
  import opened Strings
  import opened DraftParser

  // ---------- nothing is lost ----------

  /** The requested items that made it into the draft, by position. */
  function Positions(items: seq<Raw>, menu: seq<Food>, restaurant: string, env: Env): seq<nat> {
    if items == [] then []
    else
      var n := |items| - 1;
      Positions(items[..n], menu, restaurant, env)
      + (if FoodFor(items[n], menu, restaurant, env).Some? then [n] else [])
  }

  /** The dish's own id, name and price, and the quantity asked for, one unless stated. */
  predicate IsLineFor(line: Line, raw: Raw, food: Food) {
    line.foodId == food.id && line.food == food.name && line.price == food.price
    && (raw.quantity.Absent? ==> line.quantity == 1)
    && (raw.quantity.Whole? ==> line.quantity == raw.quantity.n)
  }

  /** Line `k` is the item at position `k` of the increasing list of all resolvable items. */
  lemma {:induction false} LinesAreTheResolvable(items: seq<Raw>, menu: seq<Food>, restaurant: string, env: Env)
    ensures var ps, lines := Positions(items, menu, restaurant, env), Lines(items, menu, restaurant, env);
      |lines| == |ps|
      && (forall k :: 0 <= k < |ps| ==> ps[k] < |items|)
      && (forall k :: 0 <= k < |ps| ==>
           var food := FoodFor(items[ps[k]], menu, restaurant, env);
           food.Some? && IsLineFor(lines[k], items[ps[k]], food.value))
      && (forall j, k :: 0 <= j < k < |ps| ==> ps[j] < ps[k])
      && (forall i :: 0 <= i < |items| ==> (i in ps <==> FoodFor(items[i], menu, restaurant, env).Some?))
  {
    hide Resolve;
    if items != [] {
      var n := |items| - 1;
      LinesAreTheResolvable(items[..n], menu, restaurant, env);
      assert forall i :: 0 <= i < n ==> items[..n][i] == items[i];
    }
  }

  lemma {:induction false} ItemsAreLinesOrIssues(items: seq<Raw>, menu: seq<Food>, restaurant: string, env: Env)
    ensures |Lines(items, menu, restaurant, env)| + |Missing(items, menu, restaurant, env)| == |items|
  {
    if items != [] {
      ItemsAreLinesOrIssues(items[..|items| - 1], menu, restaurant, env);
    }
  }

  lemma {:induction false} AmountsArePositive(items: seq<Raw>, menu: seq<Food>, restaurant: string, env: Env)
    requires forall i :: 0 <= i < |items| ==> !Invalid(items[i], menu, restaurant, env)
    ensures forall l :: l in Lines(items, menu, restaurant, env) ==> l.quantity >= 1
  {
    hide Resolve;
    if items != [] {
      var n := |items| - 1;
      assert forall i :: 0 <= i < n ==> items[..n][i] == items[i];
      AmountsArePositive(items[..n], menu, restaurant, env);
    }
  }

  /** A draft accounts for every requested item, and its confidence counts the issues. */
  lemma DraftConserves(reply: Reply, menu: seq<Food>, hint: int, env: Env)
    requires Parse(reply, menu, hint, env).Drafted?
    ensures var p := Parse(reply, menu, hint, env);
      var unknown := if Locate(menu, Default(reply.restaurant, ""), hint, env).known then 0 else 1;
      |p.draft.lines| + (|p.issues| - unknown) == |reply.items|
      && p.draft.lines != [] && (forall l :: l in p.draft.lines ==> l.quantity >= 1)
      && p.draft.total == env.round2(Cost(p.draft.lines)) && p.confidence == env.round2(Confidence(|p.issues|))
  {
    hide Locate, Resolve;
    var place := Locate(menu, Default(reply.restaurant, ""), hint, env);
    ItemsAreLinesOrIssues(reply.items, menu, place.name, env);
    AmountsArePositive(reply.items, menu, place.name, env);
  }

  /** The confidence is one without issues, loses 0.15 with each of the first six, is zero from the seventh on, and
      never leaves [0, 1]. */
  lemma ConfidenceMeaning(n: nat)
    ensures 0.0 <= Confidence(n) <= 1.0
    ensures Confidence(n) == 1.0 <==> n == 0
    ensures Confidence(n) == 0.0 <==> n >= 7
    ensures n < 6 ==> Confidence(n) - Confidence(n + 1) == 0.15
    ensures n >= 6 ==> Confidence(n + 1) == 0.0
  {
  }

  /** A draft comes back exactly when the tool was called, some item could be resolved, and every item that could be has
      a quantity of at least one. */
  lemma DraftedIff(reply: Reply, menu: seq<Food>, hint: int, env: Env)
    ensures Parse(reply, menu, hint, env).Drafted? <==>
      reply.Call? && reply.tool == "create_order_draft"
      && var name := Locate(menu, Default(reply.restaurant, ""), hint, env).name;
         SomeResolvable(reply.items, menu, name, env)
         && forall i :: 0 <= i < |reply.items| && FoodFor(reply.items[i], menu, name, env).Some? ==>
              HasGoodQuantity(reply.items[i])
  {
    hide Locate, Lines, FoodFor;
    if reply.Call? {
      LinesIffResolvable(reply.items, menu, Locate(menu, Default(reply.restaurant, ""), hint, env).name, env);
    }
  }

  predicate HasGoodQuantity(raw: Raw) { raw.quantity.Absent? || (raw.quantity.Whole? && raw.quantity.n >= 1) }

  ghost predicate SomeResolvable(items: seq<Raw>, menu: seq<Food>, restaurant: string, env: Env) {
    exists i :: 0 <= i < |items| && FoodFor(items[i], menu, restaurant, env).Some?
  }

  lemma {:induction false} LinesIffResolvable(items: seq<Raw>, menu: seq<Food>, restaurant: string, env: Env)
    ensures Lines(items, menu, restaurant, env) != [] <==> SomeResolvable(items, menu, restaurant, env)
  {
    hide FoodFor;
    if items != [] {
      var n := |items| - 1;
      LinesIffResolvable(items[..n], menu, restaurant, env);
      assert forall i :: 0 <= i < n ==> items[..n][i] == items[i];
    }
  }

  // ---------- which dish ----------

  /** How well a dish matches: 0 exactly, 1 up to case, 2 by substring, 3 not at all. */
  function Tier(f: Food, name: string, env: Env): nat {
    if f.name == name then 0
    else if env.lower(f.name) == Fold(name, env) then 1
    else if Contains(env.lower(f.name), Fold(name, env)) || Contains(Fold(name, env), env.lower(f.name)) then 2
    else 3
  }

  /** The dish found is the first candidate of the best tier; none is found exactly when no candidate matches. */
  lemma ResolveIsFirstOfBestTier(name: string, menu: seq<Food>, restaurant: string, env: Env)
    ensures var cs, found := Candidates(menu, restaurant, env), Resolve(name, menu, restaurant, env);
      if found.None? then forall k :: 0 <= k < |cs| ==> Tier(cs[k], name, env) == 3
      else exists i :: 0 <= i < |cs| && cs[i] == found.value && IsFirstOfBestTier(cs, i, name, env)
  {
    hide Contains, Candidates;
    var cs, folded := Candidates(menu, restaurant, env), Fold(name, env);
    var exact, same, like := FirstWhere(cs, SameName(name)), FirstWhere(cs, SameFolded(env, folded)),
                             FirstWhere(cs, Overlaps(env, folded));
    var i := if exact < |cs| then exact else if same < |cs| then same else like;
    assert forall k :: 0 <= k < |cs| ==> (SameName(name)(cs[k]) <==> Tier(cs[k], name, env) == 0);
    assert forall k :: 0 <= k < |cs| && SameFolded(env, folded)(cs[k]) ==> Tier(cs[k], name, env) <= 1;
    assert forall k :: 0 <= k < |cs| && Overlaps(env, folded)(cs[k]) ==> Tier(cs[k], name, env) <= 2;
    assert i < |cs| ==> IsFirstOfBestTier(cs, i, name, env);
  }

  predicate IsFirstOfBestTier(cs: seq<Food>, i: nat, name: string, env: Env)
    requires i < |cs|
  {
    var t := Tier(cs[i], name, env);
    t < 3 && (forall k :: 0 <= k < |cs| ==> Tier(cs[k], name, env) >= t)
    && forall k :: 0 <= k < i ==> Tier(cs[k], name, env) > t
  }

  lemma {:induction false} AtMeaning(menu: seq<Food>, p: Food -> bool, f: Food)
    ensures f in At(menu, p) <==> f in menu && p(f)
  {
    if menu != [] {
      var init := menu[..|menu| - 1];
      AtMeaning(init, p, f);
      assert menu == init + [menu[|menu| - 1]];
    }
  }

  // ---------- which restaurant ----------

  ghost predicate OnMenu(menu: seq<Food>, restaurant: string, env: Env) {
    exists i :: 0 <= i < |menu| && env.lower(menu[i].restaurant) == env.lower(restaurant)
  }

  /** The restaurant settled on is on the menu exactly when the name was recognised or the hint is on the menu. */
  lemma SettledIffOnMenu(menu: seq<Food>, name: string, hint: int, env: Env)
    ensures var place := Locate(menu, name, hint, env);
      OnMenu(menu, place.name, env)
      <==> place.known || (hint != 0 && exists i :: 0 <= i < |menu| && menu[i].restaurantId == hint)
  {
    hide Contains;
    var place := Locate(menu, name, hint, env);
    var exact, hinted := FirstWhere(menu, Named(env, name)), FirstWhere(menu, WithId(hint));
    assert forall i :: 0 <= i < |menu| ==>
      (Named(env, name)(menu[i]) <==> env.lower(menu[i].restaurant) == env.lower(name));
    assert forall i :: 0 <= i < |menu| ==> (WithId(hint)(menu[i]) <==> menu[i].restaurantId == hint);
  }

  /** How well a dish's restaurant matches a name: 0 up to case, 1 by substring, 2 not at all. */
  function PlaceTier(f: Food, name: string, env: Env): nat {
    if env.lower(f.restaurant) == env.lower(name) then 0
    else if Contains(env.lower(f.restaurant), env.lower(name)) then 1
    else 2
  }

  predicate IsFirstOfBestPlaceTier(menu: seq<Food>, i: nat, name: string, env: Env)
    requires i < |menu|
  {
    var t := PlaceTier(menu[i], name, env);
    t < 2 && (forall k :: 0 <= k < |menu| ==> PlaceTier(menu[k], name, env) >= t)
    && forall k :: 0 <= k < i ==> PlaceTier(menu[k], name, env) > t
  }

  /** The restaurant is that of the first dish of the best tier, so a full name beats a part of one. A full name stays
      as it was asked for, a part becomes the menu's. Without a match the hint decides, unless it is 0. */
  lemma LocateIsFirstOfBestTier(menu: seq<Food>, name: string, hint: int, env: Env)
    ensures var place := Locate(menu, name, hint, env);
      if place.known then
        exists i :: 0 <= i < |menu| && IsFirstOfBestPlaceTier(menu, i, name, env)
          && place.id == Some(menu[i].restaurantId)
          && place.name == if PlaceTier(menu[i], name, env) == 0 then name else menu[i].restaurant
      else
        (forall k :: 0 <= k < |menu| ==> PlaceTier(menu[k], name, env) == 2)
        && place.id == (if hint == 0 then None else Some(hint))
  {
    hide Contains;
    var exact, like := FirstWhere(menu, Named(env, name)), FirstWhere(menu, NamedLike(env, name));
    assert forall k :: 0 <= k < |menu| ==> (Named(env, name)(menu[k]) <==> PlaceTier(menu[k], name, env) == 0);
    assert forall k :: 0 <= k < |menu| && NamedLike(env, name)(menu[k]) ==> PlaceTier(menu[k], name, env) <= 1;
    assert forall k :: 0 <= k < |menu| && PlaceTier(menu[k], name, env) == 1 ==> NamedLike(env, name)(menu[k]);
    var i := if exact < |menu| then exact else like;
    assert i < |menu| ==> IsFirstOfBestPlaceTier(menu, i, name, env);
  }

  /** A dish is then one of that restaurant's. */
  lemma FoodIsFromRestaurant(name: string, menu: seq<Food>, restaurant: string, env: Env)
    requires OnMenu(menu, restaurant, env) && Resolve(name, menu, restaurant, env).Some?
    ensures var f := Resolve(name, menu, restaurant, env).value;
      f in menu && env.lower(f.restaurant) == env.lower(restaurant)
  {
    var i :| 0 <= i < |menu| && env.lower(menu[i].restaurant) == env.lower(restaurant);
    AtMeaning(menu, Named(env, restaurant), menu[i]);
    AtMeaning(menu, Named(env, restaurant), Resolve(name, menu, restaurant, env).value);
  }

  /** Names tell restaurants apart, up to case. */
  ghost predicate NamesIdentify(menu: seq<Food>, env: Env) {
    forall f, g :: f in menu && g in menu && env.lower(f.restaurant) == env.lower(g.restaurant)
      ==> f.restaurantId == g.restaurantId
  }

  /** When the name is recognised or the hint is on the menu, every line is a dish of the restaurant named in the
      draft, and of the draft's own id if names tell restaurants apart. */
  lemma DraftIsOneRestaurant(reply: Reply, menu: seq<Food>, hint: int, env: Env, k: nat)
    requires Parse(reply, menu, hint, env).Drafted? && k < |Parse(reply, menu, hint, env).draft.lines|
    requires OnMenu(menu, Parse(reply, menu, hint, env).draft.restaurant, env)
    ensures var d := Parse(reply, menu, hint, env).draft;
      exists f :: f in menu && IsLineOf(d.lines[k], f) && env.lower(f.restaurant) == env.lower(d.restaurant)
             && (NamesIdentify(menu, env) ==> f.restaurantId == d.restaurantId)
  {
    hide Locate, Resolve, Lines;
    var name := Default(reply.restaurant, "");
    var place := Locate(menu, name, hint, env);
    LinesAreTheResolvable(reply.items, menu, place.name, env);
    var raw := reply.items[Positions(reply.items, menu, place.name, env)[k]];
    var f := FoodFor(raw, menu, place.name, env).value;
    FoodIsFromRestaurant(FoodName(raw), menu, place.name, env);
    if NamesIdentify(menu, env) {
      IdFitsName(menu, name, hint, env, f);
    }
    assert IsLineOf(Parse(reply, menu, hint, env).draft.lines[k], f);
  }

  predicate IsLineOf(l: Line, f: Food) { l.foodId == f.id && l.food == f.name && l.price == f.price }

  lemma IdFitsName(menu: seq<Food>, name: string, hint: int, env: Env, f: Food)
    requires NamesIdentify(menu, env) && f in menu
    requires env.lower(f.restaurant) == env.lower(Locate(menu, name, hint, env).name)
    requires OnMenu(menu, Locate(menu, name, hint, env).name, env)
    ensures Locate(menu, name, hint, env).id == Some(f.restaurantId)
  {
    hide Contains;
    SettledIffOnMenu(menu, name, hint, env);
    var exact, like, hinted := FirstWhere(menu, Named(env, name)), FirstWhere(menu, NamedLike(env, name)),
                               FirstWhere(menu, WithId(hint));
    if exact < |menu| {
      assert menu[exact] in menu;
    } else if like < |menu| {
      assert menu[like] in menu;
    } else {
      assert exists i :: 0 <= i < |menu| && menu[i].restaurantId == hint;
      var i :| 0 <= i < |menu| && menu[i].restaurantId == hint;
      assert WithId(hint)(menu[i]);
      assert menu[hinted] in menu;
    }
  }

  // ---------- what goes unnoticed ----------

  lemma EmptyIsContained(s: string)
    ensures Contains(s, "")
  {
    assert s[..0] == "";
  }

  /** A restaurant name is recognised exactly when, up to case, it is that of some dish's restaurant or part of it. */
  lemma NameKnownIff(menu: seq<Food>, name: string, hint: int, env: Env)
    ensures Locate(menu, name, hint, env).known <==>
      exists i :: 0 <= i < |menu| && (env.lower(menu[i].restaurant) == env.lower(name)
                                      || Contains(env.lower(menu[i].restaurant), env.lower(name)))
  {
    hide Contains;
    var exact, like := FirstWhere(menu, Named(env, name)), FirstWhere(menu, NamedLike(env, name));
    assert forall i :: 0 <= i < |menu| ==>
      (Named(env, name)(menu[i]) <==> env.lower(menu[i].restaurant) == env.lower(name))
      && (NamedLike(env, name)(menu[i]) <==> Contains(env.lower(menu[i].restaurant), env.lower(name)));
  }

  /** So an empty name is recognised whenever there is a menu. */
  lemma EmptyNameIsKnown(menu: seq<Food>, hint: int, env: Env)
    requires env.lower("") == ""
    ensures Locate(menu, "", hint, env).known <==> menu != []
  {
    NameKnownIff(menu, "", hint, env);
    if menu != [] {
      EmptyIsContained(env.lower(menu[0].restaurant));
    }
  }

  /** A missing restaurant name silently becomes the first restaurant on the menu. */
  lemma NoNameIsFirstRestaurant(menu: seq<Food>, hint: int, env: Env)
    requires menu != [] && env.lower("") == ""
    requires forall i :: 0 <= i < |menu| ==> env.lower(menu[i].restaurant) != ""
    ensures Locate(menu, "", hint, env) == Place(Some(menu[0].restaurantId), menu[0].restaurant, true)
  {
    EmptyIsContained(env.lower(menu[0].restaurant));
    FirstIs(menu, NamedLike(env, ""), 0);
    FirstIs(menu, Named(env, ""), |menu|);
  }

  /** A missing dish name silently becomes the first candidate. */
  lemma NoDishIsFirstCandidate(menu: seq<Food>, restaurant: string, env: Env)
    requires Candidates(menu, restaurant, env) != [] && Fold("", env) == ""
    requires forall f :: f in Candidates(menu, restaurant, env) ==> f.name != "" && env.lower(f.name) != ""
    ensures forall q :: FoodFor(Raw(None, q), menu, restaurant, env) == Some(Candidates(menu, restaurant, env)[0])
  {
    hide Candidates;
    var cs := Candidates(menu, restaurant, env);
    EmptyIsContained(env.lower(cs[0].name));
    FirstIs(cs, Overlaps(env, ""), 0);
    FirstIs(cs, SameName(""), |cs|);
    FirstIs(cs, SameFolded(env, ""), |cs|);
  }

  /** And an item without a dish name is resolved whenever there is a menu at all. */
  lemma NoDishResolvesIff(menu: seq<Food>, restaurant: string, env: Env)
    requires Fold("", env) == ""
    ensures forall q :: FoodFor(Raw(None, q), menu, restaurant, env).Some? <==> menu != []
  {
    var cs := Candidates(menu, restaurant, env);
    if menu == [] {
      assert cs == [];
    } else {
      assert cs != [];
      EmptyIsContained(env.lower(cs[0].name));
      assert Overlaps(env, "")(cs[0]);
    }
  }
}
